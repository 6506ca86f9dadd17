/**
 * `poll_transcription`: query the job status until the backend reports a
 * terminal status or the deadline has passed.
 *
 * The backend is a script of ticks: the outcome of the i-th status query,
 * together with the clock reading the loop takes at that tick (read only
 * when the status is not terminal). `start` is the reading taken before the
 * loop. Running out of script stands in for the loop running on forever.
 */
module Poller {
  import opened Wrappers
  import opened Backend

  const DefaultMaxSecs: int := 120
  /** The default interval of 2.0 seconds; only its role as a sleep length matters. */
  const DefaultInterval: nat := 2

  datatype Tick = Tick(reply: Call, now: int)

  datatype PollOutcome =
    | Returned(reply: Json)     // the dict `poll_transcription` returns
    | Raised(failure: Failure)  // a status query raised
    | ScriptExhausted           // no further tick is known

  /** An outcome together with the number of status queries issued. */
  datatype PollRun = PollRun(outcome: PollOutcome, queries: nat)

  /** COMPLETED, FAILED and NOT_FOUND end the loop whatever the clock says. */
  predicate IsTerminal(reply: Json)
  {
    Status(reply) == Some("COMPLETED") || Status(reply) == Some("FAILED") || Status(reply) == Some("NOT_FOUND")
  }

  /** The synthetic reply `{"status": "TIMEOUT", "job_name": job_name}`. */
  function TimeoutReply(jobName: string): Json
  {
    map["status" := "TIMEOUT", "job_name" := jobName]
  }

  /** What one tick decides: `None` when the loop sleeps and queries again. */
  function TickOutcome(jobName: string, maxSecs: int, start: int, t: Tick): (o: Option<PollOutcome>)
    ensures o.None? <==> t.reply.Ok? && !IsTerminal(t.reply.body) && t.now - start <= maxSecs
    ensures !t.reply.Ok? ==> o == Some(Raised(FailureOf(t.reply)))
    ensures t.reply.Ok? && IsTerminal(t.reply.body) ==> o == Some(Returned(t.reply.body))
    ensures t.reply.Ok? && !IsTerminal(t.reply.body) && t.now - start > maxSecs ==>
              o == Some(Returned(TimeoutReply(jobName)))
  {
    match t.reply
    case HttpError(code, text) => Some(Raised(Http(code, text)))
    case Failed => Some(Raised(Other))
    case Ok(reply) =>
      if IsTerminal(reply) then Some(Returned(reply))
      else if t.now - start > maxSecs then Some(Returned(TimeoutReply(jobName)))
      else None
  }

  /**
   * The run over a script: the loop stops at the first tick that decides an
   * outcome, after as many queries as ticks read.
   */
  function Poll(jobName: string, maxSecs: int, start: int, script: seq<Tick>): (run: PollRun)
    ensures run.queries <= |script|
    ensures forall j :: 0 <= j < run.queries - 1 ==> TickOutcome(jobName, maxSecs, start, script[j]).None?
    ensures !run.outcome.ScriptExhausted? ==>
              run.queries >= 1 && TickOutcome(jobName, maxSecs, start, script[run.queries - 1]) == Some(run.outcome)
    ensures run.outcome.ScriptExhausted? ==>
              run.queries == |script| && forall j :: 0 <= j < |script| ==> TickOutcome(jobName, maxSecs, start, script[j]).None?
    decreases |script|
  {
    if script == [] then PollRun(ScriptExhausted, 0)
    else
      match TickOutcome(jobName, maxSecs, start, script[0])
      case Some(outcome) => PollRun(outcome, 1)
      case None =>
        var rest := Poll(jobName, maxSecs, start, script[1..]);
        PollRun(rest.outcome, rest.queries + 1)
  }

  /** `n` rounds of one status query followed by one sleep. */
  function Rounds(jobName: string, interval: nat, n: nat): (log: seq<Event>)
    ensures |log| == 2 * n
    ensures forall k :: 0 <= k < |log| ==>
              log[k] == if k % 2 == 0 then Send(TranscribeResult(jobName)) else Sleep(interval)
  {
    if n == 0 then [] else Rounds(jobName, interval, n - 1) + [Send(TranscribeResult(jobName)), Sleep(interval)]
  }

  /**
   * The events of a run: a query per tick read and a sleep after every
   * query except one that ended the loop.
   */
  function PollLog(jobName: string, interval: nat, run: PollRun): (log: seq<Event>)
    ensures |log| == if run.outcome.ScriptExhausted? || run.queries == 0 then 2 * run.queries else 2 * run.queries - 1
    ensures forall k :: 0 <= k < |log| ==>
              log[k] == if k % 2 == 0 then Send(TranscribeResult(jobName)) else Sleep(interval)
  {
    if run.outcome.ScriptExhausted? || run.queries == 0 then Rounds(jobName, interval, run.queries)
    else Rounds(jobName, interval, run.queries - 1) + [Send(TranscribeResult(jobName))]
  }

  /** The polling loop. */
  method PollTranscription(jobName: string, maxSecs: int, interval: nat, start: int, script: seq<Tick>)
    returns (outcome: PollOutcome, queries: nat, log: seq<Event>)
    ensures PollRun(outcome, queries) == Poll(jobName, maxSecs, start, script)
    ensures log == PollLog(jobName, interval, PollRun(outcome, queries))
  {
    queries, log := 0, [];
    while queries < |script|
      invariant queries <= |script|
      invariant Poll(jobName, maxSecs, start, script).outcome == Poll(jobName, maxSecs, start, script[queries..]).outcome
      invariant Poll(jobName, maxSecs, start, script).queries == queries + Poll(jobName, maxSecs, start, script[queries..]).queries
      invariant log == Rounds(jobName, interval, queries)
    {
      assert script[queries..][0] == script[queries];
      assert script[queries..][1..] == script[queries + 1..];
      log := log + [Send(TranscribeResult(jobName))];
      var tick := script[queries];
      queries := queries + 1;
      match tick.reply {
        case HttpError(code, text) =>
          outcome := Raised(Http(code, text));
          return;
        case Failed =>
          outcome := Raised(Other);
          return;
        case Ok(reply) =>
          var status := Status(reply);
          if status == Some("COMPLETED") {
            outcome := Returned(reply);
            return;
          }
          if status == Some("FAILED") || status == Some("NOT_FOUND") {
            outcome := Returned(reply);
            return;
          }
          if tick.now - start > maxSecs {
            outcome := Returned(TimeoutReply(jobName));
            return;
          }
          log := log + [Sleep(interval)];
      }
    }
    outcome := ScriptExhausted;
  }

  /**
   * A terminal reply is returned unchanged at the first tick that decides,
   * after exactly that many queries, even if the deadline has passed by then.
   */
  lemma TerminalReplyReturnedUnchanged(jobName: string, maxSecs: int, start: int, script: seq<Tick>, k: nat, reply: Json)
    requires k < |script| && script[k].reply == Ok(reply) && IsTerminal(reply)
    requires forall j :: 0 <= j < k ==> TickOutcome(jobName, maxSecs, start, script[j]).None?
    ensures Poll(jobName, maxSecs, start, script) == PollRun(Returned(reply), k + 1)
  {
    assert TickOutcome(jobName, maxSecs, start, script[k]) == Some(Returned(reply));
  }

  /**
   * Live ticks within the deadline, then a live tick past it: the synthetic
   * TIMEOUT reply after n + 1 queries and n sleeps.
   */
  lemma AlwaysLiveTimesOut(jobName: string, maxSecs: int, interval: nat, start: int, script: seq<Tick>, n: nat)
    requires n < |script| && script[n].reply.Ok? && !IsTerminal(script[n].reply.body) && script[n].now - start > maxSecs
    requires forall j :: 0 <= j < n ==>
               script[j].reply.Ok? && !IsTerminal(script[j].reply.body) && script[j].now - start <= maxSecs
    ensures Poll(jobName, maxSecs, start, script) == PollRun(Returned(TimeoutReply(jobName)), n + 1)
    ensures PollLog(jobName, interval, Poll(jobName, maxSecs, start, script))
            == Rounds(jobName, interval, n) + [Send(TranscribeResult(jobName))]
  {
    assert TickOutcome(jobName, maxSecs, start, script[n]) == Some(Returned(TimeoutReply(jobName)));
  }

  /**
   * A TIMEOUT result is only ever the synthetic one, produced at a tick whose
   * reply was live (not terminal) and whose clock reading was past the deadline.
   */
  lemma TimeoutOnlyPastDeadline(jobName: string, maxSecs: int, start: int, script: seq<Tick>)
    requires Poll(jobName, maxSecs, start, script).outcome.Returned?
    requires Status(Poll(jobName, maxSecs, start, script).outcome.reply) == Some("TIMEOUT")
    ensures var run := Poll(jobName, maxSecs, start, script);
            && run.outcome.reply == TimeoutReply(jobName)
            && script[run.queries - 1].reply.Ok?
            && !IsTerminal(script[run.queries - 1].reply.body)
            && script[run.queries - 1].now - start > maxSecs
  {
  }

  /**
   * N live ticks within the deadline followed by COMPLETED: exactly N + 1
   * queries and N sleeps, and the COMPLETED reply comes back.
   */
  lemma CompletesAfterLiveTicks(jobName: string, maxSecs: int, interval: nat, start: int, script: seq<Tick>, n: nat, reply: Json)
    requires n < |script| && script[n].reply == Ok(reply) && Status(reply) == Some("COMPLETED")
    requires forall j :: 0 <= j < n ==>
               script[j].reply.Ok? && !IsTerminal(script[j].reply.body) && script[j].now - start <= maxSecs
    ensures Poll(jobName, maxSecs, start, script) == PollRun(Returned(reply), n + 1)
    ensures PollLog(jobName, interval, Poll(jobName, maxSecs, start, script))
            == Rounds(jobName, interval, n) + [Send(TranscribeResult(jobName))]
  {
    TerminalReplyReturnedUnchanged(jobName, maxSecs, start, script, n, reply);
  }

  /** FAILED or NOT_FOUND on the first query: one query, no sleep, reply returned as is. */
  lemma BackendFailureEndsAtOnce(jobName: string, maxSecs: int, interval: nat, start: int, script: seq<Tick>, reply: Json)
    requires |script| > 0 && script[0].reply == Ok(reply)
    requires Status(reply) == Some("FAILED") || Status(reply) == Some("NOT_FOUND")
    ensures Poll(jobName, maxSecs, start, script) == PollRun(Returned(reply), 1)
    ensures PollLog(jobName, interval, Poll(jobName, maxSecs, start, script)) == [Send(TranscribeResult(jobName))]
  {
  }
}
