/**
 Reference definitions of what the session's counters mean, read off the log of a run alone,
 and what a well-formed log implies about the number of respawns.
 */
module Accounting {
  import opened SessionTypes
  import opened Lifecycle

  /** A counted successful probe or a manual trigger: both start the attempt count afresh. */
  predicate IsReset(e: Event) {
    e.ProbeSucceeded? || e.ManualReset?
  }

  /** Reconnect attempts begun since the last reset. */
  function SinceReset(log: seq<Event>): nat {
    if log == [] then 0
    else
      var e := log[|log| - 1];
      if IsReset(e) then 0
      else SinceReset(log[..|log| - 1]) + if e.AttemptBegun? then 1 else 0
  }

  /** Length of the trailing run of failed probes since the last success or installed respawn. */
  function TrailingFailures(log: seq<Event>): nat {
    if log == [] then 0
    else
      var e := log[|log| - 1];
      if e.ProbeSucceeded? || e.Installed? then 0
      else TrailingFailures(log[..|log| - 1]) + if e.ProbeFailed? then 1 else 0
  }

  function Attempts(log: seq<Event>): nat {
    if log == [] then 0
    else Attempts(log[..|log| - 1]) + if log[|log| - 1].AttemptBegun? then 1 else 0
  }

  function Resets(log: seq<Event>): nat {
    if log == [] then 0
    else Resets(log[..|log| - 1]) + if IsReset(log[|log| - 1]) then 1 else 0
  }

  /** What became of the last attempt begun: there was none, it has installed nothing, or it installed p. */
  datatype Respawn = Original | Uninstalled | Respawned(p: nat)

  function LastRespawn(log: seq<Event>): Respawn {
    if log == [] then Original
    else
      match log[|log| - 1]
      case AttemptBegun(_) => Uninstalled
      case Installed(p) => Respawned(p)
      case _ => LastRespawn(log[..|log| - 1])
  }

  lemma RespawnSnoc(log: seq<Event>, e: Event)
    ensures LastRespawn(log + [e])
         == match e { case AttemptBegun(_) => Uninstalled case Installed(p) => Respawned(p) case _ => LastRespawn(log) }
  {
    assert (log + [e])[..|log|] == log;
  }

  /** An attempt since the last reset is an attempt. */
  lemma {:induction false} CountedIsBegun(log: seq<Event>)
    requires SinceReset(log) > 0
    ensures LastRespawn(log) != Original
  {
    if log[|log| - 1].AttemptBegun? || log[|log| - 1].Installed? {
    } else {
      CountedIsBegun(log[..|log| - 1]);
    }
  }

  /** What each event says about the history before it. */
  predicate Justified(c: Policy, before: seq<Event>, e: Event) {
    match e
    case AttemptBegun(n) => n == SinceReset(before) + 1 <= c.maxAttempts
    case LoopGaveUp => SinceReset(before) == c.maxAttempts
    case ProbeTriggered => TrailingFailures(before) >= c.failureThreshold && before != [] && before[|before| - 1].ProbeFailed?
    case _ => true
  }

  predicate LogOk(c: Policy, log: seq<Event>) {
    log == [] || (LogOk(c, log[..|log| - 1]) && Justified(c, log[..|log| - 1], log[|log| - 1]))
  }

  lemma Snoc(c: Policy, log: seq<Event>, e: Event)
    ensures (log + [e])[..|log|] == log
    ensures SinceReset(log + [e]) == if IsReset(e) then 0 else SinceReset(log) + if e.AttemptBegun? then 1 else 0
    ensures TrailingFailures(log + [e])
         == if e.ProbeSucceeded? || e.Installed? then 0 else TrailingFailures(log) + if e.ProbeFailed? then 1 else 0
    ensures Attempts(log + [e]) == Attempts(log) + if e.AttemptBegun? then 1 else 0
    ensures Resets(log + [e]) == Resets(log) + if IsReset(e) then 1 else 0
    ensures LogOk(c, log + [e]) <==> LogOk(c, log) && Justified(c, log, e)
  {
    assert (log + [e])[..|log|] == log;
  }

  /** Every event of a well-formed log is justified by what precedes it. */
  lemma {:induction false} LogOkAt(c: Policy, log: seq<Event>, k: nat)
    requires LogOk(c, log) && k < |log|
    ensures LogOk(c, log[..k]) && Justified(c, log[..k], log[k])
  {
    var init := log[..|log| - 1];
    if k < |init| {
      LogOkAt(c, init, k);
      assert init[..k] == log[..k];
    }
  }

  /** The attempts since the last reset never exceed the maximum. */
  lemma {:induction false} SinceResetBounded(c: Policy, log: seq<Event>)
    requires LogOk(c, log)
    ensures SinceReset(log) <= c.maxAttempts
  {
    if log != [] {
      SinceResetBounded(c, log[..|log| - 1]);
    }
  }

  /** Over a whole log: at most max attempts, and max more for every reset. */
  lemma {:induction false} AttemptsBounded(c: Policy, log: seq<Event>)
    requires LogOk(c, log)
    ensures Attempts(log) <= c.maxAttempts * Resets(log) + SinceReset(log)
    ensures Attempts(log) <= c.maxAttempts * (1 + Resets(log))
  {
    SinceResetBounded(c, log);
    if log != [] {
      var init := log[..|log| - 1];
      AttemptsBounded(c, init);
      SinceResetBounded(c, init);
      assert c.maxAttempts * (Resets(init) + 1) == c.maxAttempts * Resets(init) + c.maxAttempts;
    }
    assert c.maxAttempts * (Resets(log) + 1) == c.maxAttempts * Resets(log) + c.maxAttempts;
  }
}
