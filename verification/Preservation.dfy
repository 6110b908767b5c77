/** Every action of every goroutine, user and subprocess keeps the invariant; so every run does. */
module Preservation {
  import opened SessionTypes
  import opened Lifecycle
  import opened Tallies
  import opened Invariant

  lemma OneLoop(s: Sys, i: nat, j: nat)
    requires FlagsExact(s) && i != j && i < |s.threads| && j < |s.threads|
    ensures !(s.threads[i].Loop? && s.threads[j].Loop?)
  {
    if s.threads[i].Loop? && s.threads[j].Loop? {
      TallyTwoHits(LoopActive, s.threads, if i < j then i else j, if i < j then j else i);
    }
  }

  lemma AdvanceKeepsThreads(c: Policy, s: Sys, i: nat, choice: bool)
    requires SharedOk(c, s.sh) && ThreadsOk(c, s) && FlagsExact(s)
    requires Enabled(s, Advance(i, choice))
    ensures ThreadsOk(c, Step(c, s, Advance(i, choice)))
  {
    var t := s.threads[i];
    var o := AdvanceThread(c, s.sh, t, choice);
    var s' := Step(c, s, Advance(i, choice));
    KeepsOwn(c, s.sh, t, choice);
    StepGrows(c, s.sh, t, choice);
    forall j | 0 <= j < |s'.threads|
      ensures ThreadOk(c, s'.sh, s'.threads[j])
    {
      if j < |s.threads| && j != i {
        OneLoop(s, i, j);
        KeepsOther(c, s.sh, s'.sh, s.threads[j]);
      }
    }
  }

  lemma AdvanceKeepsFlags(c: Policy, s: Sys, i: nat, choice: bool)
    requires FlagsExact(s) && Enabled(s, Advance(i, choice))
    ensures FlagsExact(Step(c, s, Advance(i, choice)))
  {
    var t := s.threads[i];
    var o := AdvanceThread(c, s.sh, t, choice);
    if t.Loop? { TallyHit(LoopActive, s.threads, i); }
    if Plays(ProbeActive, t) { TallyHit(ProbeActive, s.threads, i); }
    FlagBalance(c, s.sh, t, choice);
    TallyAfter(LoopActive, s.threads, i, o.next, o.spawn);
    TallyAfter(ProbeActive, s.threads, i, o.next, o.spawn);
  }

  /** Nobody holds the number of a subprocess that has not been started. */
  lemma NoStrangers(c: Policy, s: Sys, p: nat)
    requires HandlesOk(s.sh) && ThreadsOk(c, s) && p >= |s.sh.procs|
    ensures Tally(Waiter(p), s.threads) == 0 && Tally(Closer(p), s.threads) == 0
  {
    forall i | 0 <= i < |s.threads|
      ensures !Plays(Waiter(p), s.threads[i]) && !Plays(Closer(p), s.threads[i])
    {
      assert ThreadOk(c, s.sh, s.threads[i]);
    }
    TallyZero(Waiter(p), s.threads);
    TallyZero(Closer(p), s.threads);
  }

  lemma AdvanceKeepsWaiters(c: Policy, s: Sys, i: nat, choice: bool)
    requires HandlesOk(s.sh) && ThreadsOk(c, s) && WaitersExact(s) && ClosersBounded(s)
    requires Enabled(s, Advance(i, choice))
    ensures var s' := Step(c, s, Advance(i, choice)); WaitersExact(s') && ClosersBounded(s')
  {
    var t := s.threads[i];
    var o := AdvanceThread(c, s.sh, t, choice);
    var s' := Step(c, s, Advance(i, choice));
    StepGrows(c, s.sh, t, choice);
    forall p: nat | p < |s'.sh.procs|
      ensures Tally(Waiter(p), s'.threads) + s'.sh.procs[p].waits == 1
      ensures Tally(Closer(p), s'.threads) + s'.sh.chans[p] <= 1
    {
      WaitBalance(c, s.sh, t, choice, p);
      TallyAfter(Waiter(p), s.threads, i, o.next, o.spawn);
      TallyAfter(Closer(p), s.threads, i, o.next, o.spawn);
      if p >= |s.sh.procs| {
        NoStrangers(c, s, p);
      }
    }
  }

  /** If r was played by somebody other than goroutine i, or is played after its step, it is played after it. */
  lemma StillPlayed(r: Role, s: Sys, i: nat, o: Out)
    requires i < |s.threads|
    requires Gain(r, o) >= 1 || (Tally(r, s.threads) >= 1 && !Plays(r, s.threads[i]))
    ensures Tally(r, s.threads[i := o.next] + Spawned(o.spawn)) >= 1
  {
    TallyAfter(r, s.threads, i, o.next, o.spawn);
    if Plays(r, s.threads[i]) {
      TallyHit(r, s.threads, i);
    }
  }

  lemma AdvanceKeepsLive(c: Policy, s: Sys, i: nat, choice: bool)
    requires HandlesOk(s.sh) && ThreadsOk(c, s) && LiveAccounted(s)
    requires Enabled(s, Advance(i, choice))
    ensures LiveAccounted(Step(c, s, Advance(i, choice)))
  {
    var t := s.threads[i];
    var o := AdvanceThread(c, s.sh, t, choice);
    forall p: nat | p < |o.sh.procs| && o.sh.procs[p].Live() && o.sh.sess.cancel != Some(p)
      ensures Tally(FreshHolder(p), s.threads[i := o.next] + Spawned(o.spawn)) >= 1
    {
      PassesLive(c, s.sh, t, choice, p);
      StillPlayed(FreshHolder(p), s, i, o);
    }
  }

  lemma AdvanceKeepsObligations(c: Policy, s: Sys, i: nat, choice: bool)
    requires HandlesOk(s.sh) && ThreadsOk(c, s)
    requires StopCovered(s) && ReconnectingManned(s) && ChangesAnnounced(s)
    requires Enabled(s, Advance(i, choice))
    ensures var s' := Step(c, s, Advance(i, choice)); StopCovered(s') && ReconnectingManned(s') && ChangesAnnounced(s')
  {
    var t := s.threads[i];
    var o := AdvanceThread(c, s.sh, t, choice);
    Passes(c, s.sh, t, choice);
    if o.sh.sess.state.IsStop() && InstalledLive(o.sh) {
      StillPlayed(Cancelling(o.sh.sess.cancel.value), s, i, o);
    }
    if o.sh.sess.state.StateReconnecting? && o.sh.sess.registered {
      StillPlayed(Attempting, s, i, o);
    }
    if o.sh.dirty && !o.sh.sess.state.StateStopping? {
      StillPlayed(OwesEmit, s, i, o);
    }
  }

  lemma AdvanceKeepsShell(c: Policy, s: Sys, i: nat, choice: bool)
    requires HandlesOk(s.sh) && ThreadsOk(c, s) && ShellReported(s)
    requires Enabled(s, Advance(i, choice))
    ensures ShellReported(Step(c, s, Advance(i, choice)))
  {
    if !s.sh.sess.reconnectable {
      var o := AdvanceThread(c, s.sh, s.threads[i], choice);
      StepGrows(c, s.sh, s.threads[i], choice);
      ReportBalance(c, s.sh, s.threads[i], choice);
      TallyAfter(PendingMonitor, s.threads, i, o.next, o.spawn);
    } else {
      StepGrows(c, s.sh, s.threads[i], choice);
    }
  }

  /** A new call adds a goroutine that plays no part yet. */
  lemma CallKeeps(c: Policy, s: Sys, t: Thread)
    requires Inv(c, s)
    requires t == Stopper(EnterStop) || t == Reconnector(LookUp) || t == Remover
    ensures Inv(c, s.(threads := s.threads + [t]))
  {
    hide ThreadOk, SharedOk, Tally;
    forall r {:trigger Tally(r, s.threads + [t])}
      ensures Tally(r, s.threads + [t]) == Tally(r, s.threads)
    {
      TallySnoc(r, s.threads, t);
      PlaysNothing(r, t);
    }
    CallThreadOk(c, s.sh, t);
  }

  lemma PlaysNothing(r: Role, t: Thread)
    requires t == Stopper(EnterStop) || t == Reconnector(LookUp) || t == Remover
    ensures !Plays(r, t)
  {
  }

  lemma CallThreadOk(c: Policy, sh: Shared, t: Thread)
    requires t == Stopper(EnterStop) || t == Reconnector(LookUp) || t == Remover
    ensures ThreadOk(c, sh, t)
  {
  }

  lemma ExitKeeps(c: Policy, s: Sys, p: nat)
    requires Inv(c, s) && Enabled(s, ProcessExits(p))
    ensures Inv(c, Step(c, s, ProcessExits(p)))
  {
    var s' := Step(c, s, ProcessExits(p));
    assert Grows(s.sh, s'.sh) && SameHandles(s.sh, s'.sh);
    forall j | 0 <= j < |s'.threads|
      ensures ThreadOk(c, s'.sh, s'.threads[j])
    {
      KeepsOther(c, s.sh, s'.sh, s.threads[j]);
    }
  }

  lemma StepKeepsInv(c: Policy, s: Sys, a: Action)
    requires Inv(c, s) && Enabled(s, a)
    ensures Inv(c, Step(c, s, a))
  {
    match a
    case Advance(i, choice) =>
      KeepsShared(c, s.sh, s.threads[i], choice);
      AdvanceKeepsThreads(c, s, i, choice);
      AdvanceKeepsFlags(c, s, i, choice);
      AdvanceKeepsWaiters(c, s, i, choice);
      AdvanceKeepsLive(c, s, i, choice);
      AdvanceKeepsObligations(c, s, i, choice);
      AdvanceKeepsShell(c, s, i, choice);
    case CallStop => CallKeeps(c, s, Stopper(EnterStop));
    case CallReconnect => CallKeeps(c, s, Reconnector(LookUp));
    case CallRemove => CallKeeps(c, s, Remover);
    case ProcessExits(p) => ExitKeeps(c, s, p);
  }

  function SmallTally(r: Role, ts: seq<Thread>): nat {
    One(|ts| > 0 && Plays(r, ts[0])) + One(|ts| > 1 && Plays(r, ts[1])) + One(|ts| > 2 && Plays(r, ts[2]))
  }

  lemma TallySmall(r: Role, ts: seq<Thread>)
    requires |ts| <= 3
    ensures Tally(r, ts) == SmallTally(r, ts)
  {
    if ts != [] {
      var init := ts[..|ts| - 1];
      if init != [] {
        assert init[..|init| - 1] == ts[..|ts| - 2];
      }
    }
  }

  lemma TalliesSmall(s: Sys)
    requires |s.threads| <= 3
    ensures forall r {:trigger Tally(r, s.threads)} :: Tally(r, s.threads) == SmallTally(r, s.threads)
  {
    forall r {:trigger Tally(r, s.threads)} {
      TallySmall(r, s.threads);
    }
  }

  lemma StartedTallies(opts: SessionOpts)
    ensures TalliesOk(Started(opts))
  {
    TalliesSmall(Started(opts));
  }

  lemma StartedInv(c: Policy, opts: SessionOpts)
    ensures Inv(c, Started(opts))
  {
    StartedTallies(opts);
  }

  lemma AdoptedTallies(opts: SessionOpts)
    ensures TalliesOk(Adopted(opts))
  {
    TalliesSmall(Adopted(opts));
  }

  lemma AdoptedInv(c: Policy, opts: SessionOpts)
    ensures Inv(c, Adopted(opts))
  {
    AdoptedTallies(opts);
  }

  lemma ExternalInv(c: Policy, opts: SessionOpts, hasChecker: bool)
    ensures Inv(c, External(opts, hasChecker))
  {
    TalliesSmall(External(opts, hasChecker));
  }

  lemma InitInv(c: Policy, s: Sys)
    requires Init(s)
    ensures Inv(c, s)
  {
    if opts :| s == Started(opts) {
      StartedInv(c, opts);
    } else if opts :| s == Adopted(opts) {
      AdoptedInv(c, opts);
    } else {
      var opts, hasChecker :| s == External(opts, hasChecker);
      ExternalInv(c, opts, hasChecker);
    }
  }

  lemma {:induction false} RunKeepsInv(c: Policy, s: Sys, acts: seq<Action>)
    requires Inv(c, s) && Runs(c, s, acts)
    ensures Inv(c, After(c, s, acts))
    decreases |acts|
  {
    if acts != [] {
      StepKeepsInv(c, s, acts[0]);
      RunKeepsInv(c, Step(c, s, acts[0]), acts[1..]);
    }
  }

  /** Every state reachable from any way of creating a session satisfies the invariant. */
  lemma Reachable(c: Policy, s: Sys, acts: seq<Action>)
    requires Init(s) && Runs(c, s, acts)
    ensures Inv(c, After(c, s, acts))
  {
    InitInv(c, s);
    RunKeepsInv(c, s, acts);
  }
}
