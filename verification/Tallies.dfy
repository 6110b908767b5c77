/** Counting the goroutines that currently play a given part in the protocol. */
module Tallies {
  import opened SessionTypes
  import opened Lifecycle

  datatype Role =
    | LoopActive             // a reconnect loop, scheduled or running
    | ProbeActive            // a prober past its gate
    | Waiter(p: nat)         // the one that will call Wait on subprocess p, or spawn the monitor that will
    | Closer(k: nat)         // the one that will close channel k
    | FreshHolder(p: nat)    // a loop that has started p and neither installed nor cancelled it
    | Cancelling(p: nat)     // a stop call between its unlock and its cancel of p
    | Attempting             // a loop before its installation or exit
    | OwesEmit               // will emit before it does anything else that is visible
    | PendingMonitor         // a monitor that still has its critical section to run, or is yet to be spawned

  predicate Plays(r: Role, t: Thread) {
    match r
    case LoopActive => t.Loop?
    case ProbeActive => t.Prober? && !t.ppc.EnterGate?
    case Waiter(p) =>
      (match t
       case Monitor(WaitProcess, cmd, _) => cmd == p
       case Loop(InstallFresh(q, _)) => q == p
       case Loop(CancelFresh(q)) => q == p
       case Loop(KillFresh(q)) => q == p
       case Loop(ReapFresh(q)) => q == p
       case Loop(AnnounceInstall(q, _)) => q == p
       case Loop(SpawnMonitor(q, _)) => q == p
       case _ => false)
    case Closer(k) =>
      (match t
       case Monitor(WaitProcess, _, done) => done == k
       case Monitor(CloseDone(_), _, done) => done == k
       case Loop(InstallFresh(_, q)) => q == k
       case Loop(AnnounceInstall(_, q)) => q == k
       case Loop(SpawnMonitor(_, q)) => q == k
       case _ => false)
    case FreshHolder(p) =>
      (match t
       case Loop(InstallFresh(q, _)) => q == p
       case Loop(CancelFresh(q)) => q == p
       case _ => false)
    case Cancelling(p) => t.Stopper? && t.spc.CancelStopped? && t.spc.h.cancel == Some(p)
    case Attempting =>
      t.Loop? && (t.lpc.CheckHeader? || t.lpc.AnnounceAttempt? || t.lpc.CancelOld? || t.lpc.AwaitOld? || t.lpc.StartFresh?
                  || t.lpc.RecordFailure? || t.lpc.AnnounceFailure? || t.lpc.SleepBackoff? || t.lpc.InstallFresh?)
    case OwesEmit =>
      (match t
       case Monitor(pc, _, _) => pc.AnnounceReport?
       case Prober(pc) => pc.AnnounceProbe?
       case Loop(pc) =>
         pc.AnnounceAttempt? || pc.AnnounceFailure? || pc.AnnounceInstall? || pc.AnnounceEnd?
         || pc.CancelFresh? || pc.KillFresh? || pc.ReapFresh?
       case Poller(pc) => pc.AnnounceDeath?
       case Announcer => true
       case _ => false)
    case PendingMonitor =>
      (match t
       case Monitor(pc, _, _) => pc.WaitProcess? || pc.CloseDone? || pc.ReportExit?
       case Loop(pc) => pc.AnnounceInstall? || pc.SpawnMonitor?
       case _ => false)
  }

  /** The attempt a loop is in the middle of, if it may still sleep for it. */
  function CurrentTry(pc: LoopPc): Option<Try> {
    match pc
    case AnnounceAttempt(try) => Some(try)
    case CancelOld(try) => Some(try)
    case AwaitOld(try) => Some(try)
    case StartFresh(try) => Some(try)
    case RecordFailure(try) => Some(try)
    case AnnounceFailure(try) => Some(try)
    case SleepBackoff(try) => Some(try)
    case _ => None
  }

  /** A loop that is done with the session: it only has to dispose of, announce or spawn something and to clear its flag. */
  predicate Leaving(t: Thread) {
    t.Loop? && !Plays(Attempting, t)
  }

  function One(b: bool): nat {
    if b then 1 else 0
  }

  function Tally(r: Role, ts: seq<Thread>): nat {
    if ts == [] then 0 else Tally(r, ts[..|ts| - 1]) + One(Plays(r, ts[|ts| - 1]))
  }

  lemma {:induction false} TallyUpdate(r: Role, ts: seq<Thread>, i: nat, t: Thread)
    requires i < |ts|
    ensures Tally(r, ts[i := t]) + One(Plays(r, ts[i])) == Tally(r, ts) + One(Plays(r, t))
  {
    var last := |ts| - 1;
    if i == last {
      assert ts[i := t][..last] == ts[..last];
    } else {
      assert ts[i := t][..last] == ts[..last][i := t];
      TallyUpdate(r, ts[..last], i, t);
    }
  }

  lemma TallySnoc(r: Role, ts: seq<Thread>, t: Thread)
    ensures Tally(r, ts + [t]) == Tally(r, ts) + One(Plays(r, t))
  {
    assert (ts + [t])[..|ts|] == ts;
  }

  /** How one goroutine's step changes a tally. */
  lemma TallyAfter(r: Role, ts: seq<Thread>, i: nat, next: Thread, spawn: Option<Thread>)
    requires i < |ts|
    ensures Tally(r, ts[i := next] + Spawned(spawn)) + One(Plays(r, ts[i]))
         == Tally(r, ts) + One(Plays(r, next)) + One(spawn.Some? && Plays(r, spawn.value))
  {
    TallyUpdate(r, ts, i, next);
    match spawn
    case None => assert ts[i := next] + [] == ts[i := next];
    case Some(t) => TallySnoc(r, ts[i := next], t);
  }

  lemma {:induction false} TallyHit(r: Role, ts: seq<Thread>, i: nat)
    requires i < |ts| && Plays(r, ts[i])
    ensures Tally(r, ts) >= 1
  {
    if i < |ts| - 1 {
      TallyHit(r, ts[..|ts| - 1], i);
    }
  }

  lemma {:induction false} TallyTwoHits(r: Role, ts: seq<Thread>, i: nat, j: nat)
    requires i < j < |ts| && Plays(r, ts[i]) && Plays(r, ts[j])
    ensures Tally(r, ts) >= 2
  {
    if j < |ts| - 1 {
      TallyTwoHits(r, ts[..|ts| - 1], i, j);
    } else {
      TallyHit(r, ts[..|ts| - 1], i);
    }
  }

  lemma {:induction false} TallyZero(r: Role, ts: seq<Thread>)
    requires forall i :: 0 <= i < |ts| ==> !Plays(r, ts[i])
    ensures Tally(r, ts) == 0
  {
    if ts != [] {
      TallyZero(r, ts[..|ts| - 1]);
    }
  }

  /** A positive tally has somebody behind it. */
  lemma {:induction false} TallyWitness(r: Role, ts: seq<Thread>) returns (i: nat)
    requires Tally(r, ts) >= 1
    ensures i < |ts| && Plays(r, ts[i])
  {
    i := |ts| - 1;
    if !Plays(r, ts[i]) {
      i := TallyWitness(r, ts[..|ts| - 1]);
    }
  }
}
