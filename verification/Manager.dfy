/** A manager over any number of sessions: every one of them runs as if it were alone. */
module Manager {
  import opened SessionTypes
  import opened Lifecycle
  import opened Reach
  import opened Theorems

  /** All sessions ever registered, by id; an id is never used twice. */
  type Registry = map<SessionId, Sys>

  datatype ManagerAction =
    | Register(id: SessionId, sys: Sys)
    | Act(id: SessionId, action: Action)

  ghost predicate Allowed(m: Registry, a: ManagerAction) {
    match a
    case Register(id, sys) => id !in m && Init(sys)
    case Act(id, action) => id in m && Enabled(m[id], action)
  }

  ghost function Apply(c: Policy, m: Registry, a: ManagerAction): Registry
    requires Allowed(m, a)
  {
    match a
    case Register(id, sys) => m[id := sys]
    case Act(id, action) => m[id := Step(c, m[id], action)]
  }

  ghost predicate ManagerRuns(c: Policy, m: Registry, acts: seq<ManagerAction>)
    decreases |acts|
  {
    acts == [] || (Allowed(m, acts[0]) && ManagerRuns(c, Apply(c, m, acts[0]), acts[1..]))
  }

  ghost function ManagerAfter(c: Policy, m: Registry, acts: seq<ManagerAction>): Registry
    requires ManagerRuns(c, m, acts)
    decreases |acts|
  {
    if acts == [] then m else ManagerAfter(c, Apply(c, m, acts[0]), acts[1..])
  }

  /** t is reached by a run of a single session. */
  ghost predicate RunOfOne(c: Policy, t: Sys) {
    exists s, acts :: Init(s) && Runs(c, s, acts) && After(c, s, acts) == t
  }

  lemma OneMoreStep(c: Policy, t: Sys, a: Action)
    requires RunOfOne(c, t) && Enabled(t, a)
    ensures RunOfOne(c, Step(c, t, a))
  {
    var s, acts :| Init(s) && Runs(c, s, acts) && After(c, s, acts) == t;
    RunSnoc(c, s, acts, a);
  }

  lemma {:induction false} RunsProject(c: Policy, m: Registry, acts: seq<ManagerAction>)
    requires ManagerRuns(c, m, acts)
    requires forall id :: id in m ==> RunOfOne(c, m[id])
    ensures forall id :: id in ManagerAfter(c, m, acts) ==> RunOfOne(c, ManagerAfter(c, m, acts)[id])
    decreases |acts|
  {
    if acts != [] {
      match acts[0] {
        case Register(_, sys) =>
          assert Runs(c, sys, []) && After(c, sys, []) == sys;
        case Act(id, action) => OneMoreStep(c, m[id], action);
      }
      RunsProject(c, Apply(c, m, acts[0]), acts[1..]);
    }
  }

  /** Whatever the other sessions do, each session of a manager that started empty has made a run of its own. */
  lemma EachSessionRunsAlone(c: Policy, acts: seq<ManagerAction>, id: SessionId)
    requires ManagerRuns(c, map[], acts) && id in ManagerAfter(c, map[], acts)
    ensures RunOfOne(c, ManagerAfter(c, map[], acts)[id])
  {
    RunsProject(c, map[], acts);
  }

  /** The live subprocesses of all sessions, as pairs of session id and subprocess number. */
  ghost function LiveProcesses(m: Registry, ids: set<SessionId>): set<(SessionId, nat)>
    requires ids <= m.Keys
  {
    set id, p | id in ids && 0 <= p < |m[id].sh.procs| && m[id].sh.procs[p].Live() :: (id, p)
  }

  lemma {:induction false} OneLiveEach(m: Registry, ids: set<SessionId>)
    requires ids <= m.Keys
    requires forall id, p, q ::
               id in ids && 0 <= p < |m[id].sh.procs| && 0 <= q < |m[id].sh.procs| && m[id].sh.procs[p].Live() && m[id].sh.procs[q].Live()
               ==> p == q
    ensures |LiveProcesses(m, ids)| <= |ids|
    decreases |ids|
  {
    if ids != {} {
      var id :| id in ids;
      var rest := LiveProcesses(m, ids - {id});
      var all := LiveProcesses(m, ids);
      OneLiveEach(m, ids - {id});
      if p: nat :| p < |m[id].sh.procs| && m[id].sh.procs[p].Live() {
        assert all == rest + {(id, p)};
      } else {
        assert all == rest;
      }
    } else {
      assert LiveProcesses(m, ids) == {};
    }
  }

  /** The manager never owns more live subprocesses than sessions were ever registered with it. */
  lemma LiveProcessesBounded(c: Policy, acts: seq<ManagerAction>)
    requires ManagerRuns(c, map[], acts)
    ensures var m := ManagerAfter(c, map[], acts); |LiveProcesses(m, m.Keys)| <= |m.Keys|
  {
    var m := ManagerAfter(c, map[], acts);
    RunsProject(c, map[], acts);
    forall id, p: nat, q: nat | id in m.Keys && p < |m[id].sh.procs| && q < |m[id].sh.procs|
                    && m[id].sh.procs[p].Live() && m[id].sh.procs[q].Live()
      ensures p == q
    {
      var s, run :| Init(s) && Runs(c, s, run) && After(c, s, run) == m[id];
      AtMostOneLive(c, s, run, p, q);
    }
    OneLiveEach(m, m.Keys);
  }
}
