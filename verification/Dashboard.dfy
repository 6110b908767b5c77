/** The dashboard's split and statistics of one snapshot, and their agreement with the history sample of that snapshot. */
module Dashboard {
  import opened SessionTypes
  import opened Sequences
  import opened Totals

  datatype DashboardStats = DashboardStats(
    total: int, active: int,
    running: int, starting: int, stopping: int, stalled: int, reconnecting: int, errored: int, stopped: int,
    shells: int, portForwards: int)

  /** Sessions of a snapshot whose state is among `states`. */
  function CountIn(all: seq<Info>, states: set<SessionState>): nat {
    if all == [] then 0
    else CountIn(all[..|all| - 1], states) + if all[|all| - 1].state in states then 1 else 0
  }

  function PositionsIn(all: seq<Info>, states: set<SessionState>): set<int> {
    set i | 0 <= i < |all| && all[i].state in states
  }

  /** The count is the number of positions at which such a session stands. */
  lemma {:induction false} CountInExactly(all: seq<Info>, states: set<SessionState>)
    ensures CountIn(all, states) == |PositionsIn(all, states)|
  {
    if all == [] {
      assert PositionsIn(all, states) == {};
    } else {
      var last := |all| - 1;
      CountInExactly(all[..last], states);
      assert PositionsIn(all, states) == PositionsIn(all[..last], states) + if all[last].state in states then {last} else {};
    }
  }

  function CountTyped(all: seq<Info>, typ: SessionType): nat {
    if all == [] then 0
    else CountTyped(all[..|all| - 1], typ) + if all[|all| - 1].typ == typ then 1 else 0
  }

  /** The sessions with the given activity, in their original order. */
  function Select(all: seq<Info>, active: bool): seq<Info> {
    if all == [] then []
    else Select(all[..|all| - 1], active) + if all[|all| - 1].state.IsActive() == active then [all[|all| - 1]] else []
  }

  const ACTIVE_STATES := {StateStarting, StateRunning, StateStopping, StateStalled, StateReconnecting}

  /** The two selections have exactly the sessions of the snapshot between them, each where it belongs. */
  lemma {:induction false} SelectPartitions(all: seq<Info>)
    ensures multiset(all) == multiset(Select(all, true)) + multiset(Select(all, false))
    ensures forall s :: s in Select(all, true) ==> s.state.IsActive()
    ensures forall s :: s in Select(all, false) ==> !s.state.IsActive()
  {
    if all != [] {
      var init, last := all[..|all| - 1], all[|all| - 1];
      SelectPartitions(init);
      assert all == init + [last];
    }
  }

  /** `picked` are elements of `all`, in the order they have there. */
  ghost predicate PickedInOrder(all: seq<Info>, picked: seq<Info>, positions: seq<nat>) {
    && |positions| == |picked| && Increasing(positions)
    && forall k :: 0 <= k < |picked| ==> positions[k] < |all| && picked[k] == all[positions[k]]
  }

  lemma PickedBefore(all: seq<Info>, picked: seq<Info>, positions: seq<nat>)
    requires all != [] && PickedInOrder(all[..|all| - 1], picked, positions)
    ensures PickedInOrder(all, picked, positions)
    ensures PickedInOrder(all, picked + [all[|all| - 1]], positions + [|all| - 1])
  {
    var last := |all| - 1;
    forall k | 0 <= k < |picked| ensures positions[k] < last && picked[k] == all[positions[k]] {
      assert all[..last][positions[k]] == all[positions[k]];
    }
  }

  lemma {:induction false} SelectInOrder(all: seq<Info>, active: bool) returns (positions: seq<nat>)
    ensures PickedInOrder(all, Select(all, active), positions)
  {
    hide PickedInOrder;
    if all == [] {
      positions := [];
      NothingPicked();
    } else {
      var last := |all| - 1;
      var before := SelectInOrder(all[..last], active);
      PickedBefore(all, Select(all[..last], active), before);
      positions := if all[last].state.IsActive() == active then before + [last] else before;
      assert Select(all[..last], active) + [] == Select(all[..last], active);
    }
  }

  lemma NothingPicked()
    ensures PickedInOrder([], [], [])
  {
  }

  method SplitSessions(all: seq<Info>) returns (active: seq<Info>, stopped: seq<Info>)
    ensures active == Select(all, true) && stopped == Select(all, false)
    ensures multiset(all) == multiset(active) + multiset(stopped)
    ensures forall s :: s in active ==> s.state.IsActive()
    ensures forall s :: s in stopped ==> !s.state.IsActive()
    ensures exists positions :: PickedInOrder(all, active, positions)
    ensures exists positions :: PickedInOrder(all, stopped, positions)
  {
    active, stopped := [], [];
    for i := 0 to |all|
      invariant active == Select(all[..i], true) && stopped == Select(all[..i], false)
    {
      assert all[..i + 1][..i] == all[..i];
      if all[i].state.IsActive() {
        active := active + [all[i]];
      } else {
        stopped := stopped + [all[i]];
      }
    }
    assert all[..|all|] == all;
    SelectPartitions(all);
    ghost var activePositions := SelectInOrder(all, true);
    ghost var stoppedPositions := SelectInOrder(all, false);
  }

  function StatsOf(all: seq<Info>): DashboardStats {
    DashboardStats(
      |all|, CountIn(all, ACTIVE_STATES),
      CountIn(all, {StateRunning}), CountIn(all, {StateStarting}), CountIn(all, {StateStopping}),
      CountIn(all, {StateStalled}), CountIn(all, {StateReconnecting}), CountIn(all, {StateErrored}), CountIn(all, {StateStopped}),
      CountTyped(all, TypeShell), CountTyped(all, TypePortForward))
  }

  method BuildDashboardStats(sessions: seq<Info>) returns (stats: DashboardStats)
    ensures stats.total == |sessions| && stats.active == CountIn(sessions, ACTIVE_STATES)
    ensures stats.running == CountIn(sessions, {StateRunning}) && stats.starting == CountIn(sessions, {StateStarting})
    ensures stats.stopping == CountIn(sessions, {StateStopping}) && stats.stalled == CountIn(sessions, {StateStalled})
    ensures stats.reconnecting == CountIn(sessions, {StateReconnecting})
    ensures stats.errored == CountIn(sessions, {StateErrored}) && stats.stopped == CountIn(sessions, {StateStopped})
    ensures stats.shells == CountTyped(sessions, TypeShell) && stats.portForwards == CountTyped(sessions, TypePortForward)
    ensures stats.active == stats.running + stats.starting + stats.stopping + stats.stalled + stats.reconnecting
    ensures stats.total == stats.active + stats.errored + stats.stopped == stats.shells + stats.portForwards
  {
    stats := DashboardStats(|sessions|, 0, 0, 0, 0, 0, 0, 0, 0, 0, 0);
    for i := 0 to |sessions|
      invariant stats == StatsOf(sessions[..i]).(total := |sessions|)
      invariant stats.active == stats.running + stats.starting + stats.stopping + stats.stalled + stats.reconnecting
      invariant i == stats.active + stats.errored + stats.stopped == stats.shells + stats.portForwards
    {
      assert sessions[..i + 1][..i] == sessions[..i];
      var sess := sessions[i];
      if sess.state.IsActive() {
        stats := stats.(active := stats.active + 1);
      }
      match sess.state {
        case StateRunning => stats := stats.(running := stats.running + 1);
        case StateStarting => stats := stats.(starting := stats.starting + 1);
        case StateStopping => stats := stats.(stopping := stats.stopping + 1);
        case StateStalled => stats := stats.(stalled := stats.stalled + 1);
        case StateReconnecting => stats := stats.(reconnecting := stats.reconnecting + 1);
        case StateErrored => stats := stats.(errored := stats.errored + 1);
        case StateStopped => stats := stats.(stopped := stats.stopped + 1);
      }
      match sess.typ {
        case TypeShell => stats := stats.(shells := stats.shells + 1);
        case TypePortForward => stats := stats.(portForwards := stats.portForwards + 1);
      }
    }
    assert sessions[..|sessions|] == sessions;
  }

  // ---------------------------------------------------------------- one snapshot, two readers

  /** `order` visits every registered session once: some iteration order of the manager's map. */
  ghost predicate Visits(m: map<SessionId, Info>, order: seq<SessionId>) {
    && (forall i, j :: 0 <= i < j < |order| ==> order[i] != order[j])
    && (forall i :: 0 <= i < |order| ==> order[i] in m)
  }

  /** ListSessions: the sessions in that order. */
  function ListInOrder(m: map<SessionId, Info>, order: seq<SessionId>): seq<Info>
    requires forall i :: 0 <= i < |order| ==> order[i] in m
  {
    seq(|order|, i requires 0 <= i < |order| => m[order[i]])
  }

  function Ids(order: seq<SessionId>): set<SessionId> {
    set i | 0 <= i < |order| :: order[i]
  }

  lemma {:induction false} SelectCounts(all: seq<Info>)
    ensures |Select(all, true)| == CountIn(all, ACTIVE_STATES) == |all| - |Select(all, false)|
  {
    if all != [] {
      SelectCounts(all[..|all| - 1]);
    }
  }

  lemma NoneActive(m: map<SessionId, Info>, typ: SessionType)
    ensures ActiveIds(m, {}, typ) == {}
  {
  }

  lemma {:induction false} ActiveAgree(m: map<SessionId, Info>, order: seq<SessionId>)
    requires Visits(m, order)
    ensures var list := ListInOrder(m, order);
            CountIn(list, ACTIVE_STATES) == |ActiveIds(m, Ids(order), TypeShell)| + |ActiveIds(m, Ids(order), TypePortForward)|
  {
    hide ActiveIds;
    if order != [] {
      var init, id := order[..|order| - 1], order[|order| - 1];
      ActiveAgree(m, init);
      assert ListInOrder(m, order)[..|order| - 1] == ListInOrder(m, init);
      assert Ids(order) == Ids(init) + {id};
      assert id !in Ids(init);
      OneMoreActive(m, Ids(init), id, TypeShell);
      OneMoreActive(m, Ids(init), id, TypePortForward);
    } else {
      assert Ids(order) == {};
      NoneActive(m, TypeShell);
      NoneActive(m, TypePortForward);
    }
  }

  /**
   For one state of the registry, a history sample's shells and tunnels add up to the dashboard's
   active count and to the length of its active list, in whatever order either visited the map.
   */
  lemma SampleAgreesWithDashboard(m: map<SessionId, Info>, order: seq<SessionId>)
    requires Visits(m, order) && Ids(order) == m.Keys
    ensures var list := ListInOrder(m, order);
            |ActiveIds(m, m.Keys, TypeShell)| + |ActiveIds(m, m.Keys, TypePortForward)|
            == StatsOf(list).active == |Select(list, true)| == |list| - |Select(list, false)|
  {
    ActiveAgree(m, order);
    SelectCounts(ListInOrder(m, order));
  }
}
