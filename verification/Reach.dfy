/** What can come of a state: by goroutines and subprocesses alone, or with new calls as well. */
module Reach {
  import opened SessionTypes
  import opened Lifecycle
  import opened Invariant
  import opened Preservation

  predicate IsCall(a: Action) {
    a.CallStop? || a.CallReconnect? || a.CallRemove?
  }

  predicate NoCalls(acts: seq<Action>) {
    forall k :: 0 <= k < |acts| ==> !IsCall(acts[k])
  }

  /** Some run from s ends in t. */
  ghost predicate Leads(c: Policy, s: Sys, t: Sys) {
    exists acts :: Runs(c, s, acts) && After(c, s, acts) == t
  }

  /** Some run from s ends in t in which nobody calls stop, reconnect or remove. */
  ghost predicate Comes(c: Policy, s: Sys, t: Sys) {
    exists acts :: Runs(c, s, acts) && After(c, s, acts) == t && NoCalls(acts)
  }

  lemma Stays(c: Policy, s: Sys)
    ensures Comes(c, s, s)
  {
    assert Runs(c, s, []) && After(c, s, []) == s && NoCalls([]);
  }

  lemma Goes(c: Policy, s: Sys, a: Action, t: Sys)
    requires Enabled(s, a) && !IsCall(a) && Comes(c, Step(c, s, a), t)
    ensures Comes(c, s, t)
  {
    hide Step, Enabled;
    var acts :| Runs(c, Step(c, s, a), acts) && After(c, Step(c, s, a), acts) == t && NoCalls(acts);
    var all := [a] + acts;
    assert all[1..] == acts;
    assert Runs(c, s, all) && After(c, s, all) == t && NoCalls(all);
  }

  /** One step. */
  lemma Next(c: Policy, s: Sys, a: Action)
    requires Enabled(s, a) && !IsCall(a)
    ensures Comes(c, s, Step(c, s, a))
  {
    hide Step, Enabled;
    Stays(c, Step(c, s, a));
    Goes(c, s, a, Step(c, s, a));
  }

  lemma Then(c: Policy, s: Sys, t: Sys, u: Sys)
    requires Comes(c, s, t) && Comes(c, t, u)
    ensures Comes(c, s, u)
  {
    hide Step, Enabled;
    var first :| Runs(c, s, first) && After(c, s, first) == t && NoCalls(first);
    ThenRun(c, s, first, u);
  }

  lemma {:induction false} ThenRun(c: Policy, s: Sys, first: seq<Action>, u: Sys)
    requires Runs(c, s, first) && Comes(c, After(c, s, first), u)
    requires NoCalls(first)
    ensures Comes(c, s, u)
    decreases |first|
  {
    hide Step, Enabled;
    if first != [] {
      ThenRun(c, Step(c, s, first[0]), first[1..], u);
      Goes(c, s, first[0], u);
    }
  }

  lemma ComesLeads(c: Policy, s: Sys, t: Sys)
    requires Comes(c, s, t)
    ensures Leads(c, s, t)
  {
  }

  /** A step of any kind, then a run. */
  lemma LeadsOn(c: Policy, s: Sys, a: Action, t: Sys)
    requires Enabled(s, a) && Leads(c, Step(c, s, a), t)
    ensures Leads(c, s, t)
  {
    hide Step, Enabled;
    var acts :| Runs(c, Step(c, s, a), acts) && After(c, Step(c, s, a), acts) == t;
    var all := [a] + acts;
    assert all[1..] == acts;
    assert Runs(c, s, all) && After(c, s, all) == t;
  }

  lemma {:induction false} LeadsFrom(c: Policy, s: Sys, first: seq<Action>, t: Sys)
    requires Runs(c, s, first) && Leads(c, After(c, s, first), t)
    ensures Leads(c, s, t)
    decreases |first|
  {
    hide Step, Enabled;
    if first != [] {
      LeadsFrom(c, Step(c, s, first[0]), first[1..], t);
      LeadsOn(c, s, first[0], t);
    }
  }

  lemma LeadsThen(c: Policy, s: Sys, t: Sys, u: Sys)
    requires Leads(c, s, t) && Leads(c, t, u)
    ensures Leads(c, s, u)
  {
    hide Step, Enabled;
    var first :| Runs(c, s, first) && After(c, s, first) == t;
    LeadsFrom(c, s, first, u);
  }

  lemma ComesKeepsInv(c: Policy, s: Sys, t: Sys)
    requires Inv(c, s) && Leads(c, s, t)
    ensures Inv(c, t)
  {
    hide Inv, Step, Enabled;
    var acts :| Runs(c, s, acts) && After(c, s, acts) == t;
    RunKeepsInv(c, s, acts);
  }

  /** A run goes on with one more step. */
  lemma {:induction false} RunSnoc(c: Policy, s: Sys, acts: seq<Action>, a: Action)
    requires Runs(c, s, acts) && Enabled(After(c, s, acts), a)
    ensures Runs(c, s, acts + [a]) && After(c, s, acts + [a]) == Step(c, After(c, s, acts), a)
    decreases |acts|
  {
    hide Step, Enabled;
    if acts == [] {
      assert ([] + [a])[1..] == [];
      assert After(c, Step(c, s, a), []) == Step(c, s, a);
    } else {
      RunSnoc(c, Step(c, s, acts[0]), acts[1..], a);
      assert (acts + [a])[1..] == acts[1..] + [a];
    }
  }
}
