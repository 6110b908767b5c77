/** The interactive filter-and-select prompt of internal/aws/prompt.go. */
module Prompt {
  import opened SessionTypes
  import opened Sequences
  import opened GoText

  datatype PromptAction = ActionReset | ActionQuit | ActionSelect(num: int) | ActionFilter

  function ParsePromptInput(lib: Lib, line: string): PromptAction {
    var text := lib.trim(line);
    if text == "" then ActionReset
    else if lib.lower(text) == "q" || lib.lower(text) == "e" then ActionQuit
    else
      var num := lib.atoi(text);
      if num.Some? then ActionSelect(num.value) else ActionFilter
  }

  predicate OccursAt(s: string, part: string, k: int) {
    0 <= k <= |s| - |part| && s[k..k + |part|] == part
  }

  predicate Contains(s: string, part: string) {
    exists k :: 0 <= k <= |s| && OccursAt(s, part, k)
  }

  /** A text contains a part if and only if it is that part with something, or nothing, on either side. */
  lemma ContainsExactly(s: string, part: string)
    ensures Contains(s, part) <==> exists before, after :: s == before + part + after
  {
    if Contains(s, part) {
      var k :| 0 <= k <= |s| && OccursAt(s, part, k);
      assert s == s[..k] + part + s[k + |part|..];
    }
    if before, after :| s == before + part + after {
      assert s[|before|..|before| + |part|] == part;
      assert OccursAt(s, part, |before|);
    }
  }

  /** Whether a name passes a filter, regardless of case; everything passes an empty one. */
  predicate Passes(lib: Lib, name: string, filter: string) {
    filter == "" || Contains(lib.lower(name), lib.lower(filter))
  }

  /** The positions of the names that pass. */
  function Listing(lib: Lib, names: seq<string>, filter: string): seq<nat> {
    if names == [] then []
    else
      var last := |names| - 1;
      Listing(lib, names[..last], filter) + if Passes(lib, names[last], filter) then [last] else []
  }

  /** A listing is strictly increasing and has exactly the passing names. */
  lemma {:induction false} ListingExact(lib: Lib, names: seq<string>, filter: string)
    ensures Increasing(Listing(lib, names, filter))
    ensures forall i: nat :: i in Listing(lib, names, filter) <==> i < |names| && Passes(lib, names[i], filter)
  {
    if names != [] {
      var last := |names| - 1;
      ListingExact(lib, names[..last], filter);
      var before := Listing(lib, names[..last], filter);
      forall i: nat ensures i in Listing(lib, names, filter) <==> i < |names| && Passes(lib, names[i], filter) {
        assert i < last ==> names[..last][i] == names[i];
        assert i in Listing(lib, names, filter) <==> i in before || (i == last && Passes(lib, names[last], filter));
      }
      assert forall i :: 0 <= i < |before| ==> before[i] in before;
    }
  }

  /** An index is listed if and only if the filter is empty or, both in lower case, a part of the name. */
  lemma FilterExact(lib: Lib, names: seq<string>, filter: string, i: nat)
    requires i < |names|
    ensures i in Listing(lib, names, filter) <==>
              filter == "" || exists before, after :: lib.lower(names[i]) == before + lib.lower(filter) + after
  {
    ListingExact(lib, names, filter);
    ContainsExactly(lib.lower(names[i]), lib.lower(filter));
  }

  method FilterIndices(lib: Lib, names: seq<string>, filter: string) returns (indices: seq<nat>)
    ensures indices == Listing(lib, names, filter)
  {
    if filter == "" {
      indices := seq(|names|, i => i);
      AllListed(lib, names);
      return;
    }
    indices := [];
    for i := 0 to |names|
      invariant indices == Listing(lib, names[..i], filter)
    {
      assert names[..i + 1][..i] == names[..i];
      if Contains(lib.lower(names[i]), lib.lower(filter)) {
        indices := indices + [i];
      }
    }
    assert names[..|names|] == names;
  }

  /** An empty filter lists everything. */
  lemma {:induction false} AllListed(lib: Lib, names: seq<string>)
    ensures Listing(lib, names, "") == seq(|names|, i => i)
  {
    if names != [] {
      AllListed(lib, names[..|names| - 1]);
      assert seq(|names|, i => i) == seq(|names| - 1, i => i) + [|names| - 1];
    }
  }

  // ---------------------------------------------------------------- the selection loop

  predicate SomePasses(lib: Lib, names: seq<string>, filter: string) {
    exists i :: 0 <= i < |names| && Passes(lib, names[i], filter)
  }

  /**
   The filter in effect after some lines of input: that of the last filter line that matched
   something, unless a reset or a filter without a match came after it; empty if there is none.
   */
  function EffectiveFilter(lib: Lib, names: seq<string>, lines: seq<string>): string {
    if lines == [] then ""
    else
      var line := lines[|lines| - 1];
      match ParsePromptInput(lib, line)
      case ActionReset => ""
      case ActionFilter => if SomePasses(lib, names, lib.trim(line)) then lib.trim(line) else ""
      case _ => EffectiveFilter(lib, names, lines[..|lines| - 1])
  }

  lemma ListingNonEmpty(lib: Lib, names: seq<string>, filter: string)
    ensures Listing(lib, names, filter) != [] <==> SomePasses(lib, names, filter)
  {
    ListingExact(lib, names, filter);
    if Listing(lib, names, filter) != [] {
      assert Listing(lib, names, filter)[0] in Listing(lib, names, filter);
    }
  }

  /** What is shown before line k is read. */
  function Visible(lib: Lib, names: seq<string>, lines: seq<string>, k: nat): seq<nat>
    requires k <= |lines|
  {
    Listing(lib, names, EffectiveFilter(lib, names, lines[..k]))
  }

  /** What is shown after a line that did not answer the prompt. */
  function Next(lib: Lib, names: seq<string>, line: string, visible: seq<nat>): seq<nat> {
    match ParsePromptInput(lib, line)
    case ActionReset => Listing(lib, names, "")
    case ActionFilter =>
      var matched := Listing(lib, names, lib.trim(line));
      if matched != [] then matched else Listing(lib, names, "")
    case _ => visible
  }

  lemma VisibleStep(lib: Lib, names: seq<string>, lines: seq<string>, k: nat)
    requires k < |lines|
    ensures Visible(lib, names, lines, k + 1) == Next(lib, names, lines[k], Visible(lib, names, lines, k))
  {
    assert lines[..k + 1][..k] == lines[..k];
    ListingNonEmpty(lib, names, lib.trim(lines[k]));
  }

  datatype Outcome = Selected(index: nat) | Exited | InputClosed

  /** What a line does at the prompt that shows `visible`, if it answers it. */
  function Answer(lib: Lib, line: string, visible: seq<nat>): Option<Outcome> {
    match ParsePromptInput(lib, line)
    case ActionQuit => Some(Exited)
    case ActionSelect(num) => if 1 <= num <= |visible| then Some(Selected(visible[num - 1])) else None
    case _ => None
  }

  /** The lists shown so far are the listings of the filters in effect, and no line so far answered its prompt. */
  ghost predicate Undecided(lib: Lib, names: seq<string>, lines: seq<string>, renders: seq<seq<nat>>) {
    && |renders| <= |lines|
    && forall k :: 0 <= k < |renders| ==>
         renders[k] == Visible(lib, names, lines, k) && Answer(lib, lines[k], renders[k]).None?
  }

  lemma UndecidedStep(lib: Lib, names: seq<string>, lines: seq<string>, renders: seq<seq<nat>>)
    requires Undecided(lib, names, lines, renders) && |renders| < |lines|
    requires Answer(lib, lines[|renders|], Visible(lib, names, lines, |renders|)).None?
    ensures Undecided(lib, names, lines, renders + [Visible(lib, names, lines, |renders|)])
    ensures Visible(lib, names, lines, |renders| + 1) == Next(lib, names, lines[|renders|], Visible(lib, names, lines, |renders|))
  {
    VisibleStep(lib, names, lines, |renders|);
  }

  /**
   `renders` are the lists shown, one before each line is read: each is the listing of the filter in
   effect. The first line that answers its prompt decides the outcome: a number in range selects that
   entry of the list shown, a quit exits; if no line does, the input runs out.
   */
  method SelectFromList(lib: Lib, names: seq<string>, lines: seq<string>)
    returns (outcome: Outcome, renders: seq<seq<nat>>)
    ensures 1 <= |renders| <= |lines| + 1
    ensures var last := |renders| - 1;
            && Undecided(lib, names, lines, renders[..last])
            && renders[last] == Visible(lib, names, lines, last)
            && (if last < |lines| then Answer(lib, lines[last], renders[last]) == Some(outcome) else outcome == InputClosed)
  {
    var visible := FilterIndices(lib, names, "");
    renders := [];
    assert Undecided(lib, names, lines, renders) && visible == Visible(lib, names, lines, 0);
    hide Undecided, Visible, EffectiveFilter, Listing, ParsePromptInput;
    while true
      invariant |renders| <= |lines| && Undecided(lib, names, lines, renders)
      invariant visible == Visible(lib, names, lines, |renders|)
      decreases |lines| - |renders|
    {
      ghost var before := renders;
      renders := renders + [visible];
      assert renders[..|before|] == before;
      if |renders| > |lines| {
        return InputClosed, renders;
      }
      var line := lines[|renders| - 1];
      match ParsePromptInput(lib, line) {
        case ActionQuit =>
          return Exited, renders;
        case ActionReset =>
          UndecidedStep(lib, names, lines, before);
          visible := FilterIndices(lib, names, "");
        case ActionSelect(num) =>
          if 1 <= num <= |visible| {
            return Selected(visible[num - 1]), renders;
          }
          UndecidedStep(lib, names, lines, before);
        case ActionFilter =>
          UndecidedStep(lib, names, lines, before);
          var matched := FilterIndices(lib, names, lib.trim(line));
          if |matched| == 0 {
            matched := FilterIndices(lib, names, "");
          }
          visible := matched;
      }
    }
  }

  /** The line, trimmed, asks to leave: q or e, in either case. */
  predicate Quits(lib: Lib, line: string) {
    lib.trim(line) != "" && (lib.lower(lib.trim(line)) == "q" || lib.lower(lib.trim(line)) == "e")
  }

  /**
   Which lines answer a prompt, and how: a quit; or a number from 1 up to and including the length of
   the list shown, which selects that entry. No other line does.
   */
  lemma AnswersExactly(lib: Lib, line: string, visible: seq<nat>)
    ensures Answer(lib, line, visible) == Some(Exited) <==> Quits(lib, line)
    ensures forall k: nat :: k < |visible| && lib.trim(line) != "" && !Quits(lib, line) && lib.atoi(lib.trim(line)) == Some(k + 1)
              ==> Answer(lib, line, visible) == Some(Selected(visible[k]))
    ensures Answer(lib, line, visible).None? <==>
              || lib.trim(line) == ""
              || (!Quits(lib, line) && (lib.atoi(lib.trim(line)).None? || !(1 <= lib.atoi(lib.trim(line)).value <= |visible|)))
  {
  }

  /** Every name that passes the filter in effect can be selected, by exactly one number. */
  lemma EveryEntrySelectable(lib: Lib, names: seq<string>, lines: seq<string>, index: nat) returns (num: nat)
    requires index < |names| && Passes(lib, names[index], EffectiveFilter(lib, names, lines))
    ensures var visible := Visible(lib, names, lines, |lines|);
            && 1 <= num <= |visible|
            && (forall line :: lib.trim(line) != "" && !Quits(lib, line) && lib.atoi(lib.trim(line)) == Some(num)
                  ==> Answer(lib, line, visible) == Some(Selected(index)))
            && (forall k: nat :: k < |visible| && visible[k] == index ==> k + 1 == num)
  {
    assert lines[..|lines|] == lines;
    ListingExact(lib, names, EffectiveFilter(lib, names, lines));
    var visible := Visible(lib, names, lines, |lines|);
    assert index in visible;
    var k :| 0 <= k < |visible| && visible[k] == index;
    num := k + 1;
  }

  /** A selected entry is one of the names that pass the filter in effect, the num-th of them. */
  lemma SelectionIsVisible(lib: Lib, names: seq<string>, lines: seq<string>, k: nat, index: nat)
    requires k < |lines| && Answer(lib, lines[k], Visible(lib, names, lines, k)) == Some(Selected(index))
    ensures index < |names| && Passes(lib, names[index], EffectiveFilter(lib, names, lines[..k]))
    ensures exists num :: ParsePromptInput(lib, lines[k]) == ActionSelect(num) && 1 <= num <= |Visible(lib, names, lines, k)|
              && index == Visible(lib, names, lines, k)[num - 1]
  {
    ListingExact(lib, names, EffectiveFilter(lib, names, lines[..k]));
    assert index in Visible(lib, names, lines, k);
  }

  /** A prompt is never left with an empty list while there is something to choose from. */
  lemma {:induction false} NeverEmpty(lib: Lib, names: seq<string>, lines: seq<string>)
    requires names != []
    ensures SomePasses(lib, names, EffectiveFilter(lib, names, lines))
  {
    if lines == [] {
      assert Passes(lib, names[0], "");
    } else {
      match ParsePromptInput(lib, lines[|lines| - 1])
      case ActionReset => assert Passes(lib, names[0], "");
      case ActionFilter =>
        if !SomePasses(lib, names, lib.trim(lines[|lines| - 1])) {
          assert Passes(lib, names[0], "");
        }
      case _ => NeverEmpty(lib, names, lines[..|lines| - 1]);
    }
  }
}
