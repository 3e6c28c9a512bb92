/**
  The menus of form elicitation (adapter/elicitation-handler.ts): labels are lengthened until
  no two offered strings are equal, so that the string a user picks decodes to one meaning.
*/
module ElicitationMenus {
  import opened Common

  const ELLIPSIS := "\U{2026}"
  const CHECK := "\U{2713} "

  // ----- Lengthening a label -----

  function AtLeast(used: set<string>, n: nat): set<string> {
    set u | u in used && |u| >= n
  }

  lemma LongerCandidate(used: set<string>, candidate: string)
    requires candidate in used
    ensures |AtLeast(used, |candidate| + 1)| < |AtLeast(used, |candidate|)|
  {
    var all, longer := AtLeast(used, |candidate|), AtLeast(used, |candidate| + 1);
    assert candidate in all && candidate !in longer;
    SubsetSmaller(longer + {candidate}, all);
  }

  lemma {:induction false} SubsetSmaller<T>(a: set<T>, b: set<T>)
    requires a <= b
    ensures |a| <= |b|
  {
    if a != {} {
      var x :| x in a;
      SubsetSmaller(a - {x}, b - {x});
    }
  }

  /** The first of label, label…, label……, and so on, that is not used. */
  function Free(name: string, used: set<string>): (free: string)
    ensures free !in used
    decreases |AtLeast(used, |name|)|
  {
    if name !in used then name
    else
      LongerCandidate(used, name);
      Free(name + ELLIPSIS, used)
  }

  function Lengthened(name: string, k: nat): string {
    if k == 0 then name else Lengthened(name, k - 1) + ELLIPSIS
  }

  lemma {:induction false} LengthenedFromFront(name: string, k: nat)
    ensures Lengthened(name + ELLIPSIS, k) == Lengthened(name, k + 1)
  {
    if k > 0 {
      LengthenedFromFront(name, k - 1);
    }
  }

  /** The free label differs from the label by the fewest appended characters. */
  lemma {:induction false} FreeIsShortest(name: string, used: set<string>) returns (k: nat)
    ensures Free(name, used) == Lengthened(name, k) && forall j: nat | j < k :: Lengthened(name, j) in used
    decreases |AtLeast(used, |name|)|
  {
    k := 0;
    if name in used {
      LongerCandidate(used, name);
      var rest := FreeIsShortest(name + ELLIPSIS, used);
      LengthenedFromFront(name, rest);
      k := rest + 1;
      forall j: nat | j < k ensures Lengthened(name, j) in used {
        if j > 0 {
          LengthenedFromFront(name, j - 1);
        }
      }
    }
  }

  /** text is name, possibly lengthened. */
  ghost predicate Shows(text: string, name: string) {
    exists k: nat :: text == Lengthened(name, k)
  }

  /** uniqueAction */
  method UniqueAction(name: string, choices: seq<string>) returns (unique: string)
    ensures unique == Free(name, set c | c in choices)
    ensures unique !in choices && Shows(unique, name)
  {
    ghost var used := set c | c in choices;
    unique := name;
    while unique in choices
      invariant Free(unique, used) == Free(name, used)
      decreases |AtLeast(used, |unique|)|
    {
      LongerCandidate(used, unique);
      unique := unique + ELLIPSIS;
    }
    var k := FreeIsShortest(name, used);
  }

  // ----- Labelling a list -----

  function Labelled(labels: seq<string>): (displays: seq<string>)
    ensures |displays| == |labels|
  {
    if labels == [] then []
    else
      var earlier := Labelled(labels[..|labels| - 1]);
      earlier + [Free(labels[|labels| - 1], set d | d in earlier)]
  }

  lemma {:induction false} LabelsAreDistinct(labels: seq<string>)
    ensures Distinct(Labelled(labels))
  {
    if labels != [] {
      LabelsAreDistinct(labels[..|labels| - 1]);
      var earlier := Labelled(labels[..|labels| - 1]);
      var used := set d | d in earlier;
      assert forall d :: d in earlier ==> d in used;
    }
  }

  /** Labels are left as they are exactly when they were distinct to begin with. */
  lemma {:induction false} LabelsKeptExactly(labels: seq<string>)
    ensures Labelled(labels) == labels <==> Distinct(labels)
  {
    LabelsAreDistinct(labels);
    if labels != [] && Distinct(labels) {
      var earlier := labels[..|labels| - 1];
      LabelsKeptExactly(earlier);
      assert labels[|labels| - 1] !in earlier;
      assert labels == earlier + [labels[|labels| - 1]];
    }
  }

  /** Every display shows the label at its own position. */
  lemma {:induction false} DisplaysShowTheirLabels(labels: seq<string>, i: nat)
    requires i < |labels|
    ensures Shows(Labelled(labels)[i], labels[i])
  {
    var last := |labels| - 1;
    if i < last {
      DisplaysShowTheirLabels(labels[..last], i);
    } else {
      var earlier := Labelled(labels[..last]);
      var k := FreeIsShortest(labels[last], set d | d in earlier);
    }
  }

  /** uniqueLabels */
  method UniqueLabels(labels: seq<string>) returns (displays: seq<string>)
    ensures displays == Labelled(labels)
  {
    displays := [];
    var used: set<string> := {};
    for i := 0 to |labels|
      invariant displays == Labelled(labels[..i]) && used == set d | d in displays
    {
      var unique := labels[i];
      while unique in used
        invariant Free(unique, used) == Free(labels[i], used)
        decreases |AtLeast(used, |unique|)|
      {
        LongerCandidate(used, unique);
        unique := unique + ELLIPSIS;
      }
      assert labels[..i + 1][..i] == labels[..i];
      used := used + {unique};
      displays := displays + [unique];
    }
    assert labels[..|labels|] == labels;
  }

  /** displays.indexOf(text); None stands for -1. */
  function IndexOf(displays: seq<string>, text: string): (index: Option<nat>)
    ensures index.None? <==> text !in displays
    ensures index.Some? ==> index.value < |displays| && displays[index.value] == text
  {
    if displays == [] then None
    else if displays[0] == text then Some(0)
    else
      var rest := IndexOf(displays[1..], text);
      if rest.None? then None else Some(rest.value + 1)
  }

  // ----- The single-choice menu -----

  datatype Choice = Choice(value: string, display: string)

  datatype Collected<T> = Cancelled | Value(value: Option<T>)

  function Displays(choices: seq<Choice>): (labels: seq<string>)
    ensures |labels| == |choices|
  {
    seq(|choices|, i requires 0 <= i < |choices| => choices[i].display)
  }

  /** What a user means by the entry at a position of the menu. */
  function EnumMeaning(choices: seq<Choice>, default: Option<string>, position: nat): Option<string> {
    if position < |choices| then Some(choices[position].value)
    else if position == |choices| && default.Some? then default
    else None
  }

  /** The strings the menu offers: a display per choice, then the default and the omission where these exist. */
  function EnumActions(choices: seq<Choice>, default: Option<string>, required: bool): (actions: seq<string>)
    ensures |actions| == |choices| + (if default.Some? then 1 else 0) + (if required then 0 else 1)
  {
    var displays := Labelled(Displays(choices));
    var actions := if default.Some? then displays + [FreeIn("Use default", displays)] else displays;
    if required then actions else actions + [FreeIn("Omit", actions)]
  }

  function FreeIn(name: string, choices: seq<string>): string {
    Free(name, set c | c in choices)
  }

  /** What is collected when the answer is this one. */
  function EnumResult(
      choices: seq<Choice>, default: Option<string>, required: bool, answer: Option<string>): Collected<string>
  {
    if answer.None? then Cancelled
    else
      var position := IndexOf(EnumActions(choices, default, required), answer.value);
      Value(if position.None? then None else EnumMeaning(choices, default, position.value))
  }

  lemma FreeExtends(names: seq<string>, name: string)
    requires Distinct(names)
    ensures Distinct(names + [FreeIn(name, names)]) && Shows(FreeIn(name, names), name)
  {
    var used := set c | c in names;
    assert forall c :: c in names ==> c in used;
    var k := FreeIsShortest(name, used);
  }

  /** The offered strings are distinct, and each shows its own entry. */
  lemma EnumActionsShowTheirEntries(choices: seq<Choice>, default: Option<string>, required: bool)
    ensures var actions := EnumActions(choices, default, required);
      && Distinct(actions)
      && (forall k :: 0 <= k < |choices| ==> Shows(actions[k], choices[k].display))
      && (default.Some? ==> Shows(actions[|choices|], "Use default"))
      && (!required ==> Shows(actions[|actions| - 1], "Omit"))
  {
    var displays := Labelled(Displays(choices));
    LabelsAreDistinct(Displays(choices));
    forall k | 0 <= k < |choices| ensures Shows(displays[k], choices[k].display) {
      DisplaysShowTheirLabels(Displays(choices), k);
    }
    FreeExtends(displays, "Use default");
    FreeExtends(if default.Some? then displays + [FreeIn("Use default", displays)] else displays, "Omit");
  }

  lemma IndexIsPosition(actions: seq<string>, k: nat)
    requires Distinct(actions) && k < |actions|
    ensures IndexOf(actions, actions[k]) == Some(k)
  {
  }

  /** Each offered string is collected as its own entry, whatever the labels are; one not offered collects nothing. */
  lemma EveryEntryDecodes(choices: seq<Choice>, default: Option<string>, required: bool, answer: string)
    ensures var actions := EnumActions(choices, default, required);
      && (forall k: nat | k < |choices| && answer == actions[k] ::
            EnumResult(choices, default, required, Some(answer)) == Value(Some(choices[k].value)))
      && (default.Some? && answer == actions[|choices|] ==>
            EnumResult(choices, default, required, Some(answer)) == Value(default))
      && (!required && answer == actions[|actions| - 1] ==>
            EnumResult(choices, default, required, Some(answer)) == Value(None))
      && (answer !in actions ==> EnumResult(choices, default, required, Some(answer)) == Value(None))
  {
    var actions := EnumActions(choices, default, required);
    EnumActionsShowTheirEntries(choices, default, required);
    forall k: nat | k < |actions| && answer == actions[k]
      ensures EnumResult(choices, default, required, Some(answer)) == Value(EnumMeaning(choices, default, k))
    {
      IndexIsPosition(actions, k);
    }
  }

  /**
    The enum branch of collectField: it offers these strings, and compares the answer with the
    default's, the omission's and the choices' own.
  */
  method CollectEnum(choices: seq<Choice>, default: Option<string>, required: bool, answer: Option<string>)
    returns (actions: seq<string>, result: Collected<string>)
    ensures actions == EnumActions(choices, default, required) && Distinct(actions)
    ensures result == EnumResult(choices, default, required, answer)
  {
    EnumActionsShowTheirEntries(choices, default, required);
    var displays := UniqueLabels(Displays(choices));
    actions := displays;
    var useDefault: Option<string> := None;
    if default.Some? {
      var text := UniqueAction("Use default", actions);
      useDefault := Some(text);
      actions := actions + [text];
    }
    var omit: Option<string> := None;
    if !required {
      var text := UniqueAction("Omit", actions);
      omit := Some(text);
      actions := actions + [text];
    }
    if answer.None? {
      result := Cancelled;
      return;
    }
    EveryEntryDecodes(choices, default, required, answer.value);
    if answer == useDefault {
      assert answer.value == actions[|choices|];
      result := Value(default);
    } else if answer == omit {
      assert answer.value == actions[|actions| - 1];
      result := Value(None);
    } else {
      var index := IndexOf(displays, answer.value);
      assert index.Some? ==> answer.value == actions[index.value];
      result := Value(if index.Some? then Some(choices[index.value].value) else None);
    }
  }

  // ----- Asking until the value is valid -----

  /**
    coerceAndValidateFormValues on the one field: a missing value is refused exactly when the field
    is required; the value must be one of the choices and pass the remaining checks (`passes`: the
    length limits and the schema validator).
  */
  predicate Accepted(choices: seq<Choice>, required: bool, passes: Option<string> -> bool, value: Option<string>) {
    && passes(value)
    && (if value.None? then !required else exists i :: 0 <= i < |choices| && choices[i].value == value.value)
  }

  lemma AcceptedExactly(choices: seq<Choice>, required: bool, passes: Option<string> -> bool, v: string)
    ensures Accepted(choices, required, passes, None) <==> !required && passes(None)
    ensures Accepted(choices, required, passes, Some(v)) <==>
      passes(Some(v)) && exists choice :: choice in choices && choice.value == v
  {
    if choice :| choice in choices && choice.value == v {
      var i :| 0 <= i < |choices| && choices[i] == choice;
    }
  }

  /** The answer ends the dialogue: it cancels, or what it collects is accepted. */
  predicate Settles(
      choices: seq<Choice>, default: Option<string>, required: bool,
      passes: Option<string> -> bool, answer: Option<string>)
  {
    var result := EnumResult(choices, default, required, answer);
    result.Cancelled? || Accepted(choices, required, passes, result.value)
  }

  method IsChoice(choices: seq<Choice>, value: string) returns (found: bool)
    ensures found <==> exists i :: 0 <= i < |choices| && choices[i].value == value
  {
    found := false;
    for i := 0 to |choices|
      invariant found <==> exists j :: 0 <= j < i && choices[j].value == value
    {
      found := found || choices[i].value == value;
    }
  }

  /**
    collectValidField for an enum field, on any answers: it takes the first one that cancels or
    collects an accepted value, so a required field ends cancelled, still open, or with a value of
    one of its choices, and an optional one may also be left out.
  */
  method CollectValidEnum(
    choices: seq<Choice>, default: Option<string>, required: bool, passes: Option<string> -> bool,
    answers: seq<Option<string>>)
    returns (result: Option<Collected<string>>, read: nat)
    ensures read <= |answers|
    ensures forall k | 0 <= k < (if result.None? then read else read - 1) ::
      !Settles(choices, default, required, passes, answers[k])
    ensures result.None? ==> read == |answers|
    ensures result.Some? ==> read > 0 && Settles(choices, default, required, passes, answers[read - 1])
    ensures result.Some? ==> result.value == EnumResult(choices, default, required, answers[read - 1])
    ensures result.Some? && result.value.Value? && required ==>
      exists i :: 0 <= i < |choices| && result.value.value == Some(choices[i].value)
  {
    result, read := None, 0;
    while read < |answers|
      invariant read <= |answers| && result.None?
      invariant forall k :: 0 <= k < read ==> !Settles(choices, default, required, passes, answers[k])
    {
      var _, collected := CollectEnum(choices, default, required, answers[read]);
      read := read + 1;
      if collected.Cancelled? {
        return Some(collected), read;
      }
      var valid := passes(collected.value);
      if collected.value.None? {
        valid := valid && !required;
      } else {
        var found := IsChoice(choices, collected.value.value);
        valid := valid && found;
      }
      if valid {
        return Some(collected), read;
      }
    }
  }

  // ----- The multi-select menu -----

  /** A JavaScript Set of strings in insertion order. */
  function Toggle(selected: seq<string>, value: string): seq<string> {
    if value in selected then Without(selected, value) else selected + [value]
  }

  function Without(selected: seq<string>, value: string): seq<string> {
    if selected == [] then []
    else
      var rest := Without(selected[1..], value);
      if selected[0] == value then rest else [selected[0]] + rest
  }

  lemma {:induction false} WithoutMembers(selected: seq<string>, value: string, v: string)
    ensures v in Without(selected, value) <==> v in selected && v != value
  {
    if selected != [] {
      WithoutMembers(selected[1..], value, v);
    }
  }

  lemma {:induction false} WithoutIsDistinct(selected: seq<string>, value: string)
    requires Distinct(selected)
    ensures Distinct(Without(selected, value))
  {
    if selected != [] {
      WithoutIsDistinct(selected[1..], value);
      WithoutMembers(selected[1..], value, selected[0]);
    }
  }

  /** new Set(values) */
  function InsertAll(values: seq<string>): seq<string> {
    if values == [] then []
    else
      var earlier, last := InsertAll(values[..|values| - 1]), values[|values| - 1];
      if last in earlier then earlier else earlier + [last]
  }

  lemma {:induction false} InsertAllIsTheSet(values: seq<string>)
    ensures Distinct(InsertAll(values)) && forall v :: v in InsertAll(values) <==> v in values
  {
    if values != [] {
      InsertAllIsTheSet(values[..|values| - 1]);
      assert values == values[..|values| - 1] + [values[|values| - 1]];
    }
  }

  /** What a user can mean by an answer. */
  datatype Pick = Choose(index: nat) | Done | Dismiss | Unlisted(text: string)

  function MarkedDisplays(choices: seq<Choice>, selected: seq<string>): (labels: seq<string>)
    ensures |labels| == |choices|
  {
    seq(|choices|, i requires 0 <= i < |choices| =>
      if choices[i].value in selected then CHECK + choices[i].display else choices[i].display)
  }

  function Offered(choices: seq<Choice>, selected: seq<string>): (actions: seq<string>)
    ensures |actions| == |choices| + 1
  {
    var displays := Labelled(MarkedDisplays(choices, selected));
    displays + [Free("Done", set d | d in displays)]
  }

  /** The answer, given to the menu shown for this selection, means this pick. */
  predicate Means(choices: seq<Choice>, selected: seq<string>, answer: Option<string>, pick: Pick) {
    match pick
    case Choose(i) => i < |choices| && answer == Some(Offered(choices, selected)[i])
    case Done => answer == Some(Offered(choices, selected)[|choices|])
    case Dismiss => answer == None
    case Unlisted(text) => answer == Some(text) && text !in Offered(choices, selected)
  }

  /** What the multi-select menu shows: each choice's display, marked when it is selected, and Done. */
  lemma OfferedShowTheChoices(choices: seq<Choice>, selected: seq<string>, i: nat)
    requires i <= |choices|
    ensures Shows(Offered(choices, selected)[i],
      if i == |choices| then "Done"
      else if choices[i].value in selected then CHECK + choices[i].display else choices[i].display)
  {
    var names := MarkedDisplays(choices, selected);
    var displays := Labelled(names);
    if i < |choices| {
      DisplaysShowTheirLabels(names, i);
    } else {
      var k := FreeIsShortest("Done", set d | d in displays);
    }
  }

  lemma OfferedAreDistinct(choices: seq<Choice>, selected: seq<string>)
    ensures Distinct(Offered(choices, selected))
  {
    var displays := Labelled(MarkedDisplays(choices, selected));
    LabelsAreDistinct(MarkedDisplays(choices, selected));
    var used := set d | d in displays;
    assert forall d :: d in displays ==> d in used;
  }

  /** Every answer means something, and only one thing. */
  lemma EveryAnswerMeansOnePick(
      choices: seq<Choice>, selected: seq<string>, answer: Option<string>) returns (pick: Pick)
    ensures forall other :: Means(choices, selected, answer, other) <==> other == pick
  {
    OfferedAreDistinct(choices, selected);
    var actions := Offered(choices, selected);
    if answer.None? {
      pick := Dismiss;
    } else if answer.value in actions {
      var i: nat :| i < |actions| && actions[i] == answer.value;
      pick := if i < |choices| then Choose(i) else Done;
    } else {
      pick := Unlisted(answer.value);
    }
  }

  /** Start with every pick toggled. */
  function Toggled(choices: seq<Choice>, start: seq<string>, picks: seq<Pick>): seq<string> {
    if picks == [] then start
    else
      AfterTurn(choices, Toggled(choices, start, picks[..|picks| - 1]), picks[|picks| - 1])
  }

  function TimesPicked(choices: seq<Choice>, picks: seq<Pick>, value: string): nat {
    if picks == [] then 0
    else
      var last := picks[|picks| - 1];
      TimesPicked(choices, picks[..|picks| - 1], value)
      + (if last.Choose? && last.index < |choices| && choices[last.index].value == value then 1 else 0)
  }

  lemma ToggleFlipsOne(selected: seq<string>, toggled: string, value: string)
    ensures value in Toggle(selected, toggled) <==> (value in selected) != (value == toggled)
    ensures Distinct(selected) ==> Distinct(Toggle(selected, toggled))
  {
    WithoutMembers(selected, toggled, value);
    if Distinct(selected) {
      WithoutIsDistinct(selected, toggled);
    }
  }

  /**
    A value ends up selected when it began selected and was picked evenly often, or began
    unselected and was picked oddly often.
  */
  lemma {:induction false} SelectedByParity(choices: seq<Choice>, start: seq<string>, picks: seq<Pick>, value: string)
    ensures value in Toggled(choices, start, picks)
      <==> (value in start) == (TimesPicked(choices, picks, value) % 2 == 0)
    ensures Distinct(start) ==> Distinct(Toggled(choices, start, picks))
  {
    if picks != [] {
      var last := picks[|picks| - 1];
      SelectedByParity(choices, start, picks[..|picks| - 1], value);
      if last.Choose? && last.index < |choices| {
        ToggleFlipsOne(Toggled(choices, start, picks[..|picks| - 1]), choices[last.index].value, value);
      }
    }
  }

  /** The answers, given one after the other, mean these picks. */
  predicate Dialogue(choices: seq<Choice>, start: seq<string>, answers: seq<Option<string>>, picks: seq<Pick>) {
    && |answers| == |picks|
    && (picks == [] ||
        var n := |picks| - 1;
        && Dialogue(choices, start, answers[..n], picks[..n])
        && Means(choices, Toggled(choices, start, picks[..n]), answers[n], picks[n]))
  }

  /** A list of answers can be read in one way only. */
  lemma {:induction false} DialogueIsUnique(choices: seq<Choice>, start: seq<string>, answers: seq<Option<string>>,
                                            picks: seq<Pick>, picks': seq<Pick>)
    requires Dialogue(choices, start, answers, picks) && Dialogue(choices, start, answers, picks')
    ensures picks == picks'
  {
    if answers != [] {
      var n := |answers| - 1;
      DialogueIsUnique(choices, start, answers[..n], picks[..n], picks'[..n]);
      MeaningIsUnique(choices, Toggled(choices, start, picks[..n]), answers[n], picks[n], picks'[n]);
      assert picks == picks[..n] + [picks[n]] && picks' == picks'[..n] + [picks'[n]];
    }
  }

  lemma MeaningIsUnique(choices: seq<Choice>, selected: seq<string>, answer: Option<string>, pick: Pick, pick': Pick)
    requires Means(choices, selected, answer, pick) && Means(choices, selected, answer, pick')
    ensures pick == pick'
  {
    var only := EveryAnswerMeansOnePick(choices, selected, answer);
  }

  predicate Ends(pick: Pick) {
    pick.Done? || pick.Dismiss?
  }

  /** What is collected once the picks have been made; None while the menu is still open. */
  function Outcome(choices: seq<Choice>, start: seq<string>, picks: seq<Pick>): Option<Collected<seq<string>>> {
    if picks == [] || !Ends(picks[|picks| - 1]) then None
    else if picks[|picks| - 1].Dismiss? then Some(Cancelled)
    else Some(Value(Some(Toggled(choices, start, picks))))
  }

  class MultiSelect {
    const choices: seq<Choice>
    var selected: seq<string>

    constructor (choices: seq<Choice>, current: seq<string>)
      ensures this.choices == choices && selected == InsertAll(current)
    {
      this.choices, selected := choices, InsertAll(current);
    }

    /** One turn of the menu loop: a choice toggles its value, Done and a dismissal end it, anything else asks again. */
    method Turn(picked: Option<string>) returns (result: Option<Collected<seq<string>>>, ghost pick: Pick)
      modifies this
      ensures Means(choices, old(selected), picked, pick)
      ensures selected == AfterTurn(choices, old(selected), pick)
      ensures result == ResultOf(old(selected), pick)
    {
      pick := EveryAnswerMeansOnePick(choices, selected, picked);
      OfferedAreDistinct(choices, selected);
      var displays := UniqueLabels(MarkedDisplays(choices, selected));
      var done := UniqueAction("Done", displays);
      assert Offered(choices, selected) == displays + [done];
      if picked.None? {
        return Some(Cancelled), pick;
      } else if picked.value == done {
        assert Means(choices, selected, picked, Done);
        return Some(Value(Some(selected))), pick;
      }
      var index := IndexOf(displays, picked.value);
      if index.None? {
        assert Means(choices, selected, picked, Unlisted(picked.value));
        return None, pick;
      }
      assert Means(choices, selected, picked, Choose(index.value));
      selected := Toggle(selected, choices[index.value].value);
      return None, pick;
    }
  }

  /**
    The multi-select loop of collectField on any answers: read as picks, of which only the last
    may end the menu, they leave the start set with every pick toggled, and Done returns it.
  */
  method CollectMultiSelect(choices: seq<Choice>, current: seq<string>, answers: seq<Option<string>>)
    returns (result: Option<Collected<seq<string>>>, read: nat, ghost picks: seq<Pick>)
    ensures read <= |answers| && Dialogue(choices, InsertAll(current), answers[..read], picks)
    ensures forall k :: 0 <= k < read - 1 ==> !Ends(picks[k])
    ensures result == Outcome(choices, InsertAll(current), picks)
    ensures result.None? ==> read == |answers|
  {
    var menu := new MultiSelect(choices, current);
    ghost var start, heard := InsertAll(current), [];
    result, read, picks := None, 0, [];
    while read < |answers| && result.None?
      invariant read <= |answers| && menu.choices == choices
      invariant heard == answers[..read]
      invariant Session(choices, start, heard, picks, menu.selected, result)
    {
      ghost var pick, before := Done, menu.selected;
      result, pick := menu.Turn(answers[read]);
      SessionGrows(choices, start, heard, picks, before, answers[read], pick, menu.selected, result);
      heard, picks, read := heard + [answers[read]], picks + [pick], read + 1;
    }
  }

  /** The answers heard so far have left this selection and this result. */
  ghost predicate Session(choices: seq<Choice>, start: seq<string>, heard: seq<Option<string>>, picks: seq<Pick>,
                          selected: seq<string>, result: Option<Collected<seq<string>>>) {
    && Dialogue(choices, start, heard, picks)
    && selected == Toggled(choices, start, picks)
    && result == Outcome(choices, start, picks)
    && forall k :: 0 <= k < |picks| - 1 ==> !Ends(picks[k])
  }

  function AfterTurn(choices: seq<Choice>, selected: seq<string>, pick: Pick): seq<string> {
    if pick.Choose? && pick.index < |choices| then Toggle(selected, choices[pick.index].value) else selected
  }

  function ResultOf(selected: seq<string>, pick: Pick): Option<Collected<seq<string>>> {
    match pick
    case Done => Some(Value(Some(selected)))
    case Dismiss => Some(Cancelled)
    case _ => None
  }

  lemma SessionGrows(choices: seq<Choice>, start: seq<string>, heard: seq<Option<string>>, picks: seq<Pick>,
                     selected: seq<string>, answer: Option<string>, pick: Pick,
                     selected': seq<string>, result: Option<Collected<seq<string>>>)
    requires Session(choices, start, heard, picks, selected, None)
    requires Means(choices, selected, answer, pick)
    requires selected' == AfterTurn(choices, selected, pick) && result == ResultOf(selected, pick)
    ensures Session(choices, start, heard + [answer], picks + [pick], selected', result)
  {
    DialogueGrows(choices, start, heard, picks, answer, pick);
    TurnExtends(choices, start, picks, pick);
  }

  lemma TurnExtends(choices: seq<Choice>, start: seq<string>, picks: seq<Pick>, pick: Pick)
    ensures Toggled(choices, start, picks + [pick]) == AfterTurn(choices, Toggled(choices, start, picks), pick)
  {
    assert (picks + [pick])[..|picks|] == picks;
  }

  lemma DialogueGrows(choices: seq<Choice>, start: seq<string>, answers: seq<Option<string>>, picks: seq<Pick>,
                      answer: Option<string>, pick: Pick)
    requires Dialogue(choices, start, answers, picks) && Means(choices, Toggled(choices, start, picks), answer, pick)
    ensures Dialogue(choices, start, answers + [answer], picks + [pick])
  {
    assert (picks + [pick])[..|picks|] == picks && (answers + [answer])[..|answers|] == answers;
  }
}
