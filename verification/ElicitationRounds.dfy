/**
  A multi-select field asked until its value is valid (adapter/elicitation-handler.ts,
  collectValidField around the array branch of collectField): a rejected selection is where the
  next round starts.
*/
module ElicitationRounds {
  import opened Common
  import opened ElicitationMenus

  const USE_DEFAULT := "Use default"
  const OMIT := "Omit"

  /** A completed round: what the user entered it with, answered and meant, and the value collected. */
  datatype Round = Round(
    current: seq<string>,
    first: string,
    heard: seq<Option<string>>,
    picks: seq<Pick>,
    value: Option<seq<string>>)

  /** The round chose values in the menu, instead of taking the default or omitting the field. */
  predicate Chose(r: Round) {
    r.first != USE_DEFAULT && r.first != OMIT
  }

  /** The round is one that the array branch can go through. */
  ghost predicate IsRound(choices: seq<Choice>, default: Option<seq<string>>, r: Round) {
    if !Chose(r) then r.heard == [] && r.picks == [] && r.value == if r.first == OMIT then None else default
    else
      && Dialogue(choices, InsertAll(r.current), r.heard, r.picks)
      && r.value.Some?
      && Outcome(choices, InsertAll(r.current), r.picks) == Some(Value(r.value))
      && forall k :: 0 <= k < |r.picks| - 1 ==> !Ends(r.picks[k])
  }

  /** What the next round starts with when this value was rejected. */
  function Carried(value: Option<seq<string>>): seq<string> {
    if value.Some? then value.value else []
  }

  function NextStart(current: seq<string>, rounds: seq<Round>): seq<string> {
    if rounds == [] then current else Carried(rounds[|rounds| - 1].value)
  }

  /** Rounds of the array branch, the first from what the field held, every other from what the one before left. */
  ghost predicate AllRounds(
    choices: seq<Choice>, default: Option<seq<string>>, current: seq<string>, rounds: seq<Round>)
  {
    rounds == [] ||
      (var front, last := rounds[..|rounds| - 1], rounds[|rounds| - 1];
       && AllRounds(choices, default, current, front)
       && IsRound(choices, default, last) && last.current == NextStart(current, front))
  }

  /** The answers of the rounds, in order. */
  function Answers(rounds: seq<Round>): seq<Option<string>> {
    if rounds == [] then []
    else
      var last := rounds[|rounds| - 1];
      Answers(rounds[..|rounds| - 1]) + [Some(last.first)] + last.heard
  }

  /**
    coerceAndValidateFormValues on the one field: a missing value is refused exactly when the field
    is required; every value of a list must be a choice's, and it must pass the remaining checks
    (`passes`: the numbers of items and the schema validator).
  */
  predicate AcceptedList(
    choices: seq<Choice>, required: bool, passes: Option<seq<string>> -> bool, value: Option<seq<string>>)
  {
    && passes(value)
    && (if value.None? then !required else forall v | v in value.value :: IsValue(choices, v))
  }

  predicate IsValue(choices: seq<Choice>, value: string) {
    exists i :: 0 <= i < |choices| && choices[i].value == value
  }

  lemma AcceptedListExactly(
    choices: seq<Choice>, required: bool, passes: Option<seq<string>> -> bool, values: seq<string>)
    ensures AcceptedList(choices, required, passes, None) <==> !required && passes(None)
    ensures AcceptedList(choices, required, passes, Some(values)) <==>
      passes(Some(values)) && forall v | v in values :: exists choice :: choice in choices && choice.value == v
  {
    forall v | v in values ensures IsValue(choices, v) <==> exists choice :: choice in choices && choice.value == v {
      if choice :| choice in choices && choice.value == v {
        var i :| 0 <= i < |choices| && choices[i] == choice;
      }
    }
  }

  predicate AllRejected(
    choices: seq<Choice>, required: bool, passes: Option<seq<string>> -> bool, rounds: seq<Round>)
  {
    rounds == [] ||
      (AllRejected(choices, required, passes, rounds[..|rounds| - 1])
       && !AcceptedList(choices, required, passes, rounds[|rounds| - 1].value))
  }

  method AllChoices(choices: seq<Choice>, values: seq<string>) returns (all: bool)
    ensures all <==> forall v | v in values :: IsValue(choices, v)
  {
    all := true;
    for i := 0 to |values|
      invariant all <==> forall v | v in values[..i] :: IsValue(choices, v)
    {
      var found := IsChoice(choices, values[i]);
      assert forall v :: v in values[..i + 1] <==> v in values[..i] || v == values[i];
      assert found <==> IsValue(choices, values[i]);
      all := all && found;
    }
    assert values[..|values|] == values;
  }

  /** collectField's array branch on the answers from one on: a round, a cancellation, or neither yet. */
  method CollectArray(
      choices: seq<Choice>, default: Option<seq<string>>, current: seq<string>, answers: seq<Option<string>>)
    returns (result: Option<Collected<seq<string>>>, read: nat, ghost round: Round)
    requires answers != []
    ensures 0 < read <= |answers|
    ensures result.None? ==> read == |answers|
    ensures result.Some? && result.value.Value? ==>
      && IsRound(choices, default, round) && round.current == current && round.value == result.value.value
      && answers[..read] == [Some(round.first)] + round.heard
  {
    read, round := 1, Round(current, "", [], [], None);
    if answers[0].None? {
      return Some(Cancelled), read, round;
    }
    var first := answers[0].value;
    if first == USE_DEFAULT || first == OMIT {
      var value := if first == OMIT then None else default;
      round := Round(current, first, [], [], value);
      assert answers[..1] == [Some(first)] + [];
      return Some(Value(value)), read, round;
    }
    var used: nat;
    ghost var picks: seq<Pick>;
    result, used, picks := CollectMultiSelect(choices, current, answers[1..]);
    read := 1 + used;
    if result.Some? && result.value.Value? {
      round := Round(current, first, answers[1..][..used], picks, result.value.value);
      assert answers[..read] == [Some(first)] + answers[1..][..used];
    }
  }

  /**
    collectValidField for a multi-select field, on any answers: it takes the value of the first
    round that is accepted, and each rejected round hands its selection on to the next.
  */
  method CollectValidMultiSelect(
    choices: seq<Choice>, default: Option<seq<string>>, required: bool, passes: Option<seq<string>> -> bool,
    current: seq<string>, answers: seq<Option<string>>)
    returns (result: Option<Collected<seq<string>>>, read: nat, ghost rounds: seq<Round>)
    ensures read <= |answers| && Answers(rounds) <= answers[..read]
    ensures AllRounds(choices, default, current, rounds)
    ensures result.None? ==> read == |answers|
    ensures result.None? || result.value.Cancelled? ==> AllRejected(choices, required, passes, rounds)
    ensures result.Some? && result.value.Value? ==>
      && Answers(rounds) == answers[..read] && rounds != []
      && AllRejected(choices, required, passes, rounds[..|rounds| - 1])
      && result.value.value == rounds[|rounds| - 1].value
      && AcceptedList(choices, required, passes, result.value.value)
  {
    result, read, rounds := None, 0, [];
    var start := current;
    while read < |answers|
      invariant read <= |answers| && result.None?
      invariant AllRounds(choices, default, current, rounds) && AllRejected(choices, required, passes, rounds)
      invariant Answers(rounds) == answers[..read] && start == NextStart(current, rounds)
    {
      ghost var round;
      var used;
      ghost var heard := read;
      result, used, round := CollectArray(choices, default, start, answers[read..]);
      read := read + used;
      SliceOn(answers, heard, used);
      if result.None? || result.value.Cancelled? {
        return;
      }
      RoundAdded(choices, default, required, passes, current, rounds, round);
      rounds := rounds + [round];
      var valid := IsAccepted(choices, required, passes, result.value.value);
      if valid {
        return;
      }
      start, result := Carried(result.value.value), None;
    }
  }

  method IsAccepted(
      choices: seq<Choice>, required: bool, passes: Option<seq<string>> -> bool, value: Option<seq<string>>)
    returns (valid: bool)
    ensures valid <==> AcceptedList(choices, required, passes, value)
  {
    valid := passes(value);
    if value.None? {
      valid := valid && !required;
    } else {
      var all := AllChoices(choices, value.value);
      valid := valid && all;
    }
  }

  lemma SliceOn<T>(s: seq<T>, from: nat, used: nat)
    requires from + used <= |s|
    ensures s[..from] + s[from..][..used] == s[..from + used]
    ensures s[..from] <= s[..from + used]
  {
  }

  lemma RoundAdded(
    choices: seq<Choice>, default: Option<seq<string>>, required: bool, passes: Option<seq<string>> -> bool,
    current: seq<string>, rounds: seq<Round>, r: Round)
    requires AllRounds(choices, default, current, rounds) && AllRejected(choices, required, passes, rounds)
    requires IsRound(choices, default, r) && r.current == NextStart(current, rounds)
    ensures (rounds + [r])[..|rounds|] == rounds && AllRounds(choices, default, current, rounds + [r])
    ensures AllRejected(choices, required, passes, rounds + [r]) <==> !AcceptedList(choices, required, passes, r.value)
    ensures Answers(rounds + [r]) == Answers(rounds) + ([Some(r.first)] + r.heard)
    ensures NextStart(current, rounds + [r]) == Carried(r.value)
  {
    assert (rounds + [r])[..|rounds|] == rounds;
  }

  // ----- The selection over all rounds -----

  function AllPicks(rounds: seq<Round>): seq<Pick> {
    if rounds == [] then [] else AllPicks(rounds[..|rounds| - 1]) + rounds[|rounds| - 1].picks
  }

  lemma {:induction false} ToggledAppend(choices: seq<Choice>, start: seq<string>, a: seq<Pick>, b: seq<Pick>)
    ensures Toggled(choices, start, a + b) == Toggled(choices, Toggled(choices, start, a), b)
  {
    if b == [] {
      assert a + b == a;
    } else {
      ToggledAppend(choices, start, a, b[..|b| - 1]);
      assert (a + b)[..|a + b| - 1] == a + b[..|b| - 1];
    }
  }

  lemma {:induction false} InsertDistinct(values: seq<string>)
    requires Distinct(values)
    ensures InsertAll(values) == values
  {
    if values != [] {
      var front, last := values[..|values| - 1], values[|values| - 1];
      InsertDistinct(front);
      assert last !in front;
      assert values == front + [last];
    }
  }

  lemma ToggledIsDistinct(choices: seq<Choice>, start: seq<string>, picks: seq<Pick>)
    requires Distinct(start)
    ensures Distinct(Toggled(choices, start, picks))
  {
    SelectedByParity(choices, start, picks, "");
  }

  /**
    However many rounds are rejected, as long as each one chooses values, what has been selected is
    the start set with every pick of every round toggled.
  */
  lemma {:induction false} SelectionCarriesOver(
    choices: seq<Choice>, default: Option<seq<string>>, current: seq<string>, rounds: seq<Round>)
    requires rounds != [] && AllRounds(choices, default, current, rounds)
    requires forall r | r in rounds :: Chose(r)
    ensures rounds[|rounds| - 1].value == Some(Toggled(choices, InsertAll(current), AllPicks(rounds)))
  {
    var front, last := rounds[..|rounds| - 1], rounds[|rounds| - 1];
    assert last in rounds;
    assert last.value == Some(Toggled(choices, InsertAll(last.current), last.picks));
    InsertAllIsTheSet(current);
    if front == [] {
      assert rounds[0] == last && last.current == current;
      assert AllPicks(rounds) == [] + last.picks == last.picks;
    } else {
      assert forall r | r in front :: r in rounds;
      SelectionCarriesOver(choices, default, current, front);
      var before := Toggled(choices, InsertAll(current), AllPicks(front));
      assert last.current == before;
      ToggledIsDistinct(choices, InsertAll(current), AllPicks(front));
      InsertDistinct(before);
      ToggledAppend(choices, InsertAll(current), AllPicks(front), last.picks);
    }
  }
}
