/** Campaign goals: the fixed checkbox list, toggling a checkbox, and the goal
    list that is sent with the brief. */
module Goals {

  /** The id of the free-text goal. */
  const Other: string := "other"

  /** The checkbox ids, in display order. */
  const GoalIds: seq<string> := ["increase-sales", "increase-downloads", "increase-views", Other]

  /** No value occurs twice. */
  predicate Distinct(xs: seq<string>) {
    forall i, j :: 0 <= i < j < |xs| ==> xs[i] != xs[j]
  }

  /** Every value is one of the checkbox ids. */
  predicate KnownGoals(xs: seq<string>) {
    forall x :: x in xs ==> x in GoalIds
  }

  /** A goal selection the checkboxes can produce. */
  predicate WellFormedSelection(xs: seq<string>) {
    Distinct(xs) && KnownGoals(xs)
  }

  /** `r` is `xs` with some elements dropped and the rest in their original order. */
  predicate SubsequenceOf(r: seq<string>, xs: seq<string>)
    decreases |xs|
  {
    if |r| == 0 then true
    else if |xs| == 0 then false
    else (r[0] == xs[0] && SubsequenceOf(r[1..], xs[1..])) || SubsequenceOf(r, xs[1..])
  }

  /** Number of occurrences of `g` in `xs`. */
  function Count(xs: seq<string>, g: string): nat {
    if |xs| == 0 then 0 else (if xs[0] == g then 1 else 0) + Count(xs[1..], g)
  }

  /** `xs` with every occurrence of `g` dropped, the rest kept in order
      (`filter(id => id !== g)`). */
  function RemoveAll(xs: seq<string>, g: string): (r: seq<string>)
    ensures g !in r
    ensures forall x :: x in r <==> x in xs && x != g
    ensures |r| + Count(xs, g) == |xs|
    ensures SubsequenceOf(r, xs)
    ensures g !in xs ==> r == xs
    ensures Distinct(xs) ==> Distinct(r)
  {
    if |xs| == 0 then []
    else if xs[0] == g then RemoveAll(xs[1..], g)
    else
      var rest := RemoveAll(xs[1..], g);
      assert Distinct(xs) ==> xs[0] !in xs[1..] && Distinct(xs[1..]);
      DistinctCons(xs[0], rest);
      assert ([xs[0]] + rest)[1..] == rest;
      [xs[0]] + rest
  }

  /** Prepending a fresh value to a duplicate-free list keeps it duplicate-free. */
  lemma DistinctCons(x: string, xs: seq<string>)
    ensures x !in xs && Distinct(xs) ==> Distinct([x] + xs)
  {
  }

  /** Ticking or unticking checkbox `g`: the checkbox is ticked exactly when
      `g` is in the list, so a tick appends `g` and an untick removes it. */
  function Toggle(selected: seq<string>, g: string): (r: seq<string>)
    ensures g in r <==> g !in selected
    ensures forall x :: x != g ==> (x in r <==> x in selected)
    ensures g !in selected ==> |r| == |selected| + 1 && r[..|selected|] == selected
    ensures g in selected ==> |r| == |selected| - Count(selected, g) && SubsequenceOf(r, selected)
    ensures WellFormedSelection(selected) && g in GoalIds ==> WellFormedSelection(r)
  {
    if g in selected then RemoveAll(selected, g) else selected + [g]
  }

  /** The campaign goals sent with the brief: when "other" is ticked, the
      ticked ids without "other" followed by the free-text goal; otherwise
      the ticked ids as they are. */
  function Assemble(selected: seq<string>, otherGoal: string): (r: seq<string>)
    ensures Other !in selected ==> r == selected
    ensures Other in selected ==>
      && |r| == |selected| - Count(selected, Other) + 1
      && |r| > 0
      && r[|r| - 1] == otherGoal
      && (forall x :: x in r[..|r| - 1] <==> x in selected && x != Other)
      && SubsequenceOf(r[..|r| - 1], selected)
    ensures |selected| > 0 ==> |r| > 0
  {
    if Other in selected then
      var kept := RemoveAll(selected, Other);
      assert (kept + [otherGoal])[..|kept|] == kept;
      kept + [otherGoal]
    else selected
  }

  /** Filtering distributes over concatenation; with the one-element case
      below this fixes the result of `RemoveAll` completely, order included. */
  lemma {:induction false} RemoveAllConcat(a: seq<string>, b: seq<string>, g: string)
    ensures RemoveAll(a + b, g) == RemoveAll(a, g) + RemoveAll(b, g)
    decreases |a|
  {
    if |a| == 0 {
      assert a + b == b;
    } else {
      assert (a + b)[1..] == a[1..] + b;
      RemoveAllConcat(a[1..], b, g);
    }
  }

  /** Filtering a single value keeps it exactly when it differs from `g`. */
  lemma RemoveAllSingle(x: string, g: string)
    ensures RemoveAll([x], g) == if x == g then [] else [x]
  {
  }

  /** Concretely: the order of the kept goals is the order they were ticked. */
  lemma AssembleKeepsTickOrder()
    ensures Assemble(["increase-views", Other, "increase-sales"], "awareness")
         == ["increase-views", "increase-sales", "awareness"]
  {
    RemoveAllConcat(["increase-views"], [Other, "increase-sales"], Other);
    RemoveAllConcat([Other], ["increase-sales"], Other);
  }

  /** Ticking an unticked goal and then unticking it restores the list. */
  lemma {:induction false} ToggleTwiceRestores(selected: seq<string>, g: string)
    requires g !in selected
    ensures Toggle(Toggle(selected, g), g) == selected
  {
    RemoveAppended(selected, g);
  }

  /** Removing a value that was only appended gives back the prefix. */
  lemma {:induction false} RemoveAppended(xs: seq<string>, g: string)
    requires g !in xs
    ensures RemoveAll(xs + [g], g) == xs
  {
    if |xs| == 0 {
      assert xs + [g] == [g];
    } else {
      assert (xs + [g])[1..] == xs[1..] + [g];
      RemoveAppended(xs[1..], g);
    }
  }

  /** With a well-formed selection, "other" occurs at most once, so the
      assembled list has exactly as many entries as there are ticked boxes. */
  lemma AssembleKeepsLength(selected: seq<string>, otherGoal: string)
    requires Distinct(selected)
    ensures |Assemble(selected, otherGoal)| == |selected|
  {
    if Other in selected {
      CountDistinct(selected, Other);
    }
  }

  /** A value occurs once in a duplicate-free list that contains it. */
  lemma {:induction false} CountDistinct(xs: seq<string>, g: string)
    requires Distinct(xs) && g in xs
    ensures Count(xs, g) == 1
  {
    if xs[0] == g {
      CountAbsent(xs[1..], g);
    } else {
      assert g in xs[1..];
      CountDistinct(xs[1..], g);
    }
  }

  /** A value that does not occur is counted zero times. */
  lemma {:induction false} CountAbsent(xs: seq<string>, g: string)
    requires g !in xs
    ensures Count(xs, g) == 0
  {
    if |xs| > 0 {
      CountAbsent(xs[1..], g);
    }
  }
}
