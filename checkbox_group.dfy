/** The checkbox group's change handler: clicking an option removes its
    value from the selection when it is there, and appends it otherwise. */
module CheckboxGroup {

  /** `value.filter(v => v !== optionValue)` */
  function Without(value: seq<string>, optionValue: string): (r: seq<string>)
    ensures |r| <= |value|
  {
    if value == [] then []
    else (if value[0] == optionValue then [] else [value[0]]) + Without(value[1..], optionValue)
  }

  /** `handleChange(optionValue)`: the new selection passed to `onChange`. */
  function Toggle(value: seq<string>, optionValue: string): seq<string>
  {
    if optionValue in value then Without(value, optionValue) else value + [optionValue]
  }

  /** Removal distributes over concatenation: the kept elements stay in
      their original order. */
  lemma {:induction false} WithoutAppend(a: seq<string>, b: seq<string>, v: string)
    ensures Without(a + b, v) == Without(a, v) + Without(b, v)
  {
    if a == [] {
      assert a + b == b;
    } else {
      assert (a + b)[1..] == a[1..] + b;
      WithoutAppend(a[1..], b, v);
    }
  }

  /** Every occurrence of `v` goes, and every other element keeps its
      number of occurrences. */
  lemma {:induction false} WithoutCounts(value: seq<string>, v: string)
    ensures multiset(Without(value, v))[v] == 0
    ensures forall x :: x != v ==> multiset(Without(value, v))[x] == multiset(value)[x]
  {
    if value != [] {
      WithoutCounts(value[1..], v);
      assert value == [value[0]] + value[1..];
    }
  }

  /** Removing a value that is absent changes nothing. */
  lemma {:induction false} WithoutAbsent(value: seq<string>, v: string)
    requires v !in value
    ensures Without(value, v) == value
  {
    if value != [] {
      assert v !in value[1..] by { assert forall x :: x in value[1..] ==> x in value; }
      WithoutAbsent(value[1..], v);
      assert value == [value[0]] + value[1..];
    }
  }

  /** An option that is not selected is appended at the end. */
  lemma ToggleAbsent(value: seq<string>, v: string)
    requires v !in value
    ensures Toggle(value, v) == value + [v]
    ensures |Toggle(value, v)| == |value| + 1
  {
  }

  /** A selected option is removed everywhere it occurs; the other values
      stay, in their order. */
  lemma TogglePresent(value: seq<string>, v: string)
    requires v in value
    ensures Toggle(value, v) == Without(value, v)
    ensures v !in Toggle(value, v)
    ensures forall x :: x != v ==> multiset(Toggle(value, v))[x] == multiset(value)[x]
  {
    WithoutCounts(value, v);
  }

  /** After the click the option is selected exactly when it was not. */
  lemma ToggleFlipsMembership(value: seq<string>, v: string)
    ensures v in Toggle(value, v) <==> v !in value
  {
    if v in value {
      TogglePresent(value, v);
    }
  }

  /** Values other than the clicked option keep their multiplicities. */
  lemma ToggleKeepsOthers(value: seq<string>, v: string)
    ensures forall x :: x != v ==> multiset(Toggle(value, v))[x] == multiset(value)[x]
  {
    if v in value {
      TogglePresent(value, v);
    }
  }

  /** Clicking an unselected option twice restores the selection. */
  lemma ToggleTwiceFromAbsent(value: seq<string>, v: string)
    requires v !in value
    ensures Toggle(Toggle(value, v), v) == value
  {
    ToggleAbsent(value, v);
    WithoutAppend(value, [v], v);
    WithoutAbsent(value, v);
    assert Without([v], v) == [] by { assert [v][1..] == []; }
  }

  /** Starting from a selected option, two clicks remove every copy of it
      and put one copy back at the end. */
  lemma ToggleTwiceFromPresent(value: seq<string>, v: string)
    requires v in value
    ensures Toggle(Toggle(value, v), v) == Without(value, v) + [v]
  {
    TogglePresent(value, v);
    ToggleAbsent(Toggle(value, v), v);
  }
}
