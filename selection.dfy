/** The multi-select toggle the campaign and report forms use for their KPI
    and metric checkboxes: a value already chosen is filtered out, any other
    value is appended at the end. */
module Selection {

  /** `s.filter(y => y !== x)`: every occurrence of `x` removed, the other
      values kept in their order. */
  function Without<T(==)>(s: seq<T>, x: T): (r: seq<T>)
    ensures x !in r
    ensures multiset(r) == multiset(s)[x := 0]
    ensures x !in s ==> r == s
  {
    if s == [] then []
    else
      assert s == [s[0]] + s[1..];
      (if s[0] == x then [] else [s[0]]) + Without(s[1..], x)
  }

  /** Removing a value distributes over concatenation, so the values that
      stay keep their relative order. */
  lemma {:induction false} WithoutConcat<T>(a: seq<T>, b: seq<T>, x: T)
    ensures Without(a + b, x) == Without(a, x) + Without(b, x)
  {
    if a == [] {
      assert a + b == b;
    } else {
      assert (a + b)[1..] == a[1..] + b;
      WithoutConcat(a[1..], b, x);
    }
  }

  /** The checkbox handler's update: remove `x` if chosen, append it otherwise. */
  function Toggle<T(==)>(s: seq<T>, x: T): (r: seq<T>)
    ensures x in r <==> x !in s
    ensures x in s ==> multiset(r) == multiset(s)[x := 0]
    ensures x !in s ==> multiset(r) == multiset(s) + multiset{x}
    ensures x !in s ==> |r| == |s| + 1 && r[..|s|] == s && r[|s|] == x
  {
    if x in s then Without(s, x) else s + [x]
  }

  /** No value is chosen twice. */
  predicate Distinct<T(==)>(s: seq<T>)
  {
    forall i, j :: 0 <= i < j < |s| ==> s[i] != s[j]
  }

  lemma {:induction false} WithoutKeepsDistinct<T>(s: seq<T>, x: T)
    requires Distinct(s)
    ensures Distinct(Without(s, x))
  {
    if s != [] {
      WithoutKeepsDistinct(s[1..], x);
      var rest := Without(s[1..], x);
      if s[0] != x {
        assert s[0] !in s[1..];
        assert multiset(rest)[s[0]] == 0;
        assert s[0] !in rest;
      }
    }
  }

  /** Toggling never creates a duplicate. */
  lemma ToggleKeepsDistinct<T>(s: seq<T>, x: T)
    requires Distinct(s)
    ensures Distinct(Toggle(s, x))
  {
    if x in s {
      WithoutKeepsDistinct(s, x);
    }
  }

  /** Toggling a value from a list of allowed values keeps every chosen
      value allowed. */
  lemma ToggleWithin<T>(s: seq<T>, x: T, allowed: seq<T>)
    requires forall y :: y in s ==> y in allowed
    requires x in allowed
    ensures forall y :: y in Toggle(s, x) ==> y in allowed
  {
    forall y | y in Toggle(s, x) ensures y in allowed {
      assert multiset(Toggle(s, x))[y] > 0;
    }
  }

  /** Toggling a value that was not chosen twice restores the list exactly. */
  lemma ToggleTwiceAbsent<T>(s: seq<T>, x: T)
    requires x !in s
    ensures Toggle(Toggle(s, x), x) == s
  {
    WithoutConcat(s, [x], x);
    assert Without([x], x) == [];
    assert s + [] == s;
  }

  /** Toggling a chosen value twice removes it and appends it at the end. */
  lemma ToggleTwicePresent<T>(s: seq<T>, x: T)
    requires x in s
    ensures Toggle(Toggle(s, x), x) == Without(s, x) + [x]
  {
  }

  /** A value in a list without repeats occurs in it exactly once. */
  lemma DistinctOnce<T>(s: seq<T>, x: T)
    requires Distinct(s) && x in s
    ensures multiset(s)[x] == 1
  {
    var i :| 0 <= i < |s| && s[i] == x;
    var before := s[..i];
    assert x !in before by {
      forall j | 0 <= j < |before| ensures before[j] != x {
        assert s[j] != s[i];
      }
    }
    var after := s[i + 1..];
    assert x !in after by {
      forall j | 0 <= j < |after| ensures after[j] != x {
        assert s[i] != s[i + 1 + j];
      }
    }
    assert s == before + [x] + after;
  }

  /** So a double toggle of a chosen value that is not already last does not
      restore the list, although it restores the set of chosen values. */
  lemma ToggleTwiceMovesToEnd<T>(s: seq<T>, x: T)
    requires Distinct(s) && x in s && s[|s| - 1] != x
    ensures Toggle(Toggle(s, x), x) != s
    ensures multiset(Toggle(Toggle(s, x), x)) == multiset(s)
  {
    var w := Without(s, x);
    var r := Toggle(Toggle(s, x), x);
    ToggleTwicePresent(s, x);
    assert r == w + [x];
    assert r[|r| - 1] == x;
    DistinctOnce(s, x);
    assert multiset(r) == multiset(w) + multiset{x};
    assert multiset(w) == multiset(s)[x := 0];
  }

  /** A list of choices with no repeats, drawn from the offered values. */
  predicate ValidChoice<T(==)>(s: seq<T>, allowed: seq<T>)
  {
    Distinct(s) && forall y :: y in s ==> y in allowed
  }

  /** The choices after a run of checkbox clicks, applied in order. */
  function ToggleAll<T(==)>(s: seq<T>, clicks: seq<T>): seq<T>
    decreases |clicks|
  {
    if clicks == [] then s else ToggleAll(Toggle(s, clicks[0]), clicks[1..])
  }

  /** Any run of clicks on offered values keeps the choices valid. */
  lemma {:induction false} ToggleAllKeepsValid<T>(s: seq<T>, clicks: seq<T>, allowed: seq<T>)
    requires ValidChoice(s, allowed)
    requires forall c :: c in clicks ==> c in allowed
    ensures ValidChoice(ToggleAll(s, clicks), allowed)
    decreases |clicks|
  {
    if clicks != [] {
      ToggleKeepsDistinct(s, clicks[0]);
      ToggleWithin(s, clicks[0], allowed);
      ToggleAllKeepsValid(Toggle(s, clicks[0]), clicks[1..], allowed);
    }
  }

}
