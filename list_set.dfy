/** The list-as-set operations the intake form applies to its lists of strings:
    `list.filter(y => y !== x)` removes every copy of `x`, and toggling
    removes `x` when `list.includes(x)` and appends it at the end otherwise. */
module ListSet {

  /** The set of elements of a list. */
  ghost function Elements(xs: seq<string>): set<string> {
    set y | y in xs
  }

  /** No element occurs twice. */
  ghost predicate NoDup(xs: seq<string>) {
    forall i, j :: 0 <= i < j < |xs| ==> xs[i] != xs[j]
  }

  /** `xs.filter(y => y !== x)`. */
  function Remove(xs: seq<string>, x: string): (r: seq<string>)
    ensures x !in r
    ensures forall y :: y != x ==> (y in r <==> y in xs)
    ensures |r| <= |xs|
    decreases |xs|
  {
    if |xs| == 0 then []
    else if xs[0] == x then Remove(xs[1..], x)
    else [xs[0]] + Remove(xs[1..], x)
  }

  /** `xs.includes(x) ? xs.filter(y => y !== x) : [...xs, x]`. */
  function Toggle(xs: seq<string>, x: string): (r: seq<string>)
    ensures x in r <==> x !in xs
    ensures forall y :: y != x ==> (y in r <==> y in xs)
  {
    if x in xs then Remove(xs, x) else xs + [x]
  }

  /** As sets, toggling is the symmetric difference with `{x}`. */
  lemma ToggleElements(xs: seq<string>, x: string)
    ensures Elements(Toggle(xs, x)) == if x in xs then Elements(xs) - {x} else Elements(xs) + {x}
  {
  }

  /** Filtering distributes over concatenation. */
  lemma {:induction false} RemoveConcat(xs: seq<string>, ys: seq<string>, x: string)
    ensures Remove(xs + ys, x) == Remove(xs, x) + Remove(ys, x)
    decreases |xs|
  {
    if |xs| == 0 {
      assert xs + ys == ys;
    } else {
      assert (xs + ys)[0] == xs[0];
      assert (xs + ys)[1..] == xs[1..] + ys;
      RemoveConcat(xs[1..], ys, x);
    }
  }

  /** Filtering out an absent element returns the list itself. */
  lemma {:induction false} RemoveAbsent(xs: seq<string>, x: string)
    requires x !in xs
    ensures Remove(xs, x) == xs
    decreases |xs|
  {
    if |xs| > 0 {
      assert xs[1..] + [] == xs[1..];
      assert x !in xs[1..];
      RemoveAbsent(xs[1..], x);
      assert [xs[0]] + xs[1..] == xs;
    }
  }

  /** Filtering keeps the list free of duplicates. */
  lemma {:induction false} RemoveNoDup(xs: seq<string>, x: string)
    requires NoDup(xs)
    ensures NoDup(Remove(xs, x))
    decreases |xs|
  {
    if |xs| > 0 {
      var tail := xs[1..];
      assert NoDup(tail) by {
        forall i, j | 0 <= i < j < |tail| ensures tail[i] != tail[j] {
          assert tail[i] == xs[i + 1] && tail[j] == xs[j + 1];
        }
      }
      RemoveNoDup(tail, x);
      if xs[0] != x {
        var r := Remove(tail, x);
        assert xs[0] !in tail by {
          forall j | 0 <= j < |tail| ensures tail[j] != xs[0] {
            assert tail[j] == xs[j + 1];
          }
        }
        assert xs[0] !in r;
        var out := [xs[0]] + r;
        forall i, j | 0 <= i < j < |out| ensures out[i] != out[j] {
          if i == 0 {
            assert out[j] == r[j - 1];
          } else {
            assert out[i] == r[i - 1] && out[j] == r[j - 1];
          }
        }
      }
    }
  }

  /** Toggling keeps the list free of duplicates: it appends only an absent
      element, and its filter removes every copy of a present one. */
  lemma ToggleNoDup(xs: seq<string>, x: string)
    requires NoDup(xs)
    ensures NoDup(Toggle(xs, x))
  {
    if x in xs {
      RemoveNoDup(xs, x);
    } else {
      var r := xs + [x];
      forall i, j | 0 <= i < j < |r| ensures r[i] != r[j] {
        if j == |xs| {
          assert r[i] == xs[i];
        }
      }
    }
  }

  /** Every element other than `x` keeps its presence, its multiplicity and
      its relative order: with `x` filtered out, the list before and after
      a toggle is the same list. */
  lemma ToggleKeepsOthersInOrder(xs: seq<string>, x: string)
    ensures Remove(Toggle(xs, x), x) == Remove(xs, x)
  {
    if x in xs {
      RemoveAbsent(Remove(xs, x), x);
    } else {
      RemoveConcat(xs, [x], x);
      assert Remove([x], x) == [];
    }
  }

  /** Toggling an absent element twice restores the list exactly. */
  lemma ToggleTwiceAbsent(xs: seq<string>, x: string)
    requires x !in xs
    ensures Toggle(Toggle(xs, x), x) == xs
  {
    RemoveConcat(xs, [x], x);
    RemoveAbsent(xs, x);
    assert Remove([x], x) == [];
  }

  /** Toggling a present element twice keeps the same elements but moves
      `x` to the end (and collapses any duplicate copies of it). */
  lemma ToggleTwicePresent(xs: seq<string>, x: string)
    requires x in xs
    ensures Toggle(Toggle(xs, x), x) == Remove(xs, x) + [x]
    ensures Elements(Toggle(Toggle(xs, x), x)) == Elements(xs)
  {
  }

  /** `n` consecutive toggles of the same element. */
  function ToggleTimes(xs: seq<string>, x: string, n: nat): seq<string>
    decreases n
  {
    if n == 0 then xs else Toggle(ToggleTimes(xs, x, n - 1), x)
  }

  /** After `n` toggles of `x`, it is present exactly when it was present
      before and `n` is even, or absent before and `n` is odd. */
  lemma {:induction false} ToggleParity(xs: seq<string>, x: string, n: nat)
    ensures x in ToggleTimes(xs, x, n) <==> ((x in xs) == (n % 2 == 0))
    decreases n
  {
    if n > 0 {
      ToggleParity(xs, x, n - 1);
    }
  }
}
