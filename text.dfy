/** String helpers with the meaning JavaScript gives them in the application:
    `Array.prototype.join`, the decimal rendering of an integer inside a
    template literal, and substring occurrence. */
module Text {

  import opened Wrappers

  /** `t` occurs in `s` starting at index `i`. */
  predicate OccursAt(s: string, t: string, i: int) {
    0 <= i && i + |t| <= |s| && s[i..i + |t|] == t
  }

  /** `t` is a substring of `s`. */
  ghost predicate Contains(s: string, t: string) {
    exists i :: OccursAt(s, t, i)
  }

  lemma ContainsSelf(s: string)
    ensures Contains(s, s)
  {
    assert OccursAt(s, s, 0);
  }

  /** An occurrence in `a` is still an occurrence in `a + b`, at the same index. */
  lemma OccursInLeft(a: string, b: string, t: string, i: int)
    requires OccursAt(a, t, i)
    ensures OccursAt(a + b, t, i)
  {
  }

  /** An occurrence in `b` is an occurrence in `a + b`, shifted by `|a|`. */
  lemma OccursInRight(a: string, b: string, t: string, i: int)
    requires OccursAt(b, t, i)
    ensures OccursAt(a + b, t, |a| + i)
  {
  }

  lemma {:induction false} ContainsInLeft(a: string, b: string, t: string)
    requires Contains(a, t)
    ensures Contains(a + b, t)
  {
    var i :| OccursAt(a, t, i);
    OccursInLeft(a, b, t, i);
  }

  lemma {:induction false} ContainsInRight(a: string, b: string, t: string)
    requires Contains(b, t)
    ensures Contains(a + b, t)
  {
    var i :| OccursAt(b, t, i);
    OccursInRight(a, b, t, i);
  }

  /** An occurrence in `b` survives putting text on both sides of it. */
  lemma OccursInMiddle(a: string, b: string, c: string, t: string, i: int)
    requires OccursAt(b, t, i)
    ensures OccursAt(a + b + c, t, |a| + i)
  {
  }

  /** `b` occurs in `a + b` right after `a`. */
  lemma OccursAfterPrefix(a: string, b: string)
    ensures OccursAt(a + b, b, |a|)
  {
  }

  /** An occurrence of `u` in an occurrence of `t` is an occurrence in `s`. */
  lemma OccursTransitive(s: string, t: string, u: string, i: int, j: int)
    requires OccursAt(s, t, i) && OccursAt(t, u, j)
    ensures OccursAt(s, u, i + j)
  {
    forall m | 0 <= m < |u| ensures s[i + j + m] == u[m] {
      assert s[i..i + |t|][j + m] == t[j + m];
    }
  }

  /** Substring occurrence is transitive. */
  lemma {:induction false} ContainsTransitive(s: string, t: string, u: string)
    requires Contains(s, t) && Contains(t, u)
    ensures Contains(s, u)
  {
    var i :| OccursAt(s, t, i);
    var j :| OccursAt(t, u, j);
    OccursTransitive(s, t, u, i, j);
  }

  /** `xs.join(sep)`: the elements in list order with `sep` between
      neighbours; the empty list gives the empty string. */
  function Join(xs: seq<string>, sep: string): string
    decreases |xs|
  {
    if |xs| == 0 then ""
    else if |xs| == 1 then xs[0]
    else xs[0] + sep + Join(xs[1..], sep)
  }

  /** Joining a concatenation of two non-empty lists puts one separator
      between the two joined halves: the elements keep their list order. */
  lemma {:induction false} JoinConcat(xs: seq<string>, ys: seq<string>, sep: string)
    requires |xs| > 0 && |ys| > 0
    ensures Join(xs + ys, sep) == Join(xs, sep) + sep + Join(ys, sep)
    decreases |xs|
  {
    if |xs| == 1 {
      assert (xs + ys)[1..] == ys;
    } else {
      assert (xs + ys)[1..] == xs[1..] + ys;
      JoinConcat(xs[1..], ys, sep);
    }
  }

  /** Every element of the list is a substring of the joined string. */
  lemma {:induction false} JoinContainsElement(xs: seq<string>, sep: string, k: int)
    requires 0 <= k < |xs|
    ensures Contains(Join(xs, sep), xs[k])
    decreases |xs|
  {
    if |xs| == 1 {
      ContainsSelf(xs[0]);
    } else if k == 0 {
      ContainsSelf(xs[0]);
      ContainsInLeft(xs[0], sep + Join(xs[1..], sep), xs[0]);
      assert xs[0] + sep + Join(xs[1..], sep) == xs[0] + (sep + Join(xs[1..], sep));
    } else {
      JoinContainsElement(xs[1..], sep, k - 1);
      ContainsInRight(xs[0] + sep, Join(xs[1..], sep), xs[k]);
    }
  }

  lemma JoinContainsAll(xs: seq<string>, sep: string)
    ensures forall k :: 0 <= k < |xs| ==> Contains(Join(xs, sep), xs[k])
  {
    forall k | 0 <= k < |xs| ensures Contains(Join(xs, sep), xs[k]) {
      JoinContainsElement(xs, sep, k);
    }
  }

  /** The strings one after another. */
  function Concat(ls: seq<string>): string
    decreases |ls|
  {
    if |ls| == 0 then "" else Concat(ls[..|ls| - 1]) + ls[|ls| - 1]
  }

  /** Element `k` occurs in the concatenation right after the elements
      before it. */
  lemma {:induction false} ConcatOccurs(ls: seq<string>, k: int)
    requires 0 <= k < |ls|
    ensures OccursAt(Concat(ls), ls[k], |Concat(ls[..k])|)
    decreases |ls|
  {
    var init := ls[..|ls| - 1];
    if k == |ls| - 1 {
      assert ls[..k] == init;
      OccursInRight(Concat(init), ls[k], ls[k], 0);
    } else {
      ConcatOccurs(init, k);
      assert init[..k] == ls[..k];
      OccursInLeft(Concat(init), ls[|ls| - 1], ls[k], |Concat(ls[..k])|);
    }
  }

  function DigitChar(d: int): char
    requires 0 <= d < 10
  {
    "0123456789"[d]
  }

  /** Decimal digits of a natural number, most significant first, no leading zeros. */
  function NatToString(n: nat): (s: string)
    ensures |s| > 0
    ensures forall k :: 0 <= k < |s| ==> '0' <= s[k] <= '9'
    decreases n
  {
    if n < 10 then [DigitChar(n)] else NatToString(n / 10) + [DigitChar(n % 10)]
  }

  /** How a JavaScript integer-valued number below 10^21 in magnitude is
      rendered by `${n}`: an optional minus sign followed by its decimal
      digits. (From 10^21 on, `${n}` switches to exponent form.) */
  function IntToString(n: int): (r: string)
    ensures |r| > 0 && (r[0] == '-' <==> n < 0)
    ensures forall k :: (if n < 0 then 1 else 0) <= k < |r| ==> '0' <= r[k] <= '9'
  {
    if n < 0 then "-" + NatToString(-n) else NatToString(n)
  }

  /** Reads back a string of decimal digits. */
  function DigitsValue(s: string): nat
    requires forall k :: 0 <= k < |s| ==> '0' <= s[k] <= '9'
    decreases |s|
  {
    if |s| == 0 then 0 else 10 * DigitsValue(s[..|s| - 1]) + (s[|s| - 1] as int - '0' as int)
  }

  /** Reads back an optionally signed decimal numeral; `None` for anything else. */
  function ParseInt(s: string): (r: Option<int>)
  {
    if |s| > 0 && s[0] == '-' && IsDigits(s[1..]) then Some(0 - DigitsValue(s[1..]) as int)
    else if IsDigits(s) then Some(DigitsValue(s) as int)
    else None
  }

  predicate IsDigits(s: string) {
    |s| > 0 && forall k :: 0 <= k < |s| ==> '0' <= s[k] <= '9'
  }

  lemma {:induction false} NatToStringRoundTrip(n: nat)
    ensures DigitsValue(NatToString(n)) == n
    decreases n
  {
    var s := NatToString(n);
    if n >= 10 {
      NatToStringRoundTrip(n / 10);
      assert s[..|s| - 1] == NatToString(n / 10);
    }
  }

  /** The rendering of an integer is a numeral that reads back as the same
      integer: the decimal rendering loses nothing and clamps nothing. */
  lemma IntToStringRoundTrip(n: int)
    ensures ParseInt(IntToString(n)) == Some(n)
  {
    var s := IntToString(n);
    if n < 0 {
      var m: nat := -n;
      var d := NatToString(m);
      NatToStringRoundTrip(m);
      assert s == "-" + d && s[1..] == d;
      assert IsDigits(d);
    } else {
      var d := NatToString(n);
      NatToStringRoundTrip(n);
      assert s == d && IsDigits(d);
      assert s[0] != '-';
    }
  }
}
