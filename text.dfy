/**
 * The textual renderings that the node's error messages are built from:
 * Python's `str()` of a non-negative int and of a tuple of ints, and a
 * substring predicate used to state what a message mentions.
 */
module Text {
  import opened Common

  predicate IsDigit(c: char) {
    '0' <= c <= '9'
  }

  predicate AllDigits(s: string) {
    forall i :: 0 <= i < |s| ==> IsDigit(s[i])
  }

  /** `sub` occurs in `s` starting at index `i`. */
  predicate OccursAt(s: string, sub: string, i: int) {
    0 <= i <= |s| - |sub| && s[i..i + |sub|] == sub
  }

  /** `sub` occurs somewhere in `s`. */
  predicate Contains(s: string, sub: string) {
    exists i | 0 <= i <= |s| :: OccursAt(s, sub, i)
  }

  function Digit(d: nat): (c: char)
    requires d < 10
    ensures IsDigit(c) && c as int - '0' as int == d
  {
    ('0' as int + d) as char
  }

  /** Decimal rendering of `n`, as `str(n)` gives it: digits only, no leading zero. */
  function NatToString(n: nat): (s: string)
    ensures |s| >= 1 && AllDigits(s)
    ensures (s[0] == '0') == (n == 0)
    decreases n
  {
    if n < 10 then [Digit(n)] else NatToString(n / 10) + [Digit(n % 10)]
  }

  /** The number a string of decimal digits denotes. */
  function DigitsValue(s: string): nat
    requires AllDigits(s)
  {
    if s == [] then 0 else DigitsValue(s[..|s| - 1]) * 10 + (s[|s| - 1] as int - '0' as int)
  }

  /** Reading the decimal rendering back gives the number: the rendering loses nothing. */
  lemma {:induction false} DigitsValueOfNatToString(n: nat)
    ensures DigitsValue(NatToString(n)) == n
    decreases n
  {
    if n >= 10 {
      var s := NatToString(n);
      assert s[..|s| - 1] == NatToString(n / 10);
      DigitsValueOfNatToString(n / 10);
    }
  }

  lemma NatToStringInjective(m: nat, n: nat)
    requires NatToString(m) == NatToString(n)
    ensures m == n
  {
    DigitsValueOfNatToString(m);
    DigitsValueOfNatToString(n);
  }

  /** The elements of `s` separated by ", ". */
  function JoinNats(s: seq<nat>): string
  {
    if |s| == 0 then ""
    else if |s| == 1 then NatToString(s[0])
    else NatToString(s[0]) + ", " + JoinNats(s[1..])
  }

  /** Python's `str()` of a tuple of ints: `()`, `(5,)`, `(2, 3, 4, 5)`. */
  function TupleToString(s: seq<nat>): (r: string)
    ensures |r| >= 2 && r[0] == '(' && r[|r| - 1] == ')'
  {
    if |s| == 1 then "(" + NatToString(s[0]) + ",)" else "(" + JoinNats(s) + ")"
  }

  /** The length of the run of decimal digits that `s` starts with. */
  function LeadingDigits(s: string): (n: nat)
    ensures n <= |s|
    decreases |s|
  {
    if s == [] || !IsDigit(s[0]) then 0 else 1 + LeadingDigits(s[1..])
  }

  lemma {:induction false} LeadingDigitsAreDigits(s: string)
    ensures AllDigits(s[..LeadingDigits(s)])
    decreases |s|
  {
    if s != [] && IsDigit(s[0]) {
      LeadingDigitsAreDigits(s[1..]);
      assert s[..LeadingDigits(s)] == [s[0]] + s[1..][..LeadingDigits(s[1..])];
    }
  }

  /** A run of digits followed by a non-digit (or by nothing) is read as exactly that run. */
  lemma {:induction false} LeadingDigitsOf(d: string, rest: string)
    requires AllDigits(d)
    requires rest == [] || !IsDigit(rest[0])
    ensures LeadingDigits(d + rest) == |d|
    decreases |d|
  {
    if d == [] {
      assert d + rest == rest;
    } else {
      assert (d + rest)[1..] == d[1..] + rest;
      LeadingDigitsOf(d[1..], rest);
    }
  }

  /** Reads the comma-separated numbers inside a tuple's parentheses; a trailing "," is allowed. */
  function ParseNats(t: string): Option<seq<nat>>
    decreases |t|
  {
    var n := LeadingDigits(t);
    if n == 0 then None
    else
      assert AllDigits(t[..n]) by { LeadingDigitsAreDigits(t); }
      var v := DigitsValue(t[..n]);
      if n == |t| || t[n..] == "," then Some([v])
      else if |t| >= n + 2 && t[n..n + 2] == ", " then
        match ParseNats(t[n + 2..])
        case None => None
        case Some(vs) => Some([v] + vs)
      else None
  }

  /** Reads Python's rendering of a tuple of ints back into the ints. */
  function ParseTuple(r: string): Option<seq<nat>> {
    if |r| < 2 || r[0] != '(' || r[|r| - 1] != ')' then None
    else if |r| == 2 then Some([])
    else ParseNats(r[1..|r| - 1])
  }

  /** The first number of a joined list, and what follows it. */
  lemma JoinNatsHead(s: seq<nat>)
    requires |s| >= 2
    ensures JoinNats(s) == NatToString(s[0]) + (", " + JoinNats(s[1..]))
  {
  }

  lemma {:induction false} ParseNatsOfJoin(s: seq<nat>, tail: string)
    requires |s| >= 1
    requires tail == "" || tail == ","
    ensures ParseNats(JoinNats(s) + tail) == Some(s)
    decreases |s|
  {
    var d := NatToString(s[0]);
    DigitsValueOfNatToString(s[0]);
    if |s| == 1 {
      var t := d + tail;
      assert JoinNats(s) + tail == t;
      LeadingDigitsOf(d, tail);
      assert t[..|d|] == d;
      assert t[|d|..] == tail;
      assert [s[0]] == s;
    } else {
      var rest := JoinNats(s[1..]) + tail;
      var t := d + (", " + rest);
      JoinNatsHead(s);
      assert JoinNats(s) + tail == t;
      LeadingDigitsOf(d, ", " + rest);
      assert t[..|d|] == d;
      assert t[|d|..|d| + 2] == ", ";
      assert t[|d| + 2..] == rest;
      assert t[|d|..] != "," by {
        assert |t[|d|..]| >= 2;
      }
      ParseNatsOfJoin(s[1..], tail);
      assert [s[0]] + s[1..] == s;
    }
  }

  /** The tuple rendering loses nothing: every axis can be read back, in order. */
  lemma TupleRoundTrip(s: seq<nat>)
    ensures ParseTuple(TupleToString(s)) == Some(s)
  {
    var r := TupleToString(s);
    if |s| == 0 {
      assert r == "()";
    } else if |s| == 1 {
      assert r[1..|r| - 1] == JoinNats(s) + ",";
      ParseNatsOfJoin(s, ",");
    } else {
      assert r[1..|r| - 1] == JoinNats(s) + "";
      assert |JoinNats(s)| > 0;
      ParseNatsOfJoin(s, "");
    }
  }
}
