// Strings as the operator uses them: the Go functions strings.Split, strings.Join,
// strconv.Atoi and the "%d" verb, with the laws that make them inverse to each other.
module Text {
  datatype Option<+T> = None | Some(value: T)

  // ---- Separators ----------------------------------------------------------

  // Position of the first `c` in `s`, or |s| when there is none.
  function IndexOf(s: string, c: char): (k: nat)
    ensures k <= |s|
    ensures c !in s[..k]
    ensures k < |s| ==> s[k] == c
  {
    if s == "" || s[0] == c then 0 else 1 + IndexOf(s[1..], c)
  }

  // strings.Split for a one-character separator: never empty.
  function Split(s: string, c: char): (parts: seq<string>)
    ensures |parts| >= 1
    ensures forall p | p in parts :: c !in p
    decreases |s|
  {
    var k := IndexOf(s, c);
    if k == |s| then [s] else [s[..k]] + Split(s[k + 1..], c)
  }

  // strings.Join for a one-character separator.
  function Join(parts: seq<string>, c: char): string {
    if |parts| == 0 then ""
    else if |parts| == 1 then parts[0]
    else parts[0] + [c] + Join(parts[1..], c)
  }

  // The first separator splits a text whose left part is free of it.
  lemma {:induction false} FirstSeparator(left: string, c: char, right: string)
    requires c !in left
    ensures IndexOf(left + [c] + right, c) == |left|
  {
    if left != "" {
      FirstSeparator(left[1..], c, right);
      assert (left + [c] + right)[1..] == left[1..] + [c] + right;
    }
  }

  lemma {:induction false} SplitHead(left: string, c: char, right: string)
    requires c !in left
    ensures Split(left + [c] + right, c) == [left] + Split(right, c)
  {
    var s := left + [c] + right;
    FirstSeparator(left, c, right);
    assert s[..|left|] == left;
    assert s[|left| + 1..] == right;
  }

  lemma {:induction false} SplitNone(s: string, c: char)
    requires c !in s
    ensures Split(s, c) == [s]
  {
    assert IndexOf(s, c) == |s|;
  }

  // Joining and splitting are inverse on non-empty lists of separator-free parts.
  lemma {:induction false} SplitJoin(parts: seq<string>, c: char)
    requires |parts| > 0
    requires forall p | p in parts :: c !in p
    ensures Split(Join(parts, c), c) == parts
  {
    if |parts| == 1 {
      SplitNone(parts[0], c);
    } else {
      SplitJoin(parts[1..], c);
      SplitHead(parts[0], c, Join(parts[1..], c));
    }
  }

  // ---- Decimal numbers -----------------------------------------------------

  predicate Digit(c: char) {
    '0' <= c <= '9'
  }

  predicate Digits(s: string) {
    forall i | 0 <= i < |s| :: Digit(s[i])
  }

  function DigitChar(d: nat): (c: char)
    requires d < 10
    ensures Digit(c)
    ensures c as int - '0' as int == d
  {
    (d + '0' as int) as char
  }

  // The value of a digit string, leading zeros allowed.
  function DigitsValue(s: string): nat
    requires Digits(s)
  {
    if s == "" then 0
    else 10 * DigitsValue(s[..|s| - 1]) + (s[|s| - 1] as int - '0' as int)
  }

  function NatText(n: nat): (s: string)
    ensures s != "" && Digits(s)
    ensures DigitsValue(s) == n
  {
    if n < 10 then
      var s := [DigitChar(n)];
      assert s[..0] == "";
      s
    else
      var s := NatText(n / 10) + [DigitChar(n % 10)];
      assert s[..|s| - 1] == NatText(n / 10);
      s
  }

  // fmt's "%d" and "%v" for an integer.
  function IntText(n: int): string {
    if n < 0 then "-" + NatText(-n) else NatText(n)
  }

  const MAX_INT64: int := 0x7FFF_FFFF_FFFF_FFFF

  // strconv.Atoi: an optional sign, at least one digit, the value within 64 bits.
  function Atoi(s: string): Option<int> {
    var signed := s != "" && (s[0] == '-' || s[0] == '+');
    var body := if signed then s[1..] else s;
    if body == "" || !Digits(body) then None
    else
      var v: int := DigitsValue(body);
      if signed && s[0] == '-' then
        if v <= MAX_INT64 + 1 then Some(-v) else None
      else if v <= MAX_INT64 then Some(v) else None
  }

  // Reading back what "%d" printed, for every integer the field types can hold.
  lemma {:induction false} AtoiIntText(n: int)
    requires -MAX_INT64 - 1 <= n <= MAX_INT64
    ensures Atoi(IntText(n)) == Some(n)
  {
    if n < 0 {
      assert IntText(n)[1..] == NatText(-n);
    } else {
      assert Digit(NatText(n)[0]);
    }
  }

  // ---- Cancellation --------------------------------------------------------

  lemma CancelLeft(a: string, b: string, c: string)
    requires a + b == a + c
    ensures b == c
  {
    assert (a + b)[|a|..] == b;
    assert (a + c)[|a|..] == c;
  }

  lemma CancelRight(a: string, b: string, c: string)
    requires a + c == b + c
    ensures a == b
  {
    assert |a| == |b|;
    assert (a + c)[..|a|] == a;
    assert (b + c)[..|b|] == b;
  }

  // Two texts with different last characters differ, whatever precedes them.
  lemma LastCharacter(a: string, s: string, b: string, t: string)
    requires s != "" && t != ""
    requires s[|s| - 1] != t[|t| - 1]
    ensures a + s != b + t
  {
    var x, y := a + s, b + t;
    assert x[|x| - 1] == s[|s| - 1];
    assert y[|y| - 1] == t[|t| - 1];
  }
}
