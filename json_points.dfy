/**
  The text form of a `points` array. A peer or the room's store may hand a
  line's points over as the JSON text of an integer array ("[10,-3,7]")
  instead of as an array; the client turns that text back into numbers with
  JSON.parse. This module gives the serialiser that produces such text
  (`Stringify`) and the parser for it (`ParsePoints`), and proves that the
  parser recovers every array the serialiser writes.
*/
module JsonPoints {
  import opened Wrappers

  // ---------------------------------------------------------------------
  // Serialising
  // ---------------------------------------------------------------------

  predicate IsDigit(c: char) {
    '0' <= c <= '9'
  }

  function DigitChar(d: nat): (c: char)
    requires d < 10
    ensures IsDigit(c) && c as int - '0' as int == d
  {
    ('0' as int + d) as char
  }

  /** Decimal digits of a natural number, most significant first. */
  function NatToText(n: nat): (s: string)
    ensures |s| >= 1
    ensures forall i :: 0 <= i < |s| ==> IsDigit(s[i])
  {
    if n < 10 then [DigitChar(n)] else NatToText(n / 10) + [DigitChar(n % 10)]
  }

  /** A JSON number for an integer: an optional minus sign, then digits. */
  function IntToText(x: int): (s: string)
    ensures |s| >= 1
    ensures ',' !in s
  {
    if x < 0 then "-" + NatToText(-x) else NatToText(x)
  }

  /** The elements of `xs` written out and separated by commas. */
  function JoinItems(xs: seq<int>): (s: string)
    ensures s == [] <==> xs == []
  {
    if |xs| == 0 then []
    else if |xs| == 1 then IntToText(xs[0])
    else IntToText(xs[0]) + "," + JoinItems(xs[1..])
  }

  /** The JSON text of an integer array, as JSON.stringify writes it. */
  function Stringify(xs: seq<int>): (s: string)
    ensures |s| >= 2 && s[0] == '[' && s[|s| - 1] == ']'
  {
    "[" + JoinItems(xs) + "]"
  }

  // ---------------------------------------------------------------------
  // Parsing
  // ---------------------------------------------------------------------

  /** The value of a non-empty string of decimal digits; None for anything else. */
  function ParseNat(s: string): (r: Option<nat>)
    ensures r.Some? ==> s != [] && forall i :: 0 <= i < |s| ==> IsDigit(s[i])
  {
    if s == [] || !IsDigit(s[|s| - 1]) then None
    else
      var d := s[|s| - 1] as int - '0' as int;
      if |s| == 1 then Some(d)
      else match ParseNat(s[..|s| - 1])
        case None => None
        case Some(v) => Some(10 * v + d)
  }

  /** A JSON integer: digits, optionally preceded by one minus sign. */
  function ParseInt(s: string): (r: Option<int>)
  {
    if |s| > 0 && s[0] == '-' then
      match ParseNat(s[1..])
      case None => None
      case Some(v) => var x: int := -(v as int); Some(x)
    else
      match ParseNat(s)
      case None => None
      case Some(v) => Some(v)
  }

  /** The pieces of `s` between its commas, in order (always at least one piece). */
  function SplitCommas(s: string): (r: seq<string>)
    ensures |r| >= 1
    ensures forall i :: 0 <= i < |r| ==> ',' !in r[i]
  {
    if s == [] then [[]]
    else
      var rest := SplitCommas(s[1..]);
      if s[0] == ',' then [[]] + rest
      else [[s[0]] + rest[0]] + rest[1..]
  }

  /** Every field parsed as an integer, or None as soon as one does not parse. */
  function ParseItems(fields: seq<string>): (r: Option<seq<int>>)
    ensures r.Some? ==> |r.value| == |fields|
    ensures r.Some? ==> forall i :: 0 <= i < |fields| ==> ParseInt(fields[i]) == Some(r.value[i])
    ensures r.None? ==> exists i :: 0 <= i < |fields| && ParseInt(fields[i]).None?
  {
    if fields == [] then Some([])
    else
      match ParseInt(fields[0])
      case None => None
      case Some(x) =>
        match ParseItems(fields[1..])
        case None => None
        case Some(xs) => Some([x] + xs)
  }

  /**
    The integer array denoted by the JSON text `s`: "[" then zero or more
    comma-separated integers then "]". Any other text is rejected with None,
    where JSON.parse would throw or yield something that is not an array.
  */
  function ParsePoints(s: string): (r: Option<seq<int>>)
    ensures r.Some? ==> |s| >= 2 && s[0] == '[' && s[|s| - 1] == ']'
  {
    if |s| >= 2 && s[0] == '[' && s[|s| - 1] == ']' then
      var inner := s[1..|s| - 1];
      if inner == [] then Some([]) else ParseItems(SplitCommas(inner))
    else None
  }

  // ---------------------------------------------------------------------
  // Round trip
  // ---------------------------------------------------------------------

  lemma {:induction false} NatRoundTrip(n: nat)
    ensures ParseNat(NatToText(n)) == Some(n)
  {
    var s := NatToText(n);
    if n >= 10 {
      NatRoundTrip(n / 10);
      assert s[..|s| - 1] == NatToText(n / 10);
    }
  }

  lemma {:induction false} IntRoundTrip(x: int)
    ensures ParseInt(IntToText(x)) == Some(x)
  {
    if x < 0 {
      NatRoundTrip(-x);
      assert IntToText(x)[1..] == NatToText(-x);
    } else {
      NatRoundTrip(x);
      assert IsDigit(NatToText(x)[0]);
    }
  }

  /** A comma-free piece followed by a comma splits off as its own field. */
  lemma {:induction false} SplitAfterPiece(a: string, b: string)
    requires ',' !in a
    ensures SplitCommas(a + "," + b) == [a] + SplitCommas(b)
  {
    if a == [] {
      assert [] + "," + b == [','] + b;
      assert ([','] + b)[1..] == b;
    } else {
      var s := a + "," + b;
      assert s[0] == a[0];
      assert s[1..] == a[1..] + "," + b;
      SplitAfterPiece(a[1..], b);
      assert [a[0]] + a[1..] == a;
    }
  }

  lemma {:induction false} SplitWithoutCommas(a: string)
    requires ',' !in a
    ensures SplitCommas(a) == [a]
  {
    if a != [] {
      SplitWithoutCommas(a[1..]);
      assert [a[0]] + a[1..] == a;
    }
  }

  /** Splitting the joined items gives back one field per item, each the item's text. */
  lemma {:induction false} ParseJoinedItems(xs: seq<int>)
    requires xs != []
    ensures ParseItems(SplitCommas(JoinItems(xs))) == Some(xs)
  {
    IntRoundTrip(xs[0]);
    if |xs| == 1 {
      SplitWithoutCommas(IntToText(xs[0]));
      assert [IntToText(xs[0])][1..] == [];
      assert [xs[0]] + [] == xs;
    } else {
      ParseJoinedItems(xs[1..]);
      SplitAfterPiece(IntToText(xs[0]), JoinItems(xs[1..]));
      var fields := [IntToText(xs[0])] + SplitCommas(JoinItems(xs[1..]));
      assert fields[1..] == SplitCommas(JoinItems(xs[1..]));
      assert [xs[0]] + xs[1..] == xs;
    }
  }

  /** JSON.parse recovers exactly the array that was serialised: same count, same values, same order. */
  lemma {:induction false} ParseStringify(xs: seq<int>)
    ensures ParsePoints(Stringify(xs)) == Some(xs)
  {
    var s := Stringify(xs);
    assert s[1..|s| - 1] == JoinItems(xs);
    if xs != [] {
      ParseJoinedItems(xs);
    }
  }
}
