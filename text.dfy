/** The string operations the components use: decimal rendering of whole
    numbers (`String(n)`), `padStart(2, "0")`, `split`/`join` on one
    character and ASCII `toUpperCase`. */
module Text {
  import opened Optional

  predicate IsDigit(c: char) { '0' <= c <= '9' }

  predicate AllDigits(s: string) { forall k :: 0 <= k < |s| ==> IsDigit(s[k]) }

  function DigitChar(d: nat): (c: char)
    requires d < 10
    ensures IsDigit(c) && (c as int) - ('0' as int) == d
  {
    (('0' as int) + d) as char
  }

  function DigitValue(c: char): nat
    requires IsDigit(c)
  {
    (c as int) - ('0' as int)
  }

  /** `String(n)` for a whole number n >= 0. */
  function NatToString(n: nat): (s: string)
    ensures |s| > 0 && AllDigits(s)
    decreases n
  {
    if n < 10 then [DigitChar(n)] else NatToString(n / 10) + [DigitChar(n % 10)]
  }

  /** The value of a string of decimal digits (leading zeros allowed). */
  function ParseNat(s: string): nat
    requires AllDigits(s)
  {
    if |s| == 0 then 0 else ParseNat(s[..|s| - 1]) * 10 + DigitValue(s[|s| - 1])
  }

  /** Rendering then parsing a whole number gives it back: the rendering is
      exactly the decimal notation, so distinct numbers render differently. */
  lemma {:induction false} ParseNatToString(n: nat)
    ensures ParseNat(NatToString(n)) == n
    decreases n
  {
    var s := NatToString(n);
    if n >= 10 {
      ParseNatToString(n / 10);
      assert s[..|s| - 1] == NatToString(n / 10);
    }
  }

  lemma NatToStringInjective(a: nat, b: nat)
    requires NatToString(a) == NatToString(b)
    ensures a == b
  {
    ParseNatToString(a);
    ParseNatToString(b);
  }

  lemma {:induction false} NatToStringLength(n: nat)
    ensures n < 10 ==> |NatToString(n)| == 1
    ensures 10 <= n < 100 ==> |NatToString(n)| == 2
    ensures n >= 10 ==> |NatToString(n)| >= 2
  {
    if n >= 10 {
      NatToStringLength(n / 10);
    }
  }

  /** `s.padStart(2, "0")`: a string shorter than two characters is filled
      with leading zeros; a longer one is left untouched. */
  function PadStart2(s: string): (r: string)
    ensures |r| == if |s| >= 2 then |s| else 2
    ensures r[|r| - |s|..] == s
    ensures forall k :: 0 <= k < |r| - |s| ==> r[k] == '0'
  {
    if |s| >= 2 then s else if |s| == 1 then "0" + s else "00"
  }

  /** `String(n).padStart(2, "0")`. */
  function Pad2(n: nat): string {
    PadStart2(NatToString(n))
  }

  /** A padded number is at least two digits long, never truncated, and
      parses back to the number. */
  lemma Pad2Parses(n: nat)
    ensures AllDigits(Pad2(n))
    ensures |Pad2(n)| >= 2 && (n < 100 ==> |Pad2(n)| == 2)
    ensures ParseNat(Pad2(n)) == n
  {
    NatToStringLength(n);
    ParseNatToString(n);
    if n < 10 {
      var s := NatToString(n);
      assert Pad2(n) == "0" + s;
      assert Pad2(n)[..1] == "0";
    }
  }

  /** `s.split(c)`: the pieces between the occurrences of c, always at least one. */
  function Split(s: string, c: char): (parts: seq<string>)
    ensures |parts| >= 1
    ensures forall k :: 0 <= k < |parts| ==> c !in parts[k]
  {
    if |s| == 0 then [""]
    else if s[0] == c then [""] + Split(s[1..], c)
    else
      var rest := Split(s[1..], c);
      [[s[0]] + rest[0]] + rest[1..]
  }

  /** `parts.join(c)`. */
  function Join(parts: seq<string>, c: char): string {
    if |parts| == 0 then ""
    else if |parts| == 1 then parts[0]
    else parts[0] + [c] + Join(parts[1..], c)
  }

  /** Joining the pieces of a split on the same character restores the string. */
  lemma {:induction false} JoinSplit(s: string, c: char)
    ensures Join(Split(s, c), c) == s
  {
    if |s| > 0 {
      JoinSplit(s[1..], c);
      var rest := Split(s[1..], c);
      if s[0] != c {
        if |rest| > 1 {
          assert ([[s[0]] + rest[0]] + rest[1..])[1..] == rest[1..];
          assert Join(rest, c) == rest[0] + [c] + Join(rest[1..], c);
        }
      }
    }
  }

  /** Splitting at a first occurrence: the piece before it, then the split of the rest. */
  lemma {:induction false} SplitFirst(p: string, c: char, rest: string)
    requires c !in p
    ensures Split(p + [c] + rest, c) == [p] + Split(rest, c)
  {
    if |p| > 0 {
      SplitFirst(p[1..], c, rest);
      var s := p + [c] + rest;
      assert s[0] == p[0] && s[0] != c;
      assert s[1..] == p[1..] + [c] + rest;
      var tail := Split(s[1..], c);
      assert tail == [p[1..]] + Split(rest, c);
      assert [s[0]] + tail[0] == p;
      assert tail[1..] == Split(rest, c);
    } else {
      assert (p + [c] + rest)[1..] == rest;
    }
  }

  /** A string without c splits into itself alone. */
  lemma {:induction false} SplitNone(s: string, c: char)
    requires c !in s
    ensures Split(s, c) == [s]
  {
    if |s| > 0 {
      SplitNone(s[1..], c);
      assert [s[0]] + s[1..] == s;
    }
  }

  /** ASCII `toUpperCase` of one character. */
  function UpperChar(ch: char): char {
    if 'a' <= ch <= 'z' then ((ch as int) - 32) as char else ch
  }

  function ToUpper(s: string): (r: string)
    ensures |r| == |s| && forall k :: 0 <= k < |s| ==> r[k] == UpperChar(s[k])
  {
    seq(|s|, k requires 0 <= k < |s| => UpperChar(s[k]))
  }

  /** The index of the first occurrence of c in s. */
  function IndexOf(s: string, c: char): (i: nat)
    requires c in s
    ensures i < |s| && s[i] == c && c !in s[..i]
  {
    if s[0] == c then 0 else 1 + IndexOf(s[1..], c)
  }

  lemma DigitsHaveNoColon(s: string)
    requires AllDigits(s)
    ensures ':' !in s
  {
  }

  /** The value of the fields of an `h:mm:ss`-style reading, most significant
      first, each field worth 60 of the next. */
  function ClockValue(fields: seq<string>): nat
    requires forall k :: 0 <= k < |fields| ==> AllDigits(fields[k])
  {
    if |fields| == 0 then 0
    else ClockValue(fields[..|fields| - 1]) * 60 + ParseNat(fields[|fields| - 1])
  }

  /** Reads a clock display back as a number of seconds: None unless every
      colon-separated field is made of digits. */
  function ReadClock(s: string): Option<nat> {
    var fields := Split(s, ':');
    if forall k :: 0 <= k < |fields| ==> AllDigits(fields[k]) then Some(ClockValue(fields)) else None
  }

  lemma ClockValue2(a: string, b: string)
    requires AllDigits(a) && AllDigits(b)
    ensures ClockValue([a, b]) == ParseNat(a) * 60 + ParseNat(b)
  {
    var fields := [a, b];
    assert fields[..1] == [a];
    assert [a][..0] == [];
    assert ClockValue([a]) == ClockValue([]) * 60 + ParseNat(a);
    assert ClockValue(fields) == ClockValue([a]) * 60 + ParseNat(b);
  }

  /** Reading `a:b` (both digit strings) gives 60a + b. */
  lemma ReadClock2(a: string, b: string)
    requires AllDigits(a) && AllDigits(b)
    ensures var r := ReadClock(a + ":" + b);
      r.Some? && r.value == ParseNat(a) * 60 + ParseNat(b)
  {
    var s := a + ":" + b;
    assert Split(s, ':') == [a, b] by {
      DigitsHaveNoColon(a);
      DigitsHaveNoColon(b);
      SplitFirst(a, ':', b);
      SplitNone(b, ':');
    }
    ClockValue2(a, b);
    ReadFields(s, [a, b]);
  }

  lemma SplitThree(a: string, b: string, c: string)
    requires ':' !in a && ':' !in b && ':' !in c
    ensures Split(a + ":" + b + ":" + c, ':') == [a, b, c]
  {
    var tail := b + ":" + c;
    assert Split(tail, ':') == [b, c] by {
      SplitFirst(b, ':', c);
      SplitNone(c, ':');
    }
    assert a + ":" + b + ":" + c == a + [':'] + tail;
    SplitFirst(a, ':', tail);
  }

  lemma ClockValue3(a: string, b: string, c: string)
    requires AllDigits(a) && AllDigits(b) && AllDigits(c)
    ensures ClockValue([a, b, c]) == ParseNat(a) * 3600 + ParseNat(b) * 60 + ParseNat(c)
  {
    var fields := [a, b, c];
    assert fields[..2] == [a, b];
    ClockValue2(a, b);
    assert ClockValue(fields) == ClockValue([a, b]) * 60 + ParseNat(c);
  }

  /** A string whose fields are all digits reads as the clock value of its fields. */
  lemma ReadFields(s: string, fields: seq<string>)
    requires Split(s, ':') == fields
    requires forall k :: 0 <= k < |fields| ==> AllDigits(fields[k])
    ensures ReadClock(s) == Some(ClockValue(fields))
  {
  }

  /** Reading `a:b:c` (digit strings) gives 3600a + 60b + c. */
  lemma ReadClock3(a: string, b: string, c: string)
    requires AllDigits(a) && AllDigits(b) && AllDigits(c)
    ensures var r := ReadClock(a + ":" + b + ":" + c);
      r.Some? && r.value == ParseNat(a) * 3600 + ParseNat(b) * 60 + ParseNat(c)
  {
    var s := a + ":" + b + ":" + c;
    var fields := [a, b, c];
    assert forall k :: 0 <= k < |fields| ==> AllDigits(fields[k]) by {
      assert fields[0] == a && fields[1] == b && fields[2] == c;
    }
    assert Split(s, ':') == fields by {
      DigitsHaveNoColon(a);
      DigitsHaveNoColon(b);
      DigitsHaveNoColon(c);
      SplitThree(a, b, c);
    }
    assert ClockValue(fields) == ParseNat(a) * 3600 + ParseNat(b) * 60 + ParseNat(c) by {
      ClockValue3(a, b, c);
    }
    assert ReadClock(s) == Some(ClockValue(fields)) by {
      ReadFields(s, fields);
    }
  }
}
