/** The JavaScript semantics the parcel resolver leans on: the scalars it reads
    out of the cadastral JSON, their truthiness, how a template literal renders
    them, `String.prototype.includes` and `Array.prototype.join`. */
module JsValues {

  /** `Number.MAX_SAFE_INTEGER`, 2^53 - 1. */
  const MAX_SAFE_INTEGER := 0x1F_FFFF_FFFF_FFFF

  /** The integers a JavaScript number holds exactly. */
  type SafeInt = n: int | -MAX_SAFE_INTEGER <= n <= MAX_SAFE_INTEGER

  /** A JSON scalar as the program reads it from an upstream field. `Undefined`
      is a property that is not there; numbers are the safe integers. */
  datatype Scalar = Str(s: string) | Num(n: SafeInt) | Bool(b: bool) | Null | Undefined

  /** JavaScript truthiness: exactly "", 0, false, null and undefined are falsy. */
  predicate Truthy(v: Scalar): (b: bool)
    ensures !b <==> v in {Str(""), Num(0), Bool(false), Null, Undefined}
  {
    match v
    case Str(s) => s != ""
    case Num(n) => n != 0
    case Bool(b) => b
    case Null => false
    case Undefined => false
  }

  predicate IsDigit(c: char) {
    '0' <= c <= '9'
  }

  function DigitChar(d: nat): (c: char)
    requires d < 10
    ensures IsDigit(c) && c as int - '0' as int == d
  {
    ('0' as int + d) as char
  }

  /** Decimal text of a natural number, as `String(n)` renders it. */
  function NatText(n: nat): (r: string)
    ensures |r| > 0
    ensures forall i :: 0 <= i < |r| ==> IsDigit(r[i])
    decreases n
  {
    if n < 10 then [DigitChar(n)] else NatText(n / 10) + [DigitChar(n % 10)]
  }

  /** The value of a string of decimal digits: the inverse of NatText. */
  function DigitsValue(s: string): int
    requires forall i :: 0 <= i < |s| ==> IsDigit(s[i])
  {
    if s == [] then 0
    else 10 * DigitsValue(s[..|s| - 1]) + (s[|s| - 1] as int - '0' as int)
  }

  /** Reading NatText back gives the number, and the text has no leading zero. */
  lemma {:induction false} NatTextRoundTrip(n: nat)
    ensures DigitsValue(NatText(n)) == n
    ensures NatText(n)[0] == '0' ==> n == 0
    decreases n
  {
    if n >= 10 {
      NatTextRoundTrip(n / 10);
      var r := NatText(n);
      assert r[..|r| - 1] == NatText(n / 10);
    }
  }

  /** The text `${v}` produces inside a template literal. A safe integer is
      below 10^21, so JavaScript writes it in plain decimal, never in exponent
      form. */
  function Interpolate(v: Scalar): (r: string)
    ensures v.Str? ==> r == v.s
    ensures v.Num? ==> '\n' !in r
  {
    match v
    case Str(s) => s
    case Num(n) => if n < 0 then "-" + NatText(-n) else NatText(n)
    case Bool(b) => if b then "true" else "false"
    case Null => "null"
    case Undefined => "undefined"
  }

  /** A minus sign followed by digits: the digits are what follows the sign. */
  lemma MinusDigits(t: string)
    requires |t| > 0 && forall i :: 0 <= i < |t| ==> IsDigit(t[i])
    ensures var r := "-" + t; r[0] == '-' && r[1..] == t && forall i :: 1 <= i < |r| ==> IsDigit(r[i])
  {
  }

  /** A rendered number reads back as that number: a leading "-" exactly for a
      negative one, then its digits with no leading zero. */
  lemma InterpolateNumberRoundTrip(n: SafeInt)
    ensures var r := Interpolate(Num(n));
      && |r| > 0 && (r[0] == '-' <==> n < 0)
      && (n >= 0 ==> DigitsValue(r) == n)
      && (n < 0 ==> |r| > 1 && (forall i :: 1 <= i < |r| ==> IsDigit(r[i])) && DigitsValue(r[1..]) == -n)
  {
    if n < 0 {
      NatTextRoundTrip(-n);
      MinusDigits(NatText(-n));
    } else {
      NatTextRoundTrip(n);
    }
  }

  /** `pat` occurs in `text` starting at index `i`. */
  predicate OccursAt(text: string, pat: string, i: nat) {
    i + |pat| <= |text| && text[i..i + |pat|] == pat
  }

  /** `text.includes(pat)`. */
  function Includes(text: string, pat: string): (r: bool)
    ensures pat == [] ==> r
    ensures r ==> |pat| <= |text|
    decreases |text|
  {
    if |pat| > |text| then false
    else if text[..|pat|] == pat then true
    else Includes(text[1..], pat)
  }

  /** Includes answers true exactly when the pattern occurs somewhere in the text. */
  lemma {:induction false} IncludesIsSubstring(text: string, pat: string)
    ensures Includes(text, pat) <==> exists i: nat :: OccursAt(text, pat, i)
    decreases |text|
  {
    if |pat| > |text| {
    } else if text[..|pat|] == pat {
      assert OccursAt(text, pat, 0);
    } else {
      IncludesIsSubstring(text[1..], pat);
      if i: nat :| OccursAt(text, pat, i) {
        assert i != 0;
        assert text[1..][i - 1..i - 1 + |pat|] == text[i..i + |pat|];
        assert OccursAt(text[1..], pat, i - 1);
      }
      if i: nat :| OccursAt(text[1..], pat, i) {
        assert text[1..][i..i + |pat|] == text[i + 1..i + 1 + |pat|];
        assert OccursAt(text, pat, i + 1);
      }
    }
  }

  /** `parts.join(sep)`. */
  function Join(parts: seq<string>, sep: string): (r: string)
    ensures |parts| == 0 ==> r == ""
    ensures |parts| > 0 ==> parts[0] <= r
  {
    if |parts| == 0 then ""
    else if |parts| == 1 then parts[0]
    else parts[0] + sep + Join(parts[1..], sep)
  }

  /** `s.split("\n")`: the lines of a text. Used as the reader of the texts the
      program writes, so that their layout can be stated line by line. */
  function SplitLines(s: string): (lines: seq<string>)
    ensures |lines| > 0
  {
    if s == [] then [""]
    else if s[0] == '\n' then [""] + SplitLines(s[1..])
    else
      var rest := SplitLines(s[1..]);
      [[s[0]] + rest[0]] + rest[1..]
  }

  /** A text with no newline is one line. */
  lemma {:induction false} SplitSingleLine(a: string)
    requires '\n' !in a
    ensures SplitLines(a) == [a]
  {
    if a != [] {
      assert '\n' !in a[1..] by {
        forall i | 0 <= i < |a[1..]| ensures a[1..][i] != '\n' {
          assert a[1..][i] == a[i + 1];
        }
      }
      SplitSingleLine(a[1..]);
      assert [a[0]] + a[1..] == a;
    }
  }

  /** A line followed by a newline splits off as the first line. */
  lemma {:induction false} SplitFirstLine(a: string, b: string)
    requires '\n' !in a
    ensures SplitLines(a + "\n" + b) == [a] + SplitLines(b)
  {
    if a == [] {
      assert a + "\n" + b == "\n" + b;
      assert ("\n" + b)[1..] == b;
    } else {
      var s := a + "\n" + b;
      assert s[0] == a[0];
      assert s[1..] == a[1..] + "\n" + b;
      assert '\n' !in a[1..] by {
        forall i | 0 <= i < |a[1..]| ensures a[1..][i] != '\n' {
          assert a[1..][i] == a[i + 1];
        }
      }
      SplitFirstLine(a[1..], b);
      assert [a[0]] + a[1..] == a;
    }
  }

  lemma JoinedThen(lines: seq<string>, rest: string)
    requires |lines| > 1
    ensures Join(lines, "\n") + "\n" + rest == lines[0] + "\n" + (Join(lines[1..], "\n") + "\n" + rest)
  {
  }

  /** One more line in front of text already known to split into `tail`
      followed by the lines of `rest`. */
  lemma SplitJoinedStep(head: string, after: string, tail: seq<string>, rest: string)
    requires '\n' !in head
    requires SplitLines(after) == tail + SplitLines(rest)
    ensures SplitLines(head + "\n" + after) == [head] + tail + SplitLines(rest)
  {
    SplitFirstLine(head, after);
  }

  /** Lines joined by "\n" and followed by a newline split back into those lines. */
  lemma {:induction false} SplitJoined(lines: seq<string>, rest: string)
    requires |lines| > 0
    requires forall i :: 0 <= i < |lines| ==> '\n' !in lines[i]
    ensures SplitLines(Join(lines, "\n") + "\n" + rest) == lines + SplitLines(rest)
  {
    if |lines| == 1 {
      SplitFirstLine(lines[0], rest);
    } else {
      JoinedThen(lines, rest);
      SplitJoined(lines[1..], rest);
      SplitJoinedStep(lines[0], Join(lines[1..], "\n") + "\n" + rest, lines[1..], rest);
      assert [lines[0]] + lines[1..] == lines;
    }
  }

  /** Round trip: splitting lines joined by "\n" gives the lines back. */
  lemma {:induction false} SplitJoinRoundTrip(lines: seq<string>)
    requires |lines| > 0
    requires forall i :: 0 <= i < |lines| ==> '\n' !in lines[i]
    ensures SplitLines(Join(lines, "\n")) == lines
  {
    if |lines| == 1 {
      SplitSingleLine(lines[0]);
    } else {
      var tail := Join(lines[1..], "\n");
      assert Join(lines, "\n") == lines[0] + "\n" + tail;
      SplitFirstLine(lines[0], tail);
      SplitJoinRoundTrip(lines[1..]);
      assert [lines[0]] + lines[1..] == lines;
    }
  }
}
