/** String operations the Swift app and the Python backend lean on:
    Python's `strip`, `upper`, `split(sep)` and `in` (substring), Swift's
    `joined(separator:)`, integer interpolation, number parsing and the
    UTF-8 byte count. Strings are `seq<char>` of Unicode scalar values. */
module Text {
  import opened Wrappers

  // ---------------------------------------------------------------------------
  // Characters

  /** Python's `str.isspace`: the characters `str.strip()` removes. */
  predicate IsSpace(c: char) {
    ('\U{0009}' <= c <= '\U{000D}') || ('\U{001C}' <= c <= '\U{0020}')
    || c == '\U{0085}' || c == '\U{00A0}' || c == '\U{1680}'
    || ('\U{2000}' <= c <= '\U{200A}') || c == '\U{2028}' || c == '\U{2029}'
    || c == '\U{202F}' || c == '\U{205F}' || c == '\U{3000}'
  }

  predicate IsDigit(c: char) {
    '0' <= c <= '9'
  }

  predicate AllDigits(s: string) {
    forall i :: 0 <= i < |s| ==> IsDigit(s[i])
  }

  /** Python's `str.upper` on ASCII letters; other characters are kept. */
  function UpperChar(c: char): char {
    if 'a' <= c <= 'z' then (c as int - 32) as char else c
  }

  function Upper(s: string): (r: string)
    ensures |r| == |s|
    ensures forall i :: 0 <= i < |s| ==> r[i] == UpperChar(s[i])
  {
    seq(|s|, i requires 0 <= i < |s| => UpperChar(s[i]))
  }

  // ---------------------------------------------------------------------------
  // Python's str.strip()

  function StripLeft(s: string): (r: string)
    ensures |r| <= |s| && r == s[|s| - |r|..]
    ensures r == [] || !IsSpace(r[0])
    ensures forall i :: 0 <= i < |s| - |r| ==> IsSpace(s[i])
    decreases |s|
  {
    if |s| > 0 && IsSpace(s[0]) then StripLeft(s[1..]) else s
  }

  function StripRight(s: string): (r: string)
    ensures |r| <= |s| && r == s[..|r|]
    ensures r == [] || !IsSpace(r[|r| - 1])
    ensures forall i :: |r| <= i < |s| ==> IsSpace(s[i])
    decreases |s|
  {
    if |s| > 0 && IsSpace(s[|s| - 1]) then StripRight(s[..|s| - 1]) else s
  }

  function Strip(s: string): string {
    StripRight(StripLeft(s))
  }

  /** `not line.strip()` holds exactly for lines made only of whitespace. */
  lemma StripEmptyIffBlank(s: string)
    ensures Strip(s) == [] <==> forall i :: 0 <= i < |s| ==> IsSpace(s[i])
  {
    StripLeftBlank(s);
    StripRightBlank(StripLeft(s));
  }

  /** `StripLeft` removes everything exactly when everything is whitespace. */
  lemma {:induction false} StripLeftBlank(s: string)
    ensures StripLeft(s) == [] <==> forall i :: 0 <= i < |s| ==> IsSpace(s[i])
    decreases |s|
  {
    if |s| > 0 {
      StripLeftBlank(s[1..]);
      assert forall i :: 1 <= i < |s| ==> s[i] == s[1..][i - 1];
    }
  }

  /** So does `StripRight`. */
  lemma {:induction false} StripRightBlank(s: string)
    ensures StripRight(s) == [] <==> forall i :: 0 <= i < |s| ==> IsSpace(s[i])
    decreases |s|
  {
    if |s| > 0 {
      StripRightBlank(s[..|s| - 1]);
      assert forall i :: 0 <= i < |s| - 1 ==> s[i] == s[..|s| - 1][i];
    }
  }

  /** `strip` leaves text alone that neither starts nor ends with whitespace. */
  lemma StripUnpadded(s: string)
    requires s == [] || (!IsSpace(s[0]) && !IsSpace(s[|s| - 1]))
    ensures Strip(s) == s
  {
  }

  // ---------------------------------------------------------------------------
  // Substring test, Python's `needle in hay`

  predicate Contains(hay: string, needle: string)
    decreases |hay|
  {
    needle <= hay || (|hay| > 0 && Contains(hay[1..], needle))
  }

  lemma {:induction false} ContainsAt(hay: string, needle: string, i: nat)
    requires i + |needle| <= |hay| && hay[i..i + |needle|] == needle
    ensures Contains(hay, needle)
    decreases i
  {
    if i == 0 {
      assert needle <= hay;
    } else {
      assert hay[1..][i - 1..i - 1 + |needle|] == needle;
      ContainsAt(hay[1..], needle, i - 1);
    }
  }

  lemma {:induction false} ContainsWitness(hay: string, needle: string) returns (i: nat)
    requires Contains(hay, needle)
    ensures i + |needle| <= |hay| && hay[i..i + |needle|] == needle
    decreases |hay|
  {
    if needle <= hay {
      i := 0;
    } else {
      var j := ContainsWitness(hay[1..], needle);
      i := j + 1;
      assert hay[i..i + |needle|] == hay[1..][j..j + |needle|];
    }
  }

  lemma ContainsMiddle(a: string, b: string, c: string)
    ensures Contains(a + b + c, b)
  {
    ContainsAt(a + b + c, b, |a|);
  }

  /** A needle longer than the hay is never in it. */
  lemma ContainsLonger(hay: string, needle: string)
    ensures Contains(hay, needle) ==> |needle| <= |hay|
  {
    if Contains(hay, needle) {
      var i := ContainsWitness(hay, needle);
    }
  }

  /** Between texts of one length, `in` is equality. */
  lemma ContainsSameLength(hay: string, needle: string)
    requires |hay| == |needle|
    ensures Contains(hay, needle) <==> hay == needle
  {
    if Contains(hay, needle) {
      var i := ContainsWitness(hay, needle);
      assert hay[0..|needle|] == hay;
    }
    if hay == needle {
      ContainsAt(hay, needle, 0);
    }
  }

  /** A two-character needle is in the hay only where its last character is. */
  lemma ContainsPair(hay: string, a: char, b: char)
    ensures Contains(hay, [a, b]) <==> exists i :: 0 <= i < |hay| - 1 && hay[i] == a && hay[i + 1] == b
  {
    if Contains(hay, [a, b]) {
      var i := ContainsWitness(hay, [a, b]);
      assert hay[i..i + 2][0] == a && hay[i..i + 2][1] == b;
    }
    if exists i :: 0 <= i < |hay| - 1 && hay[i] == a && hay[i + 1] == b {
      var i :| 0 <= i < |hay| - 1 && hay[i] == a && hay[i + 1] == b;
      assert hay[i..i + 2] == [a, b];
      ContainsAt(hay, [a, b], i);
    }
  }

  // ---------------------------------------------------------------------------
  // Python's str.split(sep) with a one-character separator, and Swift's
  // joined(separator:)

  function IndexOf(s: string, c: char): (i: nat)
    ensures i <= |s|
    ensures i < |s| ==> s[i] == c
    ensures forall k :: 0 <= k < i ==> s[k] != c
    decreases |s|
  {
    if |s| == 0 then 0 else if s[0] == c then 0 else 1 + IndexOf(s[1..], c)
  }

  function Split(s: string, sep: char): (parts: seq<string>)
    ensures |parts| >= 1
    ensures forall k :: 0 <= k < |parts| ==> sep !in parts[k]
    decreases |s|
  {
    var i := IndexOf(s, sep);
    if i == |s| then [s] else [s[..i]] + Split(s[i + 1..], sep)
  }

  function Join(parts: seq<string>, sep: string): string
    decreases |parts|
  {
    if |parts| == 0 then ""
    else if |parts| == 1 then parts[0]
    else parts[0] + sep + Join(parts[1..], sep)
  }

  /** Splitting the joined text gives the parts back, provided no part
      holds the separator. */
  lemma {:induction false} SplitJoin(parts: seq<string>, sep: char)
    requires |parts| >= 1
    requires forall k :: 0 <= k < |parts| ==> sep !in parts[k]
    ensures Split(Join(parts, [sep]), sep) == parts
    decreases |parts|
  {
    var s := Join(parts, [sep]);
    if |parts| == 1 {
      assert forall k :: 0 <= k < |s| ==> s[k] != sep by {
        assert s == parts[0];
      }
    } else {
      var p := parts[0];
      var rest := Join(parts[1..], [sep]);
      assert s == p + [sep] + rest;
      var i := IndexOf(s, sep);
      assert s[|p|] == sep;
      assert forall k :: 0 <= k < |p| ==> s[k] == p[k] && s[k] != sep;
      assert i == |p|;
      assert s[..i] == p;
      assert s[i + 1..] == rest;
      SplitJoin(parts[1..], sep);
      assert Split(s, sep) == [p] + parts[1..];
    }
  }

  /** Joining two non-empty runs of parts puts the separator between them. */
  lemma {:induction false} JoinAppend(a: seq<string>, b: seq<string>, sep: string)
    requires |a| >= 1 && |b| >= 1
    ensures Join(a + b, sep) == Join(a, sep) + sep + Join(b, sep)
    decreases |a|
  {
    if |a| == 1 {
      assert (a + b)[1..] == b;
    } else {
      assert (a + b)[1..] == a[1..] + b;
      JoinAppend(a[1..], b, sep);
    }
  }

  /** A character in neither the parts nor the separator is not in the join. */
  lemma {:induction false} JoinExcludes(parts: seq<string>, sep: string, c: char)
    requires forall k :: 0 <= k < |parts| ==> c !in parts[k]
    requires c !in sep
    ensures c !in Join(parts, sep)
    decreases |parts|
  {
    if |parts| > 1 {
      JoinExcludes(parts[1..], sep, c);
    }
  }

  /** Joining the split pieces rebuilds the text. */
  lemma {:induction false} JoinSplit(s: string, sep: char)
    ensures Join(Split(s, sep), [sep]) == s
    decreases |s|
  {
    var i := IndexOf(s, sep);
    if i < |s| {
      var head, tail := s[..i], s[i + 1..];
      var rest := Split(tail, sep);
      SplitAtFirst(s, sep, i);
      JoinSplit(tail, sep);
      JoinCons(head, rest, [sep]);
      Reassemble(s, i);
    }
  }

  /** Splitting at the first separator: the text before it, then the split of the rest. */
  lemma SplitAtFirst(s: string, sep: char, i: nat)
    requires i == IndexOf(s, sep) && i < |s|
    ensures Split(s, sep) == [s[..i]] + Split(s[i + 1..], sep)
  { }

  /** A text is its part before position `i`, the character there, and the part after. */
  lemma Reassemble(s: string, i: nat)
    requires i < |s|
    ensures s[..i] + [s[i]] + s[i + 1..] == s
  {
    assert s[i..] == [s[i]] + s[i + 1..];
    assert s == s[..i] + s[i..];
  }

  lemma JoinCons(head: string, rest: seq<string>, sep: string)
    requires |rest| >= 1
    ensures Join([head] + rest, sep) == head + sep + Join(rest, sep)
  {
    assert ([head] + rest)[1..] == rest;
  }

  // ---------------------------------------------------------------------------
  // Decimal text of integers, as Swift's "\(n)" interpolation writes them

  function DigitChar(d: nat): (c: char)
    requires d < 10
    ensures IsDigit(c) && c as int - '0' as int == d
  {
    ('0' as int + d) as char
  }

  function DigitsValue(s: string): nat
    requires AllDigits(s)
    decreases |s|
  {
    if |s| == 0 then 0 else 10 * DigitsValue(s[..|s| - 1]) + (s[|s| - 1] as int - '0' as int)
  }

  function NatToString(n: nat): (s: string)
    ensures |s| >= 1 && AllDigits(s)
    decreases n
  {
    if n < 10 then [DigitChar(n)] else NatToString(n / 10) + [DigitChar(n % 10)]
  }

  function IntToString(i: int): string {
    if i < 0 then "-" + NatToString(-i) else NatToString(i)
  }

  /** Reading the digits back gives the number: the text is faithful. */
  lemma {:induction false} NatToStringRoundTrip(n: nat)
    ensures DigitsValue(NatToString(n)) == n
    decreases n
  {
    if n >= 10 {
      var s := NatToString(n);
      NatToStringRoundTrip(n / 10);
      assert s[..|s| - 1] == NatToString(n / 10);
    }
  }

  /** Two numbers print the same way only when they are equal. */
  lemma NatToStringInjective(m: nat, n: nat)
    requires NatToString(m) == NatToString(n)
    ensures m == n
  {
    NatToStringRoundTrip(m);
    NatToStringRoundTrip(n);
  }

  // ---------------------------------------------------------------------------
  // Decimal number parsing on ASCII text: the grammar Swift's Double(String)
  // and Python's float() share, [+|-] (digits [. [digits]] | . digits)
  // [(e|E) [+|-] digits]. Python's `_` digit separators, `inf` and `nan`
  // and non-ASCII digits are not modelled.

  function DigitRun(s: string): (k: nat)
    ensures k <= |s| && AllDigits(s[..k])
    ensures k < |s| ==> !IsDigit(s[k])
    decreases |s|
  {
    if |s| > 0 && IsDigit(s[0]) then
      var k := 1 + DigitRun(s[1..]);
      assert s[..k] == [s[0]] + s[1..][..k - 1];
      k
    else 0
  }

  function Pow10(e: int): (p: real)
    ensures p > 0.0
    decreases if e < 0 then -e else e
  {
    if e == 0 then 1.0 else if e > 0 then 10.0 * Pow10(e - 1) else Pow10(e + 1) / 10.0
  }

  function ParseExponent(t: string): Option<int> {
    if t == [] then Some(0)
    else if t[0] != 'e' && t[0] != 'E' then None
    else
      var u := t[1..];
      var negative := |u| > 0 && u[0] == '-';
      var digits := if |u| > 0 && (u[0] == '-' || u[0] == '+') then u[1..] else u;
      if |digits| > 0 && AllDigits(digits) then
        var v: int := DigitsValue(digits);
        Some(if negative then -v else v)
      else None
  }

  function ParseNumber(s: string): Option<real> {
    var negative := |s| > 0 && s[0] == '-';
    var body := if |s| > 0 && (s[0] == '-' || s[0] == '+') then s[1..] else s;
    var k := DigitRun(body);
    var tail := body[k..];
    var hasDot := |tail| > 0 && tail[0] == '.';
    var afterDot := if hasDot then tail[1..] else tail;
    var m := if hasDot then DigitRun(afterDot) else 0;
    if k + m == 0 then None
    else
      match ParseExponent(afterDot[m..])
      case None => None
      case Some(e) =>
        var magnitude := (DigitsValue(body[..k]) as real + DigitsValue(afterDot[..m]) as real / Pow10(m)) * Pow10(e);
        Some(if negative then -magnitude else magnitude)
  }

  /** Swift's `Double(text)`: no surrounding whitespace is accepted. */
  function SwiftDouble(s: string): Option<real> {
    ParseNumber(s)
  }

  /** Python's `float(text)`: surrounding whitespace is ignored. */
  function PyFloat(s: string): Option<real> {
    ParseNumber(Strip(s))
  }

  /** A non-empty run of digits parses to its decimal value. */
  lemma ParseDigits(s: string)
    requires |s| > 0 && AllDigits(s)
    ensures ParseNumber(s) == Some(DigitsValue(s) as real)
  {
    assert !IsDigit('-') && !IsDigit('+');
    var k := DigitRun(s);
    assert k == |s|;
    assert s[..k] == s;
    assert s[k..] == [];
  }

  /** A leading zero does not change the value of a digit string. */
  lemma {:induction false} DigitsValueLeadingZero(s: string)
    requires AllDigits(s)
    ensures AllDigits("0" + s) && DigitsValue("0" + s) == DigitsValue(s)
    decreases |s|
  {
    if |s| > 0 {
      var t := "0" + s;
      assert t[..|t| - 1] == "0" + s[..|s| - 1];
      DigitsValueLeadingZero(s[..|s| - 1]);
    }
  }

  /** A run of digits is read whole. */
  lemma DigitRunAll(s: string)
    requires AllDigits(s)
    ensures DigitRun(s) == |s|
  {
  }

  /** A non-empty run of digits, with or without a minus sign before it,
      parses to its decimal value with that sign. */
  lemma ParseSignedDigits(t: string, s: string, negative: bool)
    requires |s| > 0 && AllDigits(s) && t == (if negative then "-" + s else s)
    ensures ParseNumber(t) == Some(if negative then -(DigitsValue(s) as real) else DigitsValue(s) as real)
  {
    DigitRunAll(s);
    assert IsDigit(s[0]) && !IsDigit('-') && !IsDigit('+');
    assert t[0] == '-' <==> negative;
    var body := if |t| > 0 && (t[0] == '-' || t[0] == '+') then t[1..] else t;
    assert body == s;
    assert s[..|s|] == s && s[|s|..] == [];
    assert ParseExponent([]) == Some(0);
    assert Pow10(0) == 1.0;
    assert DigitsValue([]) == 0;
  }

  /** Every integer the app prints parses back to itself. */
  lemma ParseIntRoundTrip(i: int)
    ensures ParseNumber(IntToString(i)) == Some(i as real)
  {
    var n: nat := if i < 0 then -i else i;
    ParseSignedDigits(IntToString(i), NatToString(n), i < 0);
    NatToStringRoundTrip(n);
  }

  // ---------------------------------------------------------------------------
  // UTF-8 byte count, Swift's `text.utf8.count`

  function Utf8Width(c: char): nat {
    if c < '\U{0080}' then 1 else if c < '\U{0800}' then 2 else if c < '\U{10000}' then 3 else 4
  }

  function Utf8Length(s: string): nat
    decreases |s|
  {
    if |s| == 0 then 0 else Utf8Width(s[0]) + Utf8Length(s[1..])
  }

  lemma {:induction false} Utf8LengthConcat(a: string, b: string)
    ensures Utf8Length(a + b) == Utf8Length(a) + Utf8Length(b)
    decreases |a|
  {
    if |a| > 0 {
      assert (a + b)[0] == a[0];
      assert (a + b)[1..] == a[1..] + b;
      Utf8LengthConcat(a[1..], b);
    } else {
      assert a + b == b;
    }
  }

  /** Between one and four bytes per character. */
  lemma {:induction false} Utf8LengthBounds(s: string)
    ensures |s| <= Utf8Length(s) <= 4 * |s|
    decreases |s|
  {
    if |s| > 0 { Utf8LengthBounds(s[1..]); }
  }

  /** ASCII text takes exactly one byte per character. */
  lemma {:induction false} Utf8LengthAscii(s: string)
    requires forall i :: 0 <= i < |s| ==> s[i] < '\U{0080}'
    ensures Utf8Length(s) == |s|
    decreases |s|
  {
    if |s| > 0 { Utf8LengthAscii(s[1..]); }
  }
}
