/**
 * The .NET string operations the core relies on: String.TrimStart and
 * TrimEnd with a character array, ordinal comparison (the Name ordering),
 * the prefix test, String.Split on one separator, and Int32.TryParse with
 * the default NumberStyles.Integer.
 *
 * TrimStart/TrimEnd take a char ARRAY, so they trim a SET of characters:
 * every leading (trailing) character that occurs anywhere in it is removed.
 * When the array is empty, .NET trims white space instead.
 */
module Text {
  import opened Wrappers
  import opened Int32

  /** The characters for which Char.IsWhiteSpace holds. */
  predicate IsWhiteSpace(c: char) {
    ('\U{9}' <= c <= '\U{D}') || c == ' ' || c == '\U{85}' || c == '\U{A0}'
    || c == '\U{1680}' || ('\U{2000}' <= c <= '\U{200A}') || c == '\U{2028}'
    || c == '\U{2029}' || c == '\U{202F}' || c == '\U{205F}' || c == '\U{3000}'
  }

  /** Whether trimming with the character array `trimChars` removes `c`. */
  predicate InTrimSet(c: char, trimChars: string) {
    if trimChars == [] then IsWhiteSpace(c) else c in trimChars
  }

  /** String.TrimStart(char[]): drop the longest prefix made of trimmed characters. */
  function TrimStart(s: string, trimChars: string): (r: string)
    ensures |r| <= |s| && r == s[|s| - |r|..]
    ensures r == [] || !InTrimSet(r[0], trimChars)
    ensures forall i :: 0 <= i < |s| - |r| ==> InTrimSet(s[i], trimChars)
    decreases |s|
  {
    if s != [] && InTrimSet(s[0], trimChars) then
      var r := TrimStart(s[1..], trimChars);
      assert forall i :: 0 < i < |s| ==> s[i] == s[1..][i - 1];
      r
    else s
  }

  /** String.TrimEnd(char[]): drop the longest suffix made of trimmed characters. */
  function TrimEnd(s: string, trimChars: string): (r: string)
    ensures |r| <= |s| && r == s[..|r|]
    ensures r == [] || !InTrimSet(r[|r| - 1], trimChars)
    ensures forall i :: |r| <= i < |s| ==> InTrimSet(s[i], trimChars)
    decreases |s|
  {
    if s != [] && InTrimSet(s[|s| - 1], trimChars) then
      var r := TrimEnd(s[..|s| - 1], trimChars);
      assert forall i :: 0 <= i < |s| - 1 ==> s[i] == s[..|s| - 1][i];
      r
    else s
  }

  /** The three properties of TrimStart determine its result. */
  lemma {:induction false} TrimStartUnique(s: string, trimChars: string, r: string)
    requires |r| <= |s| && r == s[|s| - |r|..]
    requires r == [] || !InTrimSet(r[0], trimChars)
    requires forall i :: 0 <= i < |s| - |r| ==> InTrimSet(s[i], trimChars)
    ensures r == TrimStart(s, trimChars)
  {
  }

  /** The three properties of TrimEnd determine its result. */
  lemma {:induction false} TrimEndUnique(s: string, trimChars: string, r: string)
    requires |r| <= |s| && r == s[..|r|]
    requires r == [] || !InTrimSet(r[|r| - 1], trimChars)
    requires forall i :: |r| <= i < |s| ==> InTrimSet(s[i], trimChars)
    ensures r == TrimEnd(s, trimChars)
  {
  }

  /** A string whose first character is not trimmed is left as it is. */
  lemma TrimStartKeeps(s: string, trimChars: string)
    requires s == [] || !InTrimSet(s[0], trimChars)
    ensures TrimStart(s, trimChars) == s
  {
  }

  /** A string whose last character is not trimmed is left as it is. */
  lemma TrimEndKeeps(s: string, trimChars: string)
    requires s == [] || !InTrimSet(s[|s| - 1], trimChars)
    ensures TrimEnd(s, trimChars) == s
  {
  }

  /** Ordinal (code-unit by code-unit) `a <= b`. */
  predicate OrdinalLeq(a: string, b: string)
    decreases |a|
  {
    if a == [] then true
    else if b == [] then false
    else if a[0] != b[0] then a[0] < b[0]
    else OrdinalLeq(a[1..], b[1..])
  }

  lemma {:induction false} OrdinalLeqTotal(a: string, b: string)
    ensures OrdinalLeq(a, b) || OrdinalLeq(b, a)
    decreases |a|
  {
    if a != [] && b != [] && a[0] == b[0] {
      OrdinalLeqTotal(a[1..], b[1..]);
    }
  }

  lemma {:induction false} OrdinalLeqTransitive(a: string, b: string, c: string)
    requires OrdinalLeq(a, b) && OrdinalLeq(b, c)
    ensures OrdinalLeq(a, c)
    decreases |a|
  {
    if a != [] && b != [] && c != [] && a[0] == b[0] && b[0] == c[0] {
      OrdinalLeqTransitive(a[1..], b[1..], c[1..]);
    }
  }

  lemma {:induction false} OrdinalLeqAntisymmetric(a: string, b: string)
    requires OrdinalLeq(a, b) && OrdinalLeq(b, a)
    ensures a == b
    decreases |a|
  {
    if a != [] && b != [] {
      OrdinalLeqAntisymmetric(a[1..], b[1..]);
      assert a == [a[0]] + a[1..] && b == [b[0]] + b[1..];
    }
  }

  /** Ordinal String.StartsWith. */
  predicate StartsWith(s: string, prefix: string) {
    |prefix| <= |s| && s[..|prefix|] == prefix
  }

  /** String.Split(separator): the pieces between separators, empty pieces kept. */
  function Split(s: string, separator: char): (pieces: seq<string>)
    ensures |pieces| >= 1
    ensures forall i :: 0 <= i < |pieces| ==> separator !in pieces[i]
    ensures Join(pieces, separator) == s
    decreases |s|
  {
    if s == [] then [[]]
    else if s[0] == separator then
      var rest := Split(s[1..], separator);
      assert s == [separator] + s[1..];
      [[]] + rest
    else
      var rest := Split(s[1..], separator);
      var pieces := [[s[0]] + rest[0]] + rest[1..];
      assert pieces[1..] == rest[1..];
      assert s == [s[0]] + s[1..];
      pieces
  }

  /** String.Join(separator, pieces). */
  function Join(pieces: seq<string>, separator: char): string
    requires |pieces| >= 1
    decreases |pieces|
  {
    if |pieces| == 1 then pieces[0] else pieces[0] + [separator] + Join(pieces[1..], separator)
  }

  /** Splitting a join of separator-free pieces gives the pieces back. */
  lemma {:induction false} SplitJoin(pieces: seq<string>, separator: char)
    requires |pieces| >= 1
    requires forall i :: 0 <= i < |pieces| ==> separator !in pieces[i]
    ensures Split(Join(pieces, separator), separator) == pieces
    decreases |pieces|, |pieces[0]|
  {
    var head := pieces[0];
    if head == [] {
      if |pieces| > 1 {
        SplitJoin(pieces[1..], separator);
        assert Join(pieces, separator) == [separator] + Join(pieces[1..], separator);
        assert pieces == [[]] + pieces[1..];
      }
    } else {
      var tail := [head[1..]] + pieces[1..];
      assert tail[1..] == pieces[1..];
      forall i | 0 <= i < |tail| ensures separator !in tail[i] {
        if i == 0 {
          assert forall c :: c in head[1..] ==> c in head;
        }
      }
      SplitJoin(tail, separator);
      var joined := Join(pieces, separator);
      assert joined == [head[0]] + Join(tail, separator) by {
        assert head == [head[0]] + head[1..];
        if |pieces| > 1 {
          assert Join(tail, separator) == head[1..] + [separator] + Join(pieces[1..], separator);
        }
      }
      assert joined[1..] == Join(tail, separator);
      assert head[0] != separator by {
        assert head[0] in head;
      }
      var rest := Split(joined[1..], separator);
      assert rest == tail;
      assert [[head[0]] + rest[0]] + rest[1..] == pieces by {
        assert [head[0]] + head[1..] == head;
        assert pieces == [head] + pieces[1..];
      }
    }
  }

  /** NumberStyles.AllowLeadingWhite / AllowTrailingWhite: U+0009 to U+000D and space. */
  const NumberWhite: string := "\U{9}\U{A}\U{B}\U{C}\U{D} "

  predicate IsDigit(c: char) {
    '0' <= c <= '9'
  }

  predicate AllDigits(s: string) {
    forall i :: 0 <= i < |s| ==> IsDigit(s[i])
  }

  function DigitValue(c: char): (d: nat)
    requires IsDigit(c)
    ensures d < 10
  {
    (c as int) - ('0' as int)
  }

  /** The value of a run of decimal digits, most significant first. */
  function DigitsValue(digits: string): nat
    requires AllDigits(digits)
    decreases |digits|
  {
    if digits == [] then 0
    else 10 * DigitsValue(digits[..|digits| - 1]) + DigitValue(digits[|digits| - 1])
  }

  /** The sign and digits left once the white space around a number is trimmed. */
  function ParseSignedDigits(body: string): (r: Option<int>)
    ensures r.Some? ==> |body| >= 1
  {
    var negative := |body| >= 1 && body[0] == '-';
    var digits := if |body| >= 1 && (body[0] == '-' || body[0] == '+') then body[1..] else body;
    if digits == [] || !AllDigits(digits) then None
    else Some(if negative then -(DigitsValue(digits) as int) else DigitsValue(digits))
  }

  /**
   * Int32.TryParse(s) with the invariant culture's signs: optional white
   * space, an optional sign, one or more decimal digits, optional white
   * space, and a value in the 32-bit range.
   */
  function TryParseInt32(s: string): (r: Option<int>)
    ensures r.Some? ==> IsInt32(r.value)
    ensures s == [] ==> r == None
  {
    var body := TrimEnd(TrimStart(s, NumberWhite), NumberWhite);
    match ParseSignedDigits(body)
    case Some(v) => if IsInt32(v) then Some(v) else None
    case None => None
  }

  function DigitChar(d: nat): (c: char)
    requires d < 10
    ensures IsDigit(c) && DigitValue(c) == d
  {
    (('0' as int) + d) as char
  }

  /** Decimal digits of `n` with no leading zero (Int32.ToString for n >= 0). */
  function NatToDigits(n: nat): (digits: string)
    ensures |digits| >= 1
    ensures AllDigits(digits)
    decreases n
  {
    if n < 10 then [DigitChar(n)] else NatToDigits(n / 10) + [DigitChar(n % 10)]
  }

  lemma {:induction false} DigitsValueOfNatToDigits(n: nat)
    ensures DigitsValue(NatToDigits(n)) == n
    decreases n
  {
    var digits := NatToDigits(n);
    if n >= 10 {
      DigitsValueOfNatToDigits(n / 10);
      assert digits[..|digits| - 1] == NatToDigits(n / 10);
    }
  }

  /** Int32.ToString() in the invariant culture. */
  function IntToString(n: int): (s: string)
    ensures |s| >= 1
  {
    if n < 0 then "-" + NatToDigits(-n) else NatToDigits(n)
  }

  /** TryParse reads back every 32-bit value ToString wrote. */
  lemma TryParseIntToString(n: int)
    requires IsInt32(n)
    ensures TryParseInt32(IntToString(n)) == Some(n)
  {
    IntToStringUntrimmed(n);
    ParseIntToString(n);
  }

  /** ToString writes no number white space at either end. */
  lemma IntToStringUntrimmed(n: int)
    ensures TrimEnd(TrimStart(IntToString(n), NumberWhite), NumberWhite) == IntToString(n)
  {
    var s := IntToString(n);
    var digits := NatToDigits(if n < 0 then -n else n);
    assert s[|s| - 1] == digits[|digits| - 1] && IsDigit(s[|s| - 1]);
    assert s[0] == '-' || IsDigit(s[0]);
    TrimStartKeeps(s, NumberWhite);
    TrimEndKeeps(s, NumberWhite);
  }

  /** The sign and digits ToString writes read back as the value. */
  lemma ParseIntToString(n: int)
    ensures ParseSignedDigits(IntToString(n)) == Some(n)
  {
    var s := IntToString(n);
    var m: nat := if n < 0 then -n else n;
    var digits := NatToDigits(m);
    DigitsValueOfNatToDigits(m);
    if n < 0 {
      assert s[1..] == digits;
    } else {
      assert s == digits && IsDigit(s[0]);
    }
  }

  /** A piece with a character that is not a digit, sign or white space never parses. */
  lemma TryParseRejectsStray(s: string, i: nat)
    requires i < |s|
    requires !IsDigit(s[i]) && s[i] != '-' && s[i] != '+' && s[i] !in NumberWhite
    ensures TryParseInt32(s) == None
  {
    var start := TrimStart(s, NumberWhite);
    var body := TrimEnd(start, NumberWhite);
    var k := i - (|s| - |start|);
    assert 0 <= k < |body|;
    assert body[k] == s[i];
    var digits := if |body| >= 1 && (body[0] == '-' || body[0] == '+') then body[1..] else body;
    if digits != [] {
      var j := if |body| >= 1 && (body[0] == '-' || body[0] == '+') then k - 1 else k;
      assert 0 <= j < |digits| && digits[j] == s[i];
      assert !AllDigits(digits);
    }
  }
}
