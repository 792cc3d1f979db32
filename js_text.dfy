/** The JavaScript string built-ins the client relies on, over `seq<char>`:
    `trim`, `split` on one character, `join`, ASCII `toLowerCase` /
    `toUpperCase`, `includes`, `String(n)` for integers and `parseInt`. */
module JsText {
  import opened Wrappers

  // ---------------------------------------------------------------- whitespace

  /** The characters `String.prototype.trim` and `parseInt` strip: the
      ECMAScript WhiteSpace and LineTerminator code points. */
  predicate IsWhite(c: char) {
    c == ' ' || c == '\t' || c == '\n' || c == '\r' || c == '\U{B}' || c == '\U{C}'
    || c == '\U{A0}' || c == '\U{1680}' || ('\U{2000}' <= c <= '\U{200A}')
    || c == '\U{2028}' || c == '\U{2029}' || c == '\U{202F}' || c == '\U{205F}'
    || c == '\U{3000}' || c == '\U{FEFF}'
  }

  predicate AllWhite(s: string) {
    forall i :: 0 <= i < |s| ==> IsWhite(s[i])
  }

  /** A string with no whitespace at either end, as `trim` leaves it. */
  predicate Trimmed(s: string) {
    s == "" || (!IsWhite(s[0]) && !IsWhite(s[|s| - 1]))
  }

  function TrimStart(s: string): (r: string)
    ensures |r| <= |s| && r == s[|s| - |r|..]
    ensures AllWhite(s[..|s| - |r|])
    ensures r == "" || !IsWhite(r[0])
    decreases |s|
  {
    if |s| > 0 && IsWhite(s[0]) then
      var r := TrimStart(s[1..]);
      assert s[..|s| - |r|] == [s[0]] + s[1..][..|s[1..]| - |r|];
      r
    else s
  }

  function TrimEnd(s: string): (r: string)
    ensures |r| <= |s| && r == s[..|r|]
    ensures AllWhite(s[|r|..])
    ensures r == "" || !IsWhite(r[|r| - 1])
    decreases |s|
  {
    if |s| > 0 && IsWhite(s[|s| - 1]) then
      var r := TrimEnd(s[..|s| - 1]);
      WhiteThenWhite(s[..|s| - 1][|r|..], [s[|s| - 1]]);
      assert s[|r|..] == s[..|s| - 1][|r|..] + [s[|s| - 1]];
      r
    else s
  }

  lemma WhiteThenWhite(a: string, b: string)
    requires AllWhite(a) && AllWhite(b)
    ensures AllWhite(a + b)
  {
  }

  /** `s.trim()`: no whitespace is left at either end. */
  function Trim(s: string): (r: string)
    ensures Trimmed(r)
    ensures |r| <= |s|
  {
    TrimEnd(TrimStart(s))
  }

  /** `r` is the slice of `s` that starts at `k`, with only white space
      before it and after it. */
  predicate BetweenWhite(s: string, k: nat, r: string) {
    k + |r| <= |s| && r == s[k..k + |r|] && AllWhite(s[..k]) && AllWhite(s[k + |r|..])
  }

  /** `trim` keeps the text between the white space: the result is the
      slice of the input after the white space `trimStart` drops and before
      a white-space suffix. */
  lemma TrimContent(s: string)
    ensures BetweenWhite(s, |s| - |TrimStart(s)|, Trim(s))
  {
    TrimEndAfterPrefix(s, TrimStart(s));
  }

  /** Trimming the end of what a white-space prefix left. */
  lemma TrimEndAfterPrefix(s: string, t: string)
    requires |t| <= |s| && t == s[|s| - |t|..] && AllWhite(s[..|s| - |t|])
    ensures BetweenWhite(s, |s| - |t|, TrimEnd(t))
  {
    TrimTwoEnds(s, t, TrimEnd(t));
  }

  /** Dropping a white-space prefix and then a white-space suffix leaves a
      slice of the original between white space. */
  lemma TrimTwoEnds(s: string, t: string, r: string)
    requires |t| <= |s| && t == s[|s| - |t|..] && AllWhite(s[..|s| - |t|])
    requires |r| <= |t| && r == t[..|r|] && AllWhite(t[|r|..])
    ensures BetweenWhite(s, |s| - |t|, r)
  {
    var k := |s| - |t|;
    assert t[|r|..] == s[k + |r|..];
  }

  lemma TrimStartOfTrimmed(s: string)
    requires s == "" || !IsWhite(s[0])
    ensures TrimStart(s) == s
  {
  }

  lemma TrimEndOfTrimmed(s: string)
    requires s == "" || !IsWhite(s[|s| - 1])
    ensures TrimEnd(s) == s
  {
  }

  /** Trimming twice is trimming once. */
  lemma TrimIdempotent(s: string)
    ensures Trim(Trim(s)) == Trim(s)
  {
    var t := Trim(s);
    TrimStartOfTrimmed(t);
    TrimEndOfTrimmed(t);
  }

  /** A trimmed string is its own trim. */
  lemma TrimOfTrimmed(s: string)
    requires Trimmed(s)
    ensures Trim(s) == s
  {
    TrimStartOfTrimmed(s);
    TrimEndOfTrimmed(s);
  }

  lemma {:induction false} TrimStartAfterWhite(w: string, e: string)
    requires AllWhite(w)
    ensures TrimStart(w + e) == TrimStart(e)
    decreases |w|
  {
    if w != [] {
      assert (w + e)[0] == w[0] && IsWhite(w[0]);
      assert (w + e)[1..] == w[1..] + e;
      assert AllWhite(w[1..]) by {
        forall i | 0 <= i < |w[1..]| ensures IsWhite(w[1..][i]) { assert w[1..][i] == w[i + 1]; }
      }
      TrimStartAfterWhite(w[1..], e);
    } else {
      assert w + e == e;
    }
  }

  /** Leading whitespace does not change the trim. */
  lemma TrimAfterWhite(w: string, e: string)
    requires AllWhite(w)
    ensures Trim(w + e) == Trim(e)
  {
    TrimStartAfterWhite(w, e);
  }

  /** Whitespace alone trims to the empty string. */
  lemma {:induction false} TrimOfWhite(w: string)
    requires AllWhite(w)
    ensures Trim(w) == ""
  {
    TrimStartAfterWhite(w, "");
    assert w + "" == w;
  }

  /** Trimming keeps no character the input did not have. */
  lemma TrimKeepsOut(s: string, c: char)
    requires c !in s
    ensures c !in Trim(s)
  {
    var t := TrimStart(s);
    var r := TrimEnd(t);
    assert forall i :: 0 <= i < |r| ==> r[i] == s[|s| - |t| + i];
  }

  // ---------------------------------------------------------------- split / join

  /** `parts.join(sep)`. */
  function Join(parts: seq<string>, sep: string): (r: string)
    ensures |parts| == 0 ==> r == ""
    ensures |parts| > 0 ==> parts[0] <= r
    decreases |parts|
  {
    if |parts| == 0 then ""
    else if |parts| == 1 then parts[0]
    else parts[0] + sep + Join(parts[1..], sep)
  }

  /** `s.split(c)` for a one-character separator: never empty, and no piece
      holds the separator. */
  function Split(s: string, c: char): (parts: seq<string>)
    ensures |parts| >= 1
    ensures forall i :: 0 <= i < |parts| ==> c !in parts[i]
    decreases |s|
  {
    if |s| == 0 then [""]
    else
      var rest := Split(s[1..], c);
      if s[0] == c then [""] + rest
      else [[s[0]] + rest[0]] + rest[1..]
  }

  lemma JoinHead(x: string, y: string, tail: seq<string>, sep: string)
    ensures Join([x + y] + tail, sep) == x + Join([y] + tail, sep)
  {
    if |tail| > 0 {
      assert ([x + y] + tail)[1..] == tail;
      assert ([y] + tail)[1..] == tail;
    }
  }

  /** Joining the pieces of a split with the separator gives back the input. */
  lemma {:induction false} JoinSplit(s: string, c: char)
    ensures Join(Split(s, c), [c]) == s
    decreases |s|
  {
    if |s| > 0 {
      var rest := Split(s[1..], c);
      JoinSplit(s[1..], c);
      if s[0] == c {
        assert ([""] + rest)[1..] == rest;
        assert Join([""] + rest, [c]) == "" + [c] + Join(rest, [c]);
        assert s == [c] + s[1..];
      } else {
        assert rest == [rest[0]] + rest[1..];
        JoinHead([s[0]], rest[0], rest[1..], [c]);
        assert s == [s[0]] + s[1..];
      }
    }
  }

  /** A string without the separator splits into itself. */
  lemma {:induction false} SplitWithout(a: string, c: char)
    requires c !in a
    ensures Split(a, c) == [a]
    decreases |a|
  {
    if |a| > 0 {
      assert a == [a[0]] + a[1..];
      SplitWithout(a[1..], c);
      assert [a[0]] + a[1..] == a;
    }
  }

  /** Splitting at the first separator: the piece before it, then the split
      of the remainder. */
  lemma {:induction false} SplitAtFirst(a: string, c: char, t: string)
    requires c !in a
    ensures Split(a + [c] + t, c) == [a] + Split(t, c)
    decreases |a|
  {
    var s := a + [c] + t;
    if |a| == 0 {
      assert s[0] == c && s[1..] == t;
    } else {
      assert s[1..] == a[1..] + [c] + t;
      assert a == [a[0]] + a[1..];
      SplitAtFirst(a[1..], c, t);
      assert [a[0]] + a[1..] == a;
    }
  }

  /** `s.split(c)[0]`: the longest prefix of `s` without `c`, so it is
      either all of `s` or followed by `c`. */
  lemma {:induction false} SplitHead(s: string, c: char)
    ensures Split(s, c)[0] <= s && c !in Split(s, c)[0]
    ensures |Split(s, c)[0]| < |s| ==> s[|Split(s, c)[0]|] == c
    ensures c !in s ==> Split(s, c)[0] == s
    decreases |s|
  {
    if |s| > 0 && s[0] != c {
      SplitHead(s[1..], c);
      var h := Split(s[1..], c)[0];
      assert Split(s, c)[0] == [s[0]] + h;
      assert s == [s[0]] + s[1..];
    }
  }

  /** A separator at the end of the text adds one empty piece. */
  lemma {:induction false} SplitSnoc(s: string, c: char)
    ensures Split(s + [c], c) == Split(s, c) + [""]
    decreases |s|
  {
    if |s| > 0 {
      assert (s + [c])[1..] == s[1..] + [c];
      SplitSnoc(s[1..], c);
    } else {
      assert s + [c] == [c];
    }
  }

  /** A string holding `c` is the piece before its first `c`, then `c`, then the rest. */
  lemma {:induction false} FirstOccurrence(r: string, c: char) returns (a: string, b: string)
    requires c in r
    ensures r == a + [c] + b && c !in a
    decreases |r|
  {
    if r[0] == c {
      a, b := "", r[1..];
    } else {
      assert r == [r[0]] + r[1..];
      var a', b' := FirstOccurrence(r[1..], c);
      a, b := [r[0]] + a', b';
    }
  }

  /** Splitting a join recovers the pieces when none holds the separator. */
  lemma {:induction false} SplitJoin(parts: seq<string>, c: char)
    requires |parts| >= 1
    requires forall i :: 0 <= i < |parts| ==> c !in parts[i]
    ensures Split(Join(parts, [c]), c) == parts
    decreases |parts|
  {
    if |parts| == 1 {
      SplitWithout(parts[0], c);
    } else {
      SplitJoin(parts[1..], c);
      SplitAtFirst(parts[0], c, Join(parts[1..], [c]));
      assert parts == [parts[0]] + parts[1..];
    }
  }

  // ---------------------------------------------------------------- letter case

  /** `toLowerCase` on one character (ASCII letters only). */
  function LowerChar(c: char): char {
    if 'A' <= c <= 'Z' then (c as int + 32) as char else c
  }

  /** `toUpperCase` on one character (ASCII letters only). */
  function UpperChar(c: char): char {
    if 'a' <= c <= 'z' then (c as int - 32) as char else c
  }

  /** Lower-casing an upper-cased character is lower-casing it, and
      upper-casing twice is upper-casing once. */
  lemma CharCase(c: char)
    ensures LowerChar(UpperChar(c)) == LowerChar(c)
    ensures UpperChar(UpperChar(c)) == UpperChar(c)
    ensures LowerChar(LowerChar(c)) == LowerChar(c)
  {
  }

  function ToLower(s: string): (r: string)
    ensures |r| == |s|
    ensures forall i :: 0 <= i < |s| ==> r[i] == LowerChar(s[i])
  {
    seq(|s|, i requires 0 <= i < |s| => LowerChar(s[i]))
  }

  function ToUpper(s: string): (r: string)
    ensures |r| == |s|
    ensures forall i :: 0 <= i < |s| ==> r[i] == UpperChar(s[i])
  {
    seq(|s|, i requires 0 <= i < |s| => UpperChar(s[i]))
  }

  /** Lower-casing forgets any earlier change of case. */
  lemma LowerForgetsCase(s: string)
    ensures ToLower(ToUpper(s)) == ToLower(s)
    ensures ToLower(ToLower(s)) == ToLower(s)
  {
    assert forall i :: 0 <= i < |s| ==> LowerChar(UpperChar(s[i])) == LowerChar(s[i]);
  }

  // ---------------------------------------------------------------- includes

  /** `sub` occurs in `s` starting at index `i`. */
  predicate OccursAt(s: string, sub: string, i: int) {
    0 <= i && i + |sub| <= |s| && s[i..i + |sub|] == sub
  }

  /** `s.includes(sub)`: true exactly when `sub` occurs somewhere in `s`. */
  function Contains(s: string, sub: string): (b: bool)
    ensures b <==> exists i :: OccursAt(s, sub, i)
    decreases |s|
  {
    if |sub| <= |s| && s[..|sub|] == sub then
      assert OccursAt(s, sub, 0);
      true
    else if |s| == 0 then
      assert forall i :: !OccursAt(s, sub, i);
      false
    else
      var b := Contains(s[1..], sub);
      assert b ==> exists i :: OccursAt(s, sub, i) by {
        if b {
          var i :| OccursAt(s[1..], sub, i);
          assert s[i + 1..i + 1 + |sub|] == s[1..][i..i + |sub|];
          assert OccursAt(s, sub, i + 1);
        }
      }
      assert (exists i :: OccursAt(s, sub, i)) ==> b by {
        if exists i :: OccursAt(s, sub, i) {
          var i :| OccursAt(s, sub, i);
          assert s[..|sub|] == s[0..0 + |sub|];
          assert i != 0;
          assert s[1..][i - 1..i - 1 + |sub|] == s[i..i + |sub|];
          assert OccursAt(s[1..], sub, i - 1);
        }
      }
      b
  }

  // ---------------------------------------------------------------- numbers as text

  function DigitChar(d: nat): (c: char)
    requires d < 10
  {
    ('0' as int + d) as char
  }

  predicate IsDigit(c: char) {
    '0' <= c <= '9'
  }

  /** Decimal digits of a natural number, most significant first. */
  function NatToText(n: nat): (s: string)
    ensures |s| >= 1
    ensures forall i :: 0 <= i < |s| ==> IsDigit(s[i])
    ensures n > 0 ==> s[0] != '0'
    ensures n == 0 ==> s == "0"
    decreases n
  {
    if n < 10 then [DigitChar(n)] else NatToText(n / 10) + [DigitChar(n % 10)]
  }

  /** `String(n)` for an integer. */
  function IntToText(n: int): (s: string)
    ensures |s| >= 1
  {
    if n < 0 then "-" + NatToText(-n) else NatToText(n)
  }

  /** The value of `c` as a digit in `radix` (10 or 16), or -1. */
  function DigitValue(c: char, radix: nat): (v: int)
    ensures -1 <= v < radix || (v < 16 && radix < 16 && v == -1)
  {
    var v :=
      if '0' <= c <= '9' then c as int - '0' as int
      else if 'a' <= c <= 'z' then c as int - 'a' as int + 10
      else if 'A' <= c <= 'Z' then c as int - 'A' as int + 10
      else -1;
    if 0 <= v < radix then v else -1
  }

  /** Length of the longest prefix of `s` made of digits of `radix`. */
  function DigitRun(s: string, radix: nat): (k: nat)
    ensures k <= |s|
    ensures forall i :: 0 <= i < k ==> DigitValue(s[i], radix) >= 0
    ensures k < |s| ==> DigitValue(s[k], radix) < 0
    decreases |s|
  {
    if |s| > 0 && DigitValue(s[0], radix) >= 0 then 1 + DigitRun(s[1..], radix) else 0
  }

  /** The number a run of digits denotes in `radix`. */
  function DigitsValue(s: string, radix: nat): nat
    requires forall i :: 0 <= i < |s| ==> DigitValue(s[i], radix) >= 0
    decreases |s|
  {
    if |s| == 0 then 0
    else DigitsValue(s[..|s| - 1], radix) * radix + DigitValue(s[|s| - 1], radix)
  }

  /** The magnitude `parseInt` reads after the sign: a `0x`/`0X` prefix
      selects hexadecimal, then the longest run of digits is read; no digits
      is NaN (None). */
  function ParseMagnitude(u: string): Option<nat> {
    var hex := |u| >= 2 && u[0] == '0' && (u[1] == 'x' || u[1] == 'X');
    var radix := if hex then 16 else 10;
    var body := if hex then u[2..] else u;
    var k := DigitRun(body, radix);
    if k == 0 then None else Some(DigitsValue(body[..k], radix))
  }

  /** One optional sign, then the magnitude. */
  function ParseSigned(t: string): Option<int> {
    if |t| > 0 && (t[0] == '-' || t[0] == '+') then
      match ParseMagnitude(t[1..])
      case None => None
      case Some(v) => var x: int := v; Some(if t[0] == '-' then -x else x)
    else
      match ParseMagnitude(t)
      case None => None
      case Some(v) => Some(v)
  }

  /** `parseInt(s)` with no radix: leading whitespace is skipped, then a
      signed magnitude is read. */
  function ParseInt(s: string): (r: Option<int>)
    ensures AllWhite(s) ==> r.None?
    ensures NoDigit(s) ==> r.None?
  {
    NoDigitNoInt(s);
    ParseSigned(TrimStart(s))
  }

  predicate NoDigit(s: string) {
    forall i :: 0 <= i < |s| ==> !IsDigit(s[i])
  }

  lemma NoDigitSuffix(s: string, k: nat)
    requires k <= |s| && NoDigit(s)
    ensures NoDigit(s[k..])
  {
    assert forall i :: 0 <= i < |s| - k ==> s[k..][i] == s[k + i];
  }

  lemma NoDigitNoInt(s: string)
    ensures NoDigit(s) ==> ParseSigned(TrimStart(s)).None?
  {
    if NoDigit(s) {
      var t := TrimStart(s);
      NoDigitSuffix(s, |s| - |t|);
      NoDigitNoSigned(t);
    }
  }

  lemma NoDigitNoSigned(t: string)
    requires NoDigit(t)
    ensures ParseSigned(t).None?
  {
    if |t| > 0 && (t[0] == '-' || t[0] == '+') {
      NoDigitSuffix(t, 1);
      NoDigitNoNumber(t[1..]);
    } else {
      NoDigitNoNumber(t);
    }
  }

  /** Text without a decimal digit holds no magnitude: a hexadecimal one
      starts with '0'. */
  lemma NoDigitNoNumber(u: string)
    requires NoDigit(u)
    ensures ParseMagnitude(u).None?
  {
    if |u| > 0 {
      assert DigitValue(u[0], 10) < 0;
    }
  }

  lemma {:induction false} DigitRunOfDigits(s: string)
    requires forall i :: 0 <= i < |s| ==> IsDigit(s[i])
    ensures DigitRun(s, 10) == |s|
    decreases |s|
  {
    if |s| > 0 {
      DigitRunOfDigits(s[1..]);
    }
  }

  lemma {:induction false} DecimalValue(n: nat)
    ensures DigitsValue(NatToText(n), 10) == n
    decreases n
  {
    if n >= 10 {
      var s := NatToText(n);
      DecimalValue(n / 10);
      assert s[..|s| - 1] == NatToText(n / 10);
    }
  }

  lemma MagnitudeOfText(n: nat)
    ensures ParseMagnitude(NatToText(n)) == Some(n)
  {
    var s := NatToText(n);
    DigitRunOfDigits(s);
    DecimalValue(n);
    assert !(|s| >= 2 && s[0] == '0');
    assert s[..|s|] == s;
  }

  lemma SignedOfNatural(n: nat)
    ensures ParseSigned(NatToText(n)) == Some(n)
  {
    var t := NatToText(n);
    MagnitudeOfText(n);
    assert IsDigit(t[0]);
    assert t[0] != '-' && t[0] != '+';
  }

  lemma SignedOfNegative(n: int)
    requires n < 0
    ensures ParseSigned("-" + NatToText(-n)) == Some(n)
  {
    MagnitudeOfText(-n);
    SignedOfMinus(NatToText(-n), -n);
  }

  lemma SignedOfMinus(m: string, v: nat)
    requires ParseMagnitude(m) == Some(v)
    ensures ParseSigned("-" + m) == Some(-(v as int))
  {
    var t := "-" + m;
    assert t[0] == '-' && t[1..] == m;
  }

  lemma SignedOfText(n: int)
    ensures ParseSigned(IntToText(n)) == Some(n)
  {
    if n < 0 {
      SignedOfNegative(n);
    } else {
      SignedOfNatural(n);
    }
  }

  /** `parseInt(String(n)) === n` for every integer. */
  lemma ParseIntOfText(n: int)
    ensures ParseInt(IntToText(n)) == Some(n)
  {
    var t := IntToText(n);
    assert t[0] == '-' || IsDigit(t[0]);
    assert !IsWhite(t[0]);
    TrimStartOfTrimmed(t);
    SignedOfText(n);
  }
}
