/**
 * String operations the components rely on: `toLowerCase` (ASCII letters only),
 * `includes`/`indexOf`, `trim`, `split(' - ')` and `parseInt`.
 */
module Text {
  import opened Optional

  // ---------------------------------------------------------------- lower case

  predicate IsUpperAscii(c: char)
  {
    'A' <= c <= 'Z'
  }

  /** `toLowerCase` on one character; letters outside ASCII are left as they are. */
  function LowerChar(c: char): (r: char)
    ensures !IsUpperAscii(r)
    ensures !IsUpperAscii(c) ==> r == c
    ensures IsUpperAscii(c) ==> r as int == c as int + 32
  {
    if IsUpperAscii(c) then (c as int + 32) as char else c
  }

  function Lower(s: string): (r: string)
    ensures |r| == |s|
    ensures forall i :: 0 <= i < |s| ==> r[i] == LowerChar(s[i])
  {
    seq(|s|, i requires 0 <= i < |s| => LowerChar(s[i]))
  }

  /** Lower-casing twice is lower-casing once. */
  lemma LowerIdempotent(s: string)
    ensures Lower(Lower(s)) == Lower(s)
  {
  }

  // ---------------------------------------------------------------- substring search

  /** `sub` occurs in `s` starting at index `k`. */
  predicate OccursAt(s: string, sub: string, k: int)
  {
    0 <= k && k + |sub| <= |s| && s[k..k + |sub|] == sub
  }

  function IndexFrom(s: string, sub: string, from: nat): (r: Option<nat>)
    ensures r.Some? ==> from <= r.value && OccursAt(s, sub, r.value)
    ensures r.Some? ==> forall k :: from <= k < r.value ==> !OccursAt(s, sub, k)
    ensures r.None? ==> forall k :: from <= k ==> !OccursAt(s, sub, k)
    decreases |s| - from
  {
    if from + |sub| > |s| then None
    else if s[from..from + |sub|] == sub then Some(from)
    else IndexFrom(s, sub, from + 1)
  }

  /** `s.indexOf(sub)`: the first index at which `sub` occurs, if any. */
  function IndexOf(s: string, sub: string): (r: Option<nat>)
    ensures r.Some? ==> OccursAt(s, sub, r.value) && forall k :: 0 <= k < r.value ==> !OccursAt(s, sub, k)
    ensures r.None? <==> forall k :: !OccursAt(s, sub, k)
  {
    IndexFrom(s, sub, 0)
  }

  /** `s.includes(sub)`. */
  predicate Includes(s: string, sub: string)
  {
    IndexOf(s, sub).Some?
  }

  lemma IncludesIff(s: string, sub: string)
    ensures Includes(s, sub) <==> exists k :: OccursAt(s, sub, k)
  {
  }

  /** A literal occurrence is also found by the lower-cased search. */
  lemma IncludesLower(s: string, sub: string)
    requires Includes(s, sub)
    ensures Includes(Lower(s), Lower(sub))
  {
    var k := IndexOf(s, sub).value;
    assert Lower(s)[k..k + |sub|] == Lower(sub) by {
      forall i | 0 <= i < |sub| ensures Lower(s)[k..k + |sub|][i] == Lower(sub)[i] {
        assert s[k..k + |sub|][i] == sub[i];
      }
    }
    assert OccursAt(Lower(s), Lower(sub), k);
  }

  // ---------------------------------------------------------------- trim

  /** The characters `String.prototype.trim` removes: white space and line terminators. */
  predicate IsJsSpace(c: char)
  {
    c == '\t' || c == '\n' || c == '\U{000B}' || c == '\U{000C}' || c == '\r' || c == ' ' ||
    c == '\U{00A0}' || c == '\U{1680}' || ('\U{2000}' <= c <= '\U{200A}') ||
    c == '\U{2028}' || c == '\U{2029}' || c == '\U{202F}' || c == '\U{205F}' ||
    c == '\U{3000}' || c == '\U{FEFF}'
  }

  /** `s` with its leading white space removed. */
  function TrimStart(s: string): (r: string)
    ensures |r| <= |s| && r == s[|s| - |r|..]
    ensures forall i :: 0 <= i < |s| - |r| ==> IsJsSpace(s[i])
    ensures |r| > 0 ==> !IsJsSpace(r[0])
  {
    if |s| > 0 && IsJsSpace(s[0]) then TrimStart(s[1..]) else s
  }

  /** `s` with its trailing white space removed. */
  function TrimEnd(s: string): (r: string)
    ensures |r| <= |s| && r == s[..|r|]
    ensures forall i :: |r| <= i < |s| ==> IsJsSpace(s[i])
    ensures |r| > 0 ==> !IsJsSpace(r[|r| - 1])
  {
    if |s| > 0 && IsJsSpace(s[|s| - 1]) then TrimEnd(s[..|s| - 1]) else s
  }

  /** `r` is `s[k..]` with only white space around it. */
  ghost predicate TrimmedAt(s: string, r: string, k: int)
  {
    0 <= k <= |s| - |r| && s[k..k + |r|] == r &&
    (forall i :: 0 <= i < k ==> IsJsSpace(s[i])) &&
    (forall i :: k + |r| <= i < |s| ==> IsJsSpace(s[i]))
  }

  /** `s.trim()`: the part of `s` between its leading and its trailing white space. */
  function Trim(s: string): (r: string)
    ensures |r| > 0 ==> !IsJsSpace(r[0]) && !IsJsSpace(r[|r| - 1])
    ensures TrimmedAt(s, r, |s| - |TrimStart(s)|)
  {
    var t := TrimStart(s);
    var r := TrimEnd(t);
    TrimAround(s, t, r);
    r
  }

  lemma TrimAround(s: string, t: string, r: string)
    requires |t| <= |s| && t == s[|s| - |t|..] && forall i :: 0 <= i < |s| - |t| ==> IsJsSpace(s[i])
    requires |r| <= |t| && r == t[..|r|] && forall i :: |r| <= i < |t| ==> IsJsSpace(t[i])
    ensures TrimmedAt(s, r, |s| - |t|)
  {
    var k := |s| - |t|;
    assert t == s[k..];
    assert r == t[..|r|];
    assert s[k..k + |r|] == r;
    assert forall i :: 0 <= i < k ==> IsJsSpace(s[i]);
    forall i | k + |r| <= i < |s| ensures IsJsSpace(s[i]) {
      assert s[i] == t[i - k];
      assert IsJsSpace(t[i - k]);
    }
  }

  /** Trimming a trimmed string changes nothing. */
  lemma TrimIdempotent(s: string)
    ensures Trim(Trim(s)) == Trim(s)
  {
  }

  // ---------------------------------------------------------------- split(' - ')

  /** The separator between the restaurant part and the dish part of a title. */
  const Separator: string := " - "

  /** `s.split(' - ')`: the segments between the successive, non-overlapping separators. */
  function Split(s: string): (parts: seq<string>)
    ensures |parts| >= 1
    decreases |s|
  {
    match IndexOf(s, Separator)
    case None => [s]
    case Some(i) => [s[..i]] + Split(s[i + |Separator|..])
  }

  /** `parts.join(' - ')`. */
  function Join(parts: seq<string>): string
  {
    if |parts| == 0 then ""
    else if |parts| == 1 then parts[0]
    else parts[0] + Separator + Join(parts[1..])
  }

  /** Joining the segments with the separator gives back the string. */
  lemma {:induction false} JoinSplit(s: string)
    ensures Join(Split(s)) == s
    decreases |s|
  {
    match IndexOf(s, Separator)
    case None =>
    case Some(i) =>
      var rest := s[i + |Separator|..];
      JoinSplit(rest);
      JoinCons(s[..i], Split(rest));
      AroundOccurrence(s, i);
  }

  /** Joining a first segment onto a non-empty list of segments puts a separator between. */
  lemma JoinCons(first: string, parts: seq<string>)
    requires |parts| >= 1
    ensures Join([first] + parts) == first + Separator + Join(parts)
  {
    assert ([first] + parts)[1..] == parts;
  }

  /** A string is the text before an occurrence of the separator, the separator and the rest. */
  lemma AroundOccurrence(s: string, i: nat)
    requires OccursAt(s, Separator, i)
    ensures s == s[..i] + Separator + s[i + |Separator|..]
  {
    assert s == s[..i] + s[i..i + |Separator|] + s[i + |Separator|..];
  }

  /** No segment contains the separator. */
  lemma {:induction false} SplitSegmentsFree(s: string)
    ensures forall k :: 0 <= k < |Split(s)| ==> !Includes(Split(s)[k], Separator)
    decreases |s|
  {
    match IndexOf(s, Separator)
    case None =>
    case Some(i) =>
      var rest := s[i + |Separator|..];
      SplitSegmentsFree(rest);
      PrefixBeforeFirstIsFree(s, Separator, i);
  }

  /** The text before the first occurrence of `sub` does not contain `sub`. */
  lemma PrefixBeforeFirstIsFree(s: string, sub: string, i: nat)
    requires |sub| > 0 && IndexOf(s, sub) == Some(i)
    ensures !Includes(s[..i], sub)
  {
    forall k | OccursAt(s[..i], sub, k) ensures false {
      assert k < i;
      assert s[..i][k..k + |sub|] == s[k..k + |sub|];
      assert OccursAt(s, sub, k);
    }
  }

  // ---------------------------------------------------------------- parseInt

  /** The value of `c` as a digit in base `radix` (10 or 16), if it is one. */
  function DigitValue(c: char, radix: nat): (r: Option<nat>)
    ensures r.Some? ==> r.value < radix
  {
    if '0' <= c <= '9' && (c as int - '0' as int) < radix then Some(c as int - '0' as int)
    else if radix == 16 && 'a' <= c <= 'f' then Some(c as int - 'a' as int + 10)
    else if radix == 16 && 'A' <= c <= 'F' then Some(c as int - 'A' as int + 10)
    else None
  }

  /** The length of the longest prefix of `s` made of digits of base `radix`. */
  function DigitRun(s: string, radix: nat): (n: nat)
    ensures n <= |s|
    ensures forall i :: 0 <= i < n ==> DigitValue(s[i], radix).Some?
    ensures n < |s| ==> DigitValue(s[n], radix).None?
  {
    if |s| > 0 && DigitValue(s[0], radix).Some? then 1 + DigitRun(s[1..], radix) else 0
  }

  /** The number written by the digits `ds` in base `radix`, most significant first. */
  function DigitsValue(ds: string, radix: nat): nat
    requires forall i :: 0 <= i < |ds| ==> DigitValue(ds[i], radix).Some?
  {
    if |ds| == 0 then 0
    else DigitsValue(ds[..|ds| - 1], radix) * radix + DigitValue(ds[|ds| - 1], radix).value
  }

  /** The sign step: a leading `-` makes the result negative; `+` or `-` is consumed. */
  function StripSign(t: string): (bool, string)
  {
    if |t| > 0 && (t[0] == '-' || t[0] == '+') then (t[0] == '-', t[1..]) else (false, t)
  }

  /** The prefix step: `0x` or `0X` switches to base 16 and is consumed. */
  function StripRadixPrefix(u: string): (nat, string)
  {
    if |u| >= 2 && u[0] == '0' && (u[1] == 'x' || u[1] == 'X') then (16, u[2..]) else (10, u)
  }

  /** The digit step: the value of the leading digits, `None` when there are none. */
  function ReadDigits(body: string, radix: nat): Option<nat>
  {
    var n := DigitRun(body, radix);
    if n == 0 then None else Some(DigitsValue(body[..n], radix))
  }

  /**
   * `parseInt(s)`: skip leading white space, read an optional sign, a `0x`/`0X` prefix
   * switching to base 16, then the longest run of digits; `None` is NaN (no digit at all).
   * So blank text, and text that starts with neither a sign nor a decimal digit, is NaN,
   * and only a leading `-` gives a negative number.
   */
  function ParseInt(s: string): (r: Option<int>)
    ensures |TrimStart(s)| == 0 ==> r.None?
    ensures |TrimStart(s)| > 0 && TrimStart(s)[0] !in "+-0123456789" ==> r.None?
    ensures r.Some? && r.value < 0 ==> TrimStart(s)[0] == '-'
  {
    var (negative, u) := StripSign(TrimStart(s));
    var (radix, body) := StripRadixPrefix(u);
    match ReadDigits(body, radix)
    case None => None
    case Some(v) => Some(if negative then -(v as int) else v)
  }

  /** The decimal digits of `n`, as `String(n)` writes a non-negative integer. */
  function Decimal(n: nat): (ds: string)
    ensures |ds| >= 1
    ensures forall i :: 0 <= i < |ds| ==> '0' <= ds[i] <= '9'
    ensures |ds| >= 2 ==> ds[0] != '0'
  {
    if n < 10 then [('0' as int + n) as char]
    else Decimal(n / 10) + [('0' as int + n % 10) as char]
  }

  /** `String(n)` for an integer `n`. */
  function IntToString(n: int): string
  {
    if n < 0 then "-" + Decimal(-n) else Decimal(n)
  }

  lemma {:induction false} DecimalValue(n: nat)
    ensures forall i :: 0 <= i < |Decimal(n)| ==> DigitValue(Decimal(n)[i], 10).Some?
    ensures DigitsValue(Decimal(n), 10) == n
  {
    var ds := Decimal(n);
    if n >= 10 {
      DecimalValue(n / 10);
      assert ds[..|ds| - 1] == Decimal(n / 10);
    }
  }

  /** A string made only of digits is one run. */
  lemma {:induction false} DigitRunAll(s: string, radix: nat)
    requires forall i :: 0 <= i < |s| ==> DigitValue(s[i], radix).Some?
    ensures DigitRun(s, radix) == |s|
  {
    if |s| > 0 {
      assert forall i :: 0 <= i < |s[1..]| ==> s[1..][i] == s[i + 1];
      DigitRunAll(s[1..], radix);
    }
  }

  /** The digits of `n` are read back whole, in base 10. */
  lemma ReadsDecimal(n: nat)
    ensures StripRadixPrefix(Decimal(n)) == (10, Decimal(n))
    ensures ReadDigits(Decimal(n), 10) == Some(n)
  {
    var ds := Decimal(n);
    DecimalValue(n);
    DigitRunAll(ds, 10);
    assert ds[..|ds|] == ds;
  }

  /** `parseInt(String(n))` is `n`: the parse reads back every integer it is shown. */
  lemma ParseIntRoundTrip(n: int)
    ensures ParseInt(IntToString(n)) == Some(n)
  {
    var s := IntToString(n);
    var ds := if n < 0 then Decimal(-n) else Decimal(n);
    assert !IsJsSpace(s[0]);
    assert TrimStart(s) == s;
    assert StripSign(s) == (n < 0, ds);
    if n < 0 {
      ReadsDecimal(-n);
    } else {
      ReadsDecimal(n);
    }
  }

  /** NaN cases: nothing, or no digit after the white space and the sign. */
  lemma ParseIntNaN()
    ensures ParseInt("") == None
    ensures ParseInt("-") == None
    ensures ParseInt("abc") == None
  {
    assert TrimStart("abc") == "abc";
    assert DigitRun("abc", 10) == 0;
  }

  /** Without leading white space or a sign, `parseInt` reads the digits after the prefix. */
  lemma ParseIntPlain(s: string)
    requires |s| > 0 && !IsJsSpace(s[0]) && s[0] != '-' && s[0] != '+'
    ensures var (radix, body) := StripRadixPrefix(s);
      (ReadDigits(body, radix).None? ==> ParseInt(s).None?) &&
      (ReadDigits(body, radix).Some? ==> ParseInt(s) == Some(ReadDigits(body, radix).value as int))
  {
    assert TrimStart(s) == s;
    assert StripSign(s) == (false, s);
  }

  /** A prefix of digits is read and the rest ignored. */
  lemma ParseIntReadsPrefix()
    ensures ParseInt("12px") == Some(12)
  {
    var s := "12px";
    ParseIntPlain(s);
    assert StripRadixPrefix(s) == (10, s);
    Reads12px();
  }

  lemma Reads12px()
    ensures ReadDigits("12px", 10) == Some(12)
  {
    assert "12px"[1..] == "2px" && "2px"[1..] == "px";
    assert DigitRun("px", 10) == 0;
    assert DigitRun("2px", 10) == 1;
    assert DigitRun("12px", 10) == 2;
    assert "12px"[..2] == "12";
    assert "12"[..1] == "1" && "1"[..0] == "";
    assert DigitsValue("1", 10) == 1;
  }

  /** `0x` switches to base 16. */
  lemma ParseIntHex()
    ensures ParseInt("0x1f") == Some(31)
  {
    var s := "0x1f";
    ParseIntPlain(s);
    assert s[2..] == "1f";
    assert StripRadixPrefix(s) == (16, "1f");
    ReadsHex1f();
  }

  /** The hexadecimal digits `1f` read as 31. */
  lemma ReadsHex1f()
    ensures ReadDigits("1f", 16) == Some(31)
  {
    assert "1f"[1..] == "f" && "f"[1..] == "";
    assert DigitRun("f", 16) == 1;
    assert DigitRun("1f", 16) == 2;
    assert "1f"[..2] == "1f" && "1f"[..1] == "1" && "1"[..0] == "";
    assert DigitsValue("1", 16) == 1;
  }

  // ---------------------------------------------------------------- parseInt(text) || d

  /** `parseInt(text) || d`: the parsed number, or `d` when it is NaN or zero. */
  function NumberOr(text: string, d: int): (r: int)
    ensures r != 0 || d == 0
  {
    OrDefault(ParseInt(text), d)
  }

  /** A non-zero number typed in decimal is read back unchanged. */
  lemma NumberOrReadsTyped(n: int, d: int)
    requires n != 0
    ensures NumberOr(IntToString(n), d) == n
  {
    ParseIntRoundTrip(n);
  }

  /** Text that is not a number falls back to the default. */
  lemma NumberOrFallsBack(d: int)
    ensures NumberOr("", d) == d
    ensures NumberOr("abc", d) == d
  {
    ParseIntNaN();
  }
}
