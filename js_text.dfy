/**
 * The JavaScript string operations the client relies on, with the semantics the
 * ECMAScript standard gives them: `trim`, the `\s` class, `includes`, `split` on a
 * one-character separator, the decimal rendering of an integer in a template
 * literal, and `parseInt` without a radix. Strings are sequences of code points.
 */
module JsText {
  import opened Wrappers

  // ---------------------------------------------------------------------------
  // Whitespace, trim, blank
  // ---------------------------------------------------------------------------

  /** WhiteSpace and LineTerminator code points (ECMA-262, sections 12.2 and 12.3):
    * what `trim` strips, what `parseInt` skips and what `\s` matches. */
  predicate IsSpace(c: char) {
    || c == '\t' || c == '\n' || c == '\U{000B}' || c == '\U{000C}' || c == '\r'
    || c == ' ' || c == '\U{00A0}' || c == '\U{1680}' || ('\U{2000}' <= c <= '\U{200A}')
    || c == '\U{2028}' || c == '\U{2029}' || c == '\U{202F}' || c == '\U{205F}'
    || c == '\U{3000}' || c == '\U{FEFF}'
  }

  /** `s.trimStart()`: the suffix left after the leading whitespace. */
  function TrimStart(s: string): (r: string)
    ensures |r| <= |s| && r == s[|s| - |r|..]
    ensures r == [] || !IsSpace(r[0])
    ensures forall i :: 0 <= i < |s| - |r| ==> IsSpace(s[i])
  {
    if s != [] && IsSpace(s[0]) then TrimStart(s[1..]) else s
  }

  /** `s.trimEnd()`: the prefix left before the trailing whitespace. */
  function TrimEnd(s: string): (r: string)
    ensures |r| <= |s| && r == s[..|r|]
    ensures r == [] || !IsSpace(r[|r| - 1])
    ensures forall i :: |r| <= i < |s| ==> IsSpace(s[i])
  {
    if s != [] && IsSpace(s[|s| - 1]) then TrimEnd(s[..|s| - 1]) else s
  }

  /** `s.trim()`: the piece of `s` left once the whitespace before and after it is
    * removed; it neither starts nor ends with whitespace. */
  function Trim(s: string): (r: string)
    ensures |r| <= |s|
    ensures exists k :: OccursAt(s, r, k) && (forall i :: 0 <= i < k ==> IsSpace(s[i])) &&
                        (forall i :: k + |r| <= i < |s| ==> IsSpace(s[i]))
    ensures r == [] || (!IsSpace(r[0]) && !IsSpace(r[|r| - 1]))
  {
    var t := TrimStart(s);
    var r := TrimEnd(t);
    TrimmedEdges(s, t, r);
    r
  }

  /** The trimmed piece starts where the leading whitespace ends, and only
    * whitespace follows it. */
  lemma TrimmedEdges(s: string, t: string, r: string)
    requires |t| <= |s| && t == s[|s| - |t|..] && forall i :: 0 <= i < |s| - |t| ==> IsSpace(s[i])
    requires |r| <= |t| && r == t[..|r|] && forall i :: |r| <= i < |t| ==> IsSpace(t[i])
    ensures var k := |s| - |t|;
      OccursAt(s, r, k) && (forall i :: 0 <= i < k ==> IsSpace(s[i])) &&
      (forall i :: k + |r| <= i < |s| ==> IsSpace(s[i]))
  {
    var k := |s| - |t|;
    assert s[k..k + |r|] == t[..|r|];
    forall i | k + |r| <= i < |s| ensures IsSpace(s[i]) {
      assert s[i] == t[i - k];
    }
  }

  /** `!s.trim()`: the text is empty after trimming. */
  predicate IsBlank(s: string) {
    Trim(s) == []
  }

  /** A text is blank exactly when every one of its characters is whitespace. */
  lemma BlankIffAllSpace(s: string)
    ensures IsBlank(s) <==> forall i :: 0 <= i < |s| ==> IsSpace(s[i])
  {
    var t := TrimStart(s);
    if IsBlank(s) && t != [] {
      assert false;
    }
  }

  /** The empty text is blank. */
  lemma EmptyIsBlank()
    ensures IsBlank("")
  {
    assert TrimStart("") == "";
  }

  /** A text whose first character is not whitespace is not blank. */
  lemma NotBlankWhenStartsVisible(s: string)
    requires s != [] && !IsSpace(s[0])
    ensures !IsBlank(s)
  {
    BlankIffAllSpace(s);
  }

  /** JavaScript truthiness of an optional string: present and non-empty. */
  predicate Truthy(o: Option<string>) {
    o.Some? && o.value != ""
  }

  /** `o || fallback` for an optional string. */
  function OrElse(o: Option<string>, fallback: string): (r: string)
    ensures Truthy(o) ==> r == o.value
    ensures !Truthy(o) ==> r == fallback
  {
    if Truthy(o) then o.value else fallback
  }

  // ---------------------------------------------------------------------------
  // includes
  // ---------------------------------------------------------------------------

  predicate IsPrefix(p: string, s: string) {
    |p| <= |s| && s[..|p|] == p
  }

  /** `t` occurs in `s` starting at index `i`. */
  predicate OccursAt(s: string, t: string, i: int) {
    0 <= i && i + |t| <= |s| && s[i..i + |t|] == t
  }

  /** `s.includes(t)`, scanning start positions from the left. */
  predicate Includes(s: string, t: string)
    decreases |s|
  {
    IsPrefix(t, s) || (s != [] && Includes(s[1..], t))
  }

  /** The scan finds `t` exactly when `t` occurs somewhere in `s`. */
  lemma {:induction false} IncludesIffOccurs(s: string, t: string)
    ensures Includes(s, t) <==> exists i :: OccursAt(s, t, i)
    decreases |s|
  {
    if IsPrefix(t, s) {
      assert OccursAt(s, t, 0);
    } else if s == [] {
      forall i | OccursAt(s, t, i) ensures false {
      }
    } else {
      IncludesIffOccurs(s[1..], t);
      if Includes(s[1..], t) {
        var i :| OccursAt(s[1..], t, i);
        assert OccursAt(s, t, i + 1);
      }
      forall i | OccursAt(s, t, i) ensures Includes(s[1..], t) {
        assert i != 0;
        assert OccursAt(s[1..], t, i - 1);
      }
    }
  }

  /** The empty text occurs in every text. */
  lemma IncludesEmpty(s: string)
    ensures Includes(s, "")
  {
    assert IsPrefix("", s);
  }

  /** Nothing non-empty occurs in the empty text. */
  lemma NothingInEmpty(t: string)
    requires t != ""
    ensures !Includes("", t)
  {
  }

  // ---------------------------------------------------------------------------
  // split on one character, and its inverse
  // ---------------------------------------------------------------------------

  /** Number of occurrences of `c` in `s`. */
  function Count(s: string, c: char): nat {
    if s == [] then 0 else (if s[0] == c then 1 else 0) + Count(s[1..], c)
  }

  /** `s.split(sep)` for a one-character separator: the pieces between separators. */
  function Split(s: string, sep: char): (parts: seq<string>)
    ensures |parts| == Count(s, sep) + 1
    ensures forall k :: 0 <= k < |parts| ==> sep !in parts[k]
    decreases |s|
  {
    if s == [] then [""]
    else if s[0] == sep then [""] + Split(s[1..], sep)
    else
      var rest := Split(s[1..], sep);
      [[s[0]] + rest[0]] + rest[1..]
  }

  /** `parts.join(sep)`. */
  function Join(parts: seq<string>, sep: char): string
    decreases |parts|
  {
    if |parts| == 0 then ""
    else if |parts| == 1 then parts[0]
    else parts[0] + [sep] + Join(parts[1..], sep)
  }

  /** Splitting loses nothing: joining the pieces back gives the original text. */
  lemma {:induction false} JoinSplit(s: string, sep: char)
    ensures Join(Split(s, sep), sep) == s
    decreases |s|
  {
    if s == [] {
    } else if s[0] == sep {
      JoinSplit(s[1..], sep);
      assert s == [sep] + s[1..];
    } else {
      JoinSplit(s[1..], sep);
      var rest := Split(s[1..], sep);
      if |rest| == 1 {
        assert Join(rest, sep) == rest[0];
      } else {
        assert Join(rest, sep) == rest[0] + [sep] + Join(rest[1..], sep);
        var parts := [[s[0]] + rest[0]] + rest[1..];
        assert parts[1..] == rest[1..];
      }
    }
  }

  /** Text free of the separator followed by more text stays whole in the first piece. */
  lemma {:induction false} SplitAfterPlain(p: string, t: string, sep: char)
    requires sep !in p
    ensures Split(p + t, sep) == [p + Split(t, sep)[0]] + Split(t, sep)[1..]
    decreases |p|
  {
    if p != [] {
      SplitAfterPlain(p[1..], t, sep);
      assert (p + t)[1..] == p[1..] + t;
      assert [p[0]] + (p[1..] + Split(t, sep)[0]) == p + Split(t, sep)[0];
    } else {
      var sp := Split(t, sep);
      assert p + t == t && p + sp[0] == sp[0];
      assert sp == [sp[0]] + sp[1..];
    }
  }

  /** Joining pieces free of the separator and splitting again gives the pieces back. */
  lemma {:induction false} SplitJoin(parts: seq<string>, sep: char)
    requires |parts| >= 1
    requires forall k :: 0 <= k < |parts| ==> sep !in parts[k]
    ensures Split(Join(parts, sep), sep) == parts
    decreases |parts|
  {
    if |parts| == 1 {
      SplitAfterPlain(parts[0], "", sep);
      assert parts[0] + "" == parts[0];
    } else {
      var rest := Join(parts[1..], sep);
      SplitJoin(parts[1..], sep);
      assert Split([sep] + rest, sep) == [""] + Split(rest, sep);
      SplitAfterPlain(parts[0], [sep] + rest, sep);
      assert parts[0] + [sep] + rest == parts[0] + ([sep] + rest);
      assert parts[0] + "" == parts[0];
      assert parts == [parts[0]] + parts[1..];
    }
  }

  /** The first piece of a split is the prefix before the first separator. */
  lemma {:induction false} FirstPiece(s: string, sep: char)
    ensures IsPrefix(Split(s, sep)[0], s)
    ensures sep in s ==> |Split(s, sep)[0]| < |s| && s[|Split(s, sep)[0]|] == sep
    ensures sep !in s ==> Split(s, sep)[0] == s
    decreases |s|
  {
    if s != [] && s[0] != sep {
      FirstPiece(s[1..], sep);
      assert sep in s ==> sep in s[1..];
      assert sep !in s ==> sep !in s[1..];
    }
  }

  // ---------------------------------------------------------------------------
  // Integers as text
  // ---------------------------------------------------------------------------

  predicate IsDecimalDigit(c: char) {
    '0' <= c <= '9'
  }

  function DigitChar(d: nat): (c: char)
    requires d < 10
    ensures IsDecimalDigit(c) && (c as int) - ('0' as int) == d
  {
    "0123456789"[d]
  }

  /** The decimal numeral of a natural number, without leading zeros. */
  function NatToString(n: nat): (s: string)
    ensures |s| >= 1
    ensures forall k :: 0 <= k < |s| ==> IsDecimalDigit(s[k])
    ensures (s[0] == '0') == (n == 0)
  {
    if n < 10 then [DigitChar(n)] else NatToString(n / 10) + [DigitChar(n % 10)]
  }

  /** `${n}` for an integer: an optional minus sign and the decimal numeral. */
  function IntToString(n: int): (s: string)
    ensures |s| >= 1 && (s[0] == '-') == (n < 0)
    ensures forall k :: 0 < k < |s| ==> IsDecimalDigit(s[k])
  {
    if n < 0 then "-" + NatToString(-n) else NatToString(n)
  }

  /** The value of `c` as a digit in base `radix` (10 or 16), if it is one. */
  function DigitValue(c: char, radix: nat): (v: Option<nat>)
    ensures v.Some? ==> v.value < radix
  {
    if '0' <= c <= '9' && (c as int) - ('0' as int) < radix then Some((c as int) - ('0' as int))
    else if radix == 16 && 'a' <= c <= 'f' then Some((c as int) - ('a' as int) + 10)
    else if radix == 16 && 'A' <= c <= 'F' then Some((c as int) - ('A' as int) + 10)
    else None
  }

  /** The longest prefix of `s` made of base-`radix` digits. */
  function LeadingDigits(s: string, radix: nat): (z: string)
    ensures IsPrefix(z, s)
    ensures forall k :: 0 <= k < |z| ==> DigitValue(z[k], radix).Some?
    ensures |z| < |s| ==> DigitValue(s[|z|], radix).None?
  {
    if s != [] && DigitValue(s[0], radix).Some? then [s[0]] + LeadingDigits(s[1..], radix) else []
  }

  /** The number a string of base-`radix` digits denotes, most significant digit first. */
  function DigitsValue(z: string, radix: nat): nat
    requires forall k :: 0 <= k < |z| ==> DigitValue(z[k], radix).Some?
  {
    if z == [] then 0 else DigitsValue(z[..|z| - 1], radix) * radix + DigitValue(z[|z| - 1], radix).value
  }

  /** `parseInt(s)` with no radix: skip leading whitespace, read an optional sign, take
    * base 16 after a `0x`/`0X` prefix and base 10 otherwise, and read the longest run of
    * digits; `None` stands for `NaN` (no digits at all). Minus zero is read as 0. */
  function ParseInt(s: string): (r: Option<int>)
    ensures TrimStart(s) == [] ==> r.None?
    ensures r.Some? && r.value < 0 ==> TrimStart(s)[0] == '-'
  {
    var t := TrimStart(s);
    var negative := t != [] && t[0] == '-';
    var u := if t != [] && (t[0] == '-' || t[0] == '+') then t[1..] else t;
    match ParseUnsigned(u)
    case None => None
    case Some(m) => Some(if negative then -(m as int) else m)
  }

  /** The unsigned part of `parseInt`: base 16 after a `0x`/`0X` prefix, base 10
    * otherwise, and the longest run of digits; `None` when there is no digit. */
  function ParseUnsigned(u: string): (r: Option<nat>)
  {
    var hex := |u| >= 2 && u[0] == '0' && (u[1] == 'x' || u[1] == 'X');
    var radix := if hex then 16 else 10;
    var z := LeadingDigits(if hex then u[2..] else u, radix);
    if z == [] then None else Some(DigitsValue(z, radix))
  }

  /** A decimal numeral is read back by the unsigned part of `parseInt`. */
  lemma ParseUnsignedOfNumeral(m: nat)
    ensures ParseUnsigned(NatToString(m)) == Some(m)
  {
    var u := NatToString(m);
    assert u[0] == '0' ==> u == "0";
    LeadingDigitsOfNumeral(m);
    DigitsValueOfNatToString(m);
  }

  /** A decimal numeral reads back as the number it was written from. */
  lemma {:induction false} DigitsValueOfNatToString(n: nat)
    ensures DigitsValue(NatToString(n), 10) == n
  {
    var s := NatToString(n);
    if n >= 10 {
      DigitsValueOfNatToString(n / 10);
      assert s[..|s| - 1] == NatToString(n / 10);
    }
  }

  lemma {:induction false} LeadingDigitsOfNumeral(n: nat)
    ensures LeadingDigits(NatToString(n), 10) == NatToString(n)
  {
    var s := NatToString(n);
    AllDigitsRead(s);
  }

  lemma {:induction false} AllDigitsRead(s: string)
    requires forall k :: 0 <= k < |s| ==> IsDecimalDigit(s[k])
    ensures LeadingDigits(s, 10) == s
  {
    if s != [] {
      AllDigitsRead(s[1..]);
    }
  }

  /** Rendering an integer and parsing it back is the identity. */
  lemma ParseIntOfIntToString(n: int)
    ensures ParseInt(IntToString(n)) == Some(n)
  {
    ParseIntOfIntToStringThen(n, "");
    assert IntToString(n) + "" == IntToString(n);
  }

  // ---------------------------------------------------------------------------
  // Select values
  // ---------------------------------------------------------------------------

  /** The value a `<Select>` field holds: text (the empty placeholder option, or text
    * the code put there), or the number of the option that was picked. */
  datatype SelectValue = Text(text: string) | Number(n: int)

  /** The value is truthy: non-empty text, or a number other than 0. */
  predicate Chosen(v: SelectValue) {
    match v
    case Text(t) => t != ""
    case Number(n) => n != 0
  }

  /** `String(v)`. */
  function SelectText(v: SelectValue): string {
    match v
    case Text(t) => t
    case Number(n) => IntToString(n)
  }

  /** `parseInt(v)`, which reads `String(v)`: a picked number reads back as itself,
    * and text is read as `parseInt` reads it. */
  function ParseSelect(v: SelectValue): (r: Option<int>)
    ensures v.Number? ==> r == Some(v.n)
    ensures v.Text? ==> r == ParseInt(v.text)
  {
    if v.Number? then ParseIntOfIntToString(v.n); ParseInt(SelectText(v)) else ParseInt(SelectText(v))
  }

  /** The option of id 0 counts as nothing picked, while the same id put in as text
    * counts as picked. */
  lemma ZeroNotChosen()
    ensures !Chosen(Number(0)) && Chosen(Text(IntToString(0)))
  {
  }

  /** `parseInt` of a text starting with a digit, with or without a minus sign in
    * front, is the unsigned reading of the digits, negated after the sign. */
  lemma ParseIntOfSigned(negative: bool, u: string, s: string)
    requires u != [] && IsDecimalDigit(u[0])
    requires s == (if negative then "-" else "") + u
    ensures ParseInt(s) ==
            match ParseUnsigned(u)
            case None => None
            case Some(m) => Some(if negative then -(m as int) else m)
  {
    assert s[0] == if negative then '-' else u[0];
    assert !IsSpace(s[0]);
    assert TrimStart(s) == s;
    if negative {
      assert s[1..] == u;
    } else {
      assert s == u;
    }
  }

  /** A rendered integer followed by more text is the sign, then the numeral
    * followed by that text. */
  lemma IntToStringThen(n: int, rest: string)
    ensures IntToString(n) + rest == (if n < 0 then "-" else "") + (NatToString(if n < 0 then -n else n) + rest)
  {
  }

  lemma {:induction false} DigitsThenStop(s: string, rest: string)
    requires forall k :: 0 <= k < |s| ==> IsDecimalDigit(s[k])
    requires rest == [] || !IsDecimalDigit(rest[0])
    ensures LeadingDigits(s + rest, 10) == s
  {
    if s != [] {
      DigitsThenStop(s[1..], rest);
      assert (s + rest)[1..] == s[1..] + rest;
    } else {
      assert s + rest == rest;
    }
  }

  /** A numeral followed by text that neither continues it nor turns a leading "0"
    * into a "0x" prefix reads back as its number. */
  lemma UnsignedNumeralThen(m: nat, rest: string)
    requires rest == [] || (!IsDecimalDigit(rest[0]) && rest[0] != 'x' && rest[0] != 'X')
    ensures ParseUnsigned(NatToString(m) + rest) == Some(m)
  {
    var digits := NatToString(m);
    var u := digits + rest;
    DigitsThenStop(digits, rest);
    DigitsValueOfNatToString(m);
    if |u| >= 2 && u[0] == '0' {
      assert digits == "0";
      assert u[1] == rest[0];
    }
    assert u[0] == digits[0];
    assert LeadingDigits(u, 10) == digits;
  }

  /** `parseInt` stops at the first character that is not a digit: a rendered
    * integer followed by such a character (other than an "x" after "0") reads back
    * as that integer. */
  lemma ParseIntOfIntToStringThen(n: int, rest: string)
    requires rest == [] || (!IsDecimalDigit(rest[0]) && rest[0] != 'x' && rest[0] != 'X')
    ensures ParseInt(IntToString(n) + rest) == Some(n)
  {
    var m: nat := if n < 0 then -n else n;
    IntToStringThen(n, rest);
    UnsignedNumeralThen(m, rest);
    ParseIntOfSigned(n < 0, NatToString(m) + rest, IntToString(n) + rest);
  }

  /** Different integers have different renderings. */
  lemma IntToStringInjective(a: int, b: int)
    requires IntToString(a) == IntToString(b)
    ensures a == b
  {
    ParseIntOfIntToString(a);
    ParseIntOfIntToString(b);
  }

  // ---------------------------------------------------------------------------
  // Character maps
  // ---------------------------------------------------------------------------

  /** Applies a per-character map, e.g. the case folding `toLowerCase` performs. */
  function MapChars(s: string, f: char -> char): (r: string)
    ensures |r| == |s| && forall k :: 0 <= k < |s| ==> r[k] == f(s[k])
  {
    seq(|s|, k requires 0 <= k < |s| => f(s[k]))
  }
}
