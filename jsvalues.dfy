/**
 * The handful of JavaScript value semantics the application's logic depends on:
 * record ids compared with `===`, truthiness of form values, and the string
 * methods `trim`, `toLowerCase`, `includes` and the global `parseInt`.
 */
module JsValues {
  import opened Wrappers

  /**
   * A record id as JavaScript holds it: a number (the seed ids and `Date.now()`),
   * the number `NaN` (what `parseInt` returns for a non-numeric route id), or a
   * string (the value of a `<select>` option).
   */
  datatype Id = Num(n: int) | NaN | Str(s: string)

  /** `a === b` on ids: no coercion between numbers and strings, and `NaN` equals nothing. */
  predicate StrictEq(a: Id, b: Id) {
    a == b && !a.NaN?
  }

  lemma StrictEqNeverCoerces(n: int)
    ensures !StrictEq(Num(n), Str(DecimalString(if n < 0 then -n else n)))
    ensures !StrictEq(Str(DecimalString(if n < 0 then -n else n)), Num(n))
  {
  }

  /** Truthiness of an id-valued form field: `0`, `NaN` and `''` are falsy. */
  predicate Truthy(id: Id) {
    match id
    case Num(n) => n != 0
    case NaN => false
    case Str(s) => s != ""
  }

  // ---------------------------------------------------------------------------
  // String.prototype.trim

  /**
   * The characters ECMAScript `trim` removes: WhiteSpace (tab, vertical tab, form
   * feed, space, no-break space, byte order mark and the Zs separators) and
   * LineTerminator (line feed, carriage return, line and paragraph separators).
   */
  predicate IsJsWhiteSpace(c: char) {
    var u := c as int;
    u == 0x9 || u == 0xA || u == 0xB || u == 0xC || u == 0xD || u == 0x20 || u == 0xA0 ||
    u == 0x1680 || (0x2000 <= u <= 0x200A) || u == 0x2028 || u == 0x2029 || u == 0x202F ||
    u == 0x205F || u == 0x3000 || u == 0xFEFF
  }

  predicate AllWhiteSpace(s: string) {
    forall i :: 0 <= i < |s| ==> IsJsWhiteSpace(s[i])
  }

  /** `trimStart`. */
  function TrimStart(s: string): string
  {
    if s != [] && IsJsWhiteSpace(s[0]) then TrimStart(s[1..]) else s
  }

  /** `trimStart` drops exactly the leading white space: what stays is a suffix not starting with white space. */
  lemma {:induction false} TrimStartSpec(s: string)
    ensures |TrimStart(s)| <= |s| && TrimStart(s) == s[|s| - |TrimStart(s)|..]
    ensures AllWhiteSpace(s[..|s| - |TrimStart(s)|])
    ensures TrimStart(s) == [] || !IsJsWhiteSpace(TrimStart(s)[0])
  {
    if s != [] && IsJsWhiteSpace(s[0]) {
      TrimStartSpec(s[1..]);
      var n := |s| - |TrimStart(s)|;
      assert s[..n] == [s[0]] + s[1..][..n - 1];
    }
  }

  /** `trimEnd`. */
  function TrimEnd(s: string): string
  {
    if s != [] && IsJsWhiteSpace(s[|s| - 1]) then TrimEnd(s[..|s| - 1]) else s
  }

  /** `trimEnd` drops exactly the trailing white space: what stays is a prefix not ending in white space. */
  lemma {:induction false} TrimEndSpec(s: string)
    ensures |TrimEnd(s)| <= |s| && TrimEnd(s) == s[..|TrimEnd(s)|]
    ensures AllWhiteSpace(s[|TrimEnd(s)|..])
    ensures TrimEnd(s) == [] || !IsJsWhiteSpace(TrimEnd(s)[|TrimEnd(s)| - 1])
  {
    if s != [] && IsJsWhiteSpace(s[|s| - 1]) {
      var init := s[..|s| - 1];
      TrimEndSpec(init);
      var n := |TrimEnd(s)|;
      assert s[n..] == init[n..] + [s[|s| - 1]];
    }
  }

  /** `s.trim()`. */
  function Trim(s: string): string
  {
    TrimEnd(TrimStart(s))
  }

  /**
   * What `trim` removes is white space at either end, what stays is one
   * contiguous slice of `s`, and that slice neither starts nor ends with white space.
   */
  lemma TrimIsSlice(s: string) returns (lo: nat)
    ensures lo + |Trim(s)| <= |s|
    ensures Trim(s) == s[lo..lo + |Trim(s)|]
    ensures AllWhiteSpace(s[..lo]) && AllWhiteSpace(s[lo + |Trim(s)|..])
    ensures Trim(s) == [] || (!IsJsWhiteSpace(Trim(s)[0]) && !IsJsWhiteSpace(Trim(s)[|Trim(s)| - 1]))
  {
    var t := TrimStart(s);
    TrimStartSpec(s);
    TrimEndSpec(t);
    lo := |s| - |t|;
    var r := TrimEnd(t);
    assert r == t[..|r|];
    assert t[|r|..] == s[lo + |r|..];
  }

  /** The emptiness check of every form: a value is blank after trimming exactly when it is all white space. */
  lemma {:induction false} TrimEmptyIff(s: string)
    ensures Trim(s) == [] <==> AllWhiteSpace(s)
  {
    var lo := TrimIsSlice(s);
    if Trim(s) == [] {
      assert s == s[..lo] + s[lo..];
    } else {
      assert !IsJsWhiteSpace(s[lo]);
    }
  }

  lemma TrimIdempotent(s: string)
    ensures Trim(Trim(s)) == Trim(s)
  {
    var t := Trim(s);
    var _ := TrimIsSlice(s);
    if t != [] {
      assert TrimStart(t) == t;
      assert TrimEnd(t) == t;
    }
  }

  // ---------------------------------------------------------------------------
  // String.prototype.toLowerCase and String.prototype.includes

  /**
   * The lower-case mapping of one character for the capitals whose mapping is
   * one character 32 code points on: ASCII `A`..`Z` and the Latin-1 capitals
   * `À`..`Þ` other than the multiplication sign `×`.
   */
  function LowerChar(c: char): (r: char)
  {
    if 'A' <= c <= 'Z' || ('\U{C0}' <= c <= '\U{DE}' && c != '\U{D7}') then (c as int + 32) as char else c
  }

  /** `s.toLowerCase()` on the ASCII and Latin-1 capitals; every other character is kept. */
  function Lower(s: string): (r: string)
    ensures |r| == |s|
    ensures forall i :: 0 <= i < |s| ==> r[i] == LowerChar(s[i])
  {
    if s == [] then [] else [LowerChar(s[0])] + Lower(s[1..])
  }

  lemma LowerIdempotent(s: string)
    ensures Lower(Lower(s)) == Lower(s)
  {
    assert forall i :: 0 <= i < |s| ==> LowerChar(LowerChar(s[i])) == LowerChar(s[i]);
  }

  /** Whether `t` occurs in `s` starting at position `i`. */
  predicate OccursAt(s: string, t: string, i: int) {
    0 <= i && i + |t| <= |s| && s[i..i + |t|] == t
  }

  /** `s.includes(t)`, scanning start positions from the left. */
  predicate Includes(s: string, t: string)
    decreases |s|
  {
    t <= s || (s != [] && Includes(s[1..], t))
  }

  /** An occurrence in the tail is an occurrence one position further in the whole. */
  lemma OccursAtShift(s: string, t: string, i: int)
    requires s != [] && 0 <= i
    ensures OccursAt(s[1..], t, i) <==> OccursAt(s, t, i + 1)
  {
    if i + |t| <= |s| - 1 {
      assert s[1..][i..i + |t|] == s[i + 1..i + 1 + |t|];
    }
  }

  /** `includes` holds exactly when there is a position where `t` occurs. */
  lemma {:induction false} IncludesIff(s: string, t: string)
    ensures Includes(s, t) <==> exists i :: OccursAt(s, t, i)
    decreases |s|
  {
    if t <= s {
      assert OccursAt(s, t, 0);
    } else if s == [] {
      assert forall i :: !OccursAt(s, t, i);
    } else {
      IncludesIff(s[1..], t);
      if Includes(s[1..], t) {
        var i :| OccursAt(s[1..], t, i);
        OccursAtShift(s, t, i);
      } else {
        forall i ensures !OccursAt(s, t, i) {
          if i == 0 {
            assert OccursAt(s, t, 0) ==> t <= s;
          } else if 1 <= i {
            OccursAtShift(s, t, i - 1);
          }
        }
      }
    }
  }

  /** An empty search term is included in every string: empty searches match everything. */
  lemma IncludesEmpty(s: string)
    ensures Includes(s, "")
  {
  }

  // ---------------------------------------------------------------------------
  // parseInt with the default radix: decimal, or hexadecimal after `0x`/`0X`

  predicate IsDigit(c: char) {
    '0' <= c <= '9'
  }

  predicate IsHexDigit(c: char) {
    IsDigit(c) || 'a' <= c <= 'f' || 'A' <= c <= 'F'
  }

  /** The value of a hexadecimal digit, in either case. */
  function HexValue(c: char): (v: nat)
    requires IsHexDigit(c)
    ensures v < 16 && (IsDigit(c) <==> v < 10)
  {
    if IsDigit(c) then c as int - '0' as int
    else if 'a' <= c <= 'f' then c as int - 'a' as int + 10
    else c as int - 'A' as int + 10
  }

  /** A digit of base `radix` (10 or 16). */
  predicate IsDigitIn(c: char, radix: nat) {
    IsHexDigit(c) && HexValue(c) < radix
  }

  lemma DecimalDigitsAreDigits(c: char)
    ensures IsDigitIn(c, 10) <==> IsDigit(c)
  {
  }

  /** The longest prefix of `s` made of digits of base `radix`. */
  function DigitPrefix(s: string, radix: nat): (r: string)
    ensures r <= s
    ensures forall i :: 0 <= i < |r| ==> IsDigitIn(r[i], radix)
    ensures |r| == |s| || !IsDigitIn(s[|r|], radix)
  {
    if s != [] && IsDigitIn(s[0], radix) then [s[0]] + DigitPrefix(s[1..], radix) else []
  }

  /** The number written by digits of base `radix`, most significant first. */
  function DigitsValue(ds: string, radix: nat): nat
    requires forall i :: 0 <= i < |ds| ==> IsDigitIn(ds[i], radix)
  {
    if ds == [] then 0
    else
      var init, last := ds[..|ds| - 1], ds[|ds| - 1];
      assert forall i :: 0 <= i < |init| ==> init[i] == ds[i];
      assert IsDigitIn(last, radix);
      var high: nat := DigitsValue(init, radix);
      high * radix + HexValue(last)
  }

  /** The text after the sign starts with the `0x` or `0X` prefix. */
  predicate HasHexPrefix(body: string) {
    |body| >= 2 && body[0] == '0' && (body[1] == 'x' || body[1] == 'X')
  }

  /**
   * `parseInt(s)` with no radix: leading white space is skipped and an
   * optional sign read; a `0x`/`0X` prefix then selects base 16, otherwise
   * the base is 10; the longest run of digits of that base is read, and no
   * digits gives `NaN`.
   */
  function ParseInt(s: string): (r: Id)
    ensures r.Num? || r.NaN?
  {
    var t := TrimStart(s);
    var negative := t != [] && t[0] == '-';
    var body := if t != [] && (t[0] == '-' || t[0] == '+') then t[1..] else t;
    var radix := if HasHexPrefix(body) then 16 else 10;
    var ds := DigitPrefix(if HasHexPrefix(body) then body[2..] else body, radix);
    if ds == [] then NaN
    else if negative then Num(-(DigitsValue(ds, radix) as int))
    else Num(DigitsValue(ds, radix))
  }

  /** Text without a single decimal digit parses to `NaN`: even a hexadecimal number starts with `0`. */
  lemma {:induction false} ParseIntNeedsDigit(s: string)
    requires forall i :: 0 <= i < |s| ==> !IsDigit(s[i])
    ensures ParseInt(s).NaN?
  {
    var t := TrimStart(s);
    TrimStartSpec(s);
    var body := if t != [] && (t[0] == '-' || t[0] == '+') then t[1..] else t;
    if body != [] {
      var at := |s| - |body|;
      assert body[0] == s[at];
      DecimalDigitsAreDigits(body[0]);
    }
  }

  /** The hexadecimal prefix is read in either case, after an optional sign; a bare prefix is `NaN`. */
  lemma ParseIntHex()
    ensures ParseInt("0x2") == Num(2)
    ensures ParseInt(" -0X1a") == Num(-26)
    ensures ParseInt("0x").NaN? && ParseInt("0xg").NaN?
  {
    assert TrimStart("0x2") == "0x2";
    assert DigitPrefix("2", 16) == "2";
    assert DigitsValue("2", 16) == 2 by {
      assert "2"[..0] == [];
    }
    assert TrimStart(" -0X1a") == "-0X1a";
    assert DigitPrefix("1a", 16) == "1a";
    assert DigitsValue("1a", 16) == 26 by {
      assert "1a"[..1] == "1";
      assert "1"[..0] == [];
    }
    assert TrimStart("0x") == "0x";
    assert TrimStart("0xg") == "0xg";
  }

  function DigitChar(d: nat): (c: char)
    requires d < 10
    ensures IsDigit(c) && HexValue(c) == d
  {
    ('0' as int + d) as char
  }

  /** The decimal spelling of `n` that a template literal such as `/equipment/${id}` produces. */
  function DecimalString(n: nat): (r: string)
    ensures r != [] && forall i :: 0 <= i < |r| ==> IsDigit(r[i])
  {
    if n < 10 then [DigitChar(n)] else DecimalString(n / 10) + [DigitChar(n % 10)]
  }

  lemma {:induction false} DigitsValueOfDecimal(n: nat)
    ensures forall i :: 0 <= i < |DecimalString(n)| ==> IsDigitIn(DecimalString(n)[i], 10)
    ensures DigitsValue(DecimalString(n), 10) == n
  {
    var s := DecimalString(n);
    forall i | 0 <= i < |s| ensures IsDigitIn(s[i], 10) {
      DecimalDigitsAreDigits(s[i]);
    }
    if n >= 10 {
      DigitsValueOfDecimal(n / 10);
      assert s[..|s| - 1] == DecimalString(n / 10);
    }
  }

  lemma {:induction false} DigitPrefixOfDigits(s: string, radix: nat)
    requires forall i :: 0 <= i < |s| ==> IsDigitIn(s[i], radix)
    ensures DigitPrefix(s, radix) == s
  {
    if s != [] {
      DigitPrefixOfDigits(s[1..], radix);
    }
  }

  /** A route built from a numeric id parses back to that id, so the edit forms find their record. */
  lemma ParseIntDecimal(n: nat)
    ensures ParseInt(DecimalString(n)) == Num(n)
  {
    var s := DecimalString(n);
    assert TrimStart(s) == s;
    assert !HasHexPrefix(s) by {
      if |s| >= 2 {
        assert IsDigit(s[1]);
      }
    }
    DigitsValueOfDecimal(n);
    DigitPrefixOfDigits(s, 10);
  }
}
