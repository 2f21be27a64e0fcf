/** `parse_number`: turning a stored amount cell into a number, whatever
    locale its separators follow. */
module Numbers {
  import opened Wrappers
  import opened Text

  /** The value of a sheet cell or JSON field as `parse_number` receives it. */
  datatype RawValue = Missing | IntValue(i: int) | FloatValue(x: real) | TextValue(s: string)

  /** The characters `parse_number` keeps: digits, `.`, `,` and `-`. */
  predicate IsNumericChar(c: char) {
    IsDigit(c) || c == '.' || c == ',' || c == '-'
  }

  /** The separator rule: when both `,` and `.` occur the later one is the
      decimal mark and the other one is dropped; a lone `,` is the decimal mark. */
  function NormaliseSeparators(s: string): (r: string)
    ensures ',' !in r
  {
    if ',' in s && '.' in s then
      if RFind(s, ',') > RFind(s, '.') then ReplaceChar(Remove(s, '.'), ',', '.')
      else Remove(s, ',')
    else if ',' in s then ReplaceChar(s, ',', '.')
    else s
  }

  function Pow10(n: nat): (p: nat)
    ensures p > 0
  {
    if n == 0 then 1 else 10 * Pow10(n - 1)
  }

  /** The natural number a string of decimal digits denotes. */
  function DigitsValue(s: string): nat
    requires AllDigits(s)
  {
    if s == [] then 0 else DigitsValue(s[..|s| - 1]) * 10 + (s[|s| - 1] as int - '0' as int)
  }

  function Unsigned(s: string): string {
    if |s| > 0 && s[0] == '-' then s[1..] else s
  }

  function IntPart(u: string): string {
    if '.' in u then u[..IndexOf(u, '.')] else u
  }

  function FracPart(u: string): string {
    if '.' in u then u[IndexOf(u, '.') + 1..] else []
  }

  /** The strings over digits, `.` and `-` that Python's `float()` accepts:
      an optional `-`, digits, at most one `.`, and at least one digit. */
  predicate IsDecimalLiteral(s: string) {
    var u := Unsigned(s);
    AllDigits(IntPart(u)) && AllDigits(FracPart(u)) && |IntPart(u)| + |FracPart(u)| > 0
  }

  function LiteralValue(s: string): real
    requires IsDecimalLiteral(s)
  {
    var u := Unsigned(s);
    var m := DigitsValue(IntPart(u)) as real + DigitsValue(FracPart(u)) as real / Pow10(|FracPart(u)|) as real;
    if |s| > 0 && s[0] == '-' then -m else m
  }

  /** `float(s)` on a string made of digits, `.` and `-`: None where Python raises. */
  function FloatOf(s: string): Option<real> {
    if IsDecimalLiteral(s) then Some(LiteralValue(s)) else None
  }

  /** What `parse_number(value)` returns. */
  function NumberValue(v: RawValue): real {
    match v
    case Missing => 0.0
    case IntValue(i) => i as real
    case FloatValue(x) => x
    case TextValue(s) =>
      if s == "" then 0.0
      else
        var limpio := Strip(Keep(s, IsNumericChar));
        if limpio == "" || limpio == "-" then 0.0
        else match FloatOf(NormaliseSeparators(limpio))
          case Some(x) => x
          case None => 0.0
  }

  /** `parse_number`: filters the string character by character, then applies
      the separator rule and `float()`, falling back to 0.0. */
  method ParseNumber(v: RawValue) returns (x: real)
    ensures x == NumberValue(v)
  {
    match v
    case Missing => x := 0.0;
    case IntValue(i) => x := i as real;
    case FloatValue(y) => x := y;
    case TextValue(s) =>
      if s == "" {
        return 0.0;
      }
      var limpio := "";
      for i := 0 to |s|
        invariant limpio == Keep(s[..i], IsNumericChar)
      {
        assert s[..i + 1][..i] == s[..i];
        if IsNumericChar(s[i]) {
          limpio := limpio + [s[i]];
        }
      }
      assert s[..|s|] == s;
      var t := Strip(limpio);
      if t == "" || t == "-" {
        return 0.0;
      }
      var f := FloatOf(NormaliseSeparators(t));
      x := if f.Some? then f.value else 0.0;
  }

  lemma NumericNotSpace(c: char)
    requires IsNumericChar(c)
    ensures !IsSpace(c)
  {
  }

  /** Filtering leaves no white space, so the `strip()` after it changes nothing. */
  lemma StripAfterFilter(s: string)
    ensures Strip(Keep(s, IsNumericChar)) == Keep(s, IsNumericChar)
  {
    var k := Keep(s, IsNumericChar);
    forall i | 0 <= i < |k| ensures !IsSpace(k[i]) {
      NumericNotSpace(k[i]);
    }
    StripNoSpace(k);
  }

  /** Currency symbols, spaces and letters around an amount do not change its value. */
  lemma NoiseIgnored(s: string)
    ensures NumberValue(TextValue(s)) == NumberValue(TextValue(Keep(s, IsNumericChar)))
  {
    KeepIdempotent(s, IsNumericChar);
  }

  /** After filtering and the separator rule only digits, `.` and `-` remain,
      the alphabet `FloatOf` is written for. */
  lemma NormalisedAlphabet(s: string)
    requires forall i :: 0 <= i < |s| ==> IsNumericChar(s[i])
    ensures forall i :: 0 <= i < |NormaliseSeparators(s)| ==>
      var c := NormaliseSeparators(s)[i]; IsDigit(c) || c == '.' || c == '-'
  {
    var r := NormaliseSeparators(s);
    forall i | 0 <= i < |r| ensures IsDigit(r[i]) || r[i] == '.' || r[i] == '-' {
      assert r[i] != ',';
      if ',' in s && '.' in s && RFind(s, ',') > RFind(s, '.') {
        var m := Remove(s, '.');
        RemoveClass(s, '.', IsNumericChar);
        assert r[i] == if m[i] == ',' then '.' else m[i];
      } else if ',' in s && '.' in s {
        RemoveClass(s, ',', IsNumericChar);
      } else if ',' in s {
        assert r[i] == if s[i] == ',' then '.' else s[i];
      }
    }
  }

  lemma {:induction false} ReplaceCharAppend(a: string, b: string, x: char, y: char)
    ensures ReplaceChar(a + b, x, y) == ReplaceChar(a, x, y) + ReplaceChar(b, x, y)
  {
    var l, r := ReplaceChar(a + b, x, y), ReplaceChar(a, x, y) + ReplaceChar(b, x, y);
    assert |l| == |r|;
    forall i | 0 <= i < |l| ensures l[i] == r[i] {
      if i < |a| { assert (a + b)[i] == a[i]; } else { assert (a + b)[i] == b[i - |a|]; }
    }
  }

  lemma ReplaceCharAbsent(s: string, x: char, y: char)
    requires x !in s
    ensures ReplaceChar(s, x, y) == s
  {
    var r := ReplaceChar(s, x, y);
    assert forall i :: 0 <= i < |s| ==> s[i] != x;
    assert forall i :: 0 <= i < |s| ==> r[i] == s[i];
  }

  /** Replacing the one `,` of `a + "," + b` gives `a + "." + b`. */
  lemma ReplaceMark(a: string, b: string)
    requires ',' !in a && ',' !in b
    ensures ReplaceChar(a + [','] + b, ',', '.') == a + ['.'] + b
  {
    ReplaceCharAppend(a + [','], b, ',', '.');
    ReplaceCharAppend(a, [','], ',', '.');
    ReplaceCharAbsent(a, ',', '.');
    ReplaceCharAbsent(b, ',', '.');
    assert ReplaceChar([','], ',', '.') == ['.'];
  }

  /** Removing the thousands marks of `w + [d] + frac` touches only `w`. */
  lemma RemoveMarks(w: string, t: char, d: char, frac: string)
    requires d != t && t !in frac
    ensures Remove(w + [d] + frac, t) == Remove(w, t) + [d] + frac
  {
    RemoveAppend(w + [d], frac, t);
    RemoveAppend(w, [d], t);
    RemoveAbsent(frac, t);
    assert [d][..0] == [];
  }

  /** The last index of the mark in `w + [d] + frac` is `|w|` when `frac` has none. */
  lemma LastMark(w: string, d: char, frac: string)
    requires d !in frac
    ensures RFind(w + [d] + frac, d) == |w|
  {
    var s := w + [d] + frac;
    assert s[|w|] == d;
    var k := RFind(s, d);
    assert k >= |w|;
  }

  /** The thousands mark `t` occurs in `w + [d] + frac` only inside `w`. */
  lemma MarksBefore(w: string, t: char, d: char, frac: string)
    requires d != t && t !in frac
    ensures RFind(w + [d] + frac, t) < |w|
    ensures t in w + [d] + frac <==> t in w
  {
    var s := w + [d] + frac;
    forall i | |w| <= i < |s| ensures s[i] != t {
      if i > |w| { assert s[i] == frac[i - |w| - 1]; }
    }
    if t in w {
      var k :| 0 <= k < |w| && w[k] == t;
      assert s[k] == t;
    }
  }

  lemma RemoveOnlyDigits(w: string, t: char)
    requires forall i :: 0 <= i < |w| ==> IsDigit(w[i]) || w[i] == t
    ensures AllDigits(Remove(w, t))
  {
    var dw := Remove(w, t);
    RemoveClass(w, t, c => IsDigit(c) || c == t);
  }

  /** The separator rule on an amount written as digits with thousands marks
      `t`, then the decimal mark `d`, then decimals: the thousands marks go and
      `d` becomes `.`, whichever of `,` and `.` the writer used for each. */
  lemma DecimalMarkIsLast(w: string, t: char, d: char, frac: string)
    requires (t == '.' && d == ',') || (t == ',' && d == '.')
    requires forall i :: 0 <= i < |w| ==> IsDigit(w[i]) || w[i] == t
    requires AllDigits(frac)
    ensures NormaliseSeparators(w + [d] + frac) == Remove(w, t) + ['.'] + frac
  {
    var s := w + [d] + frac;
    assert d !in frac && t !in frac;
    assert d in s by { assert s[|w|] == d; }
    LastMark(w, d, frac);
    MarksBefore(w, t, d, frac);
    RemoveMarks(w, t, d, frac);
    var dw := Remove(w, t);
    RemoveOnlyDigits(w, t);
    assert ',' !in dw && '.' !in dw;
    if t in w {
      if d == ',' {
        ReplaceMark(dw, frac);
      }
    } else {
      RemoveAbsent(w, t);
      if d == ',' {
        ReplaceMark(w, frac);
      }
    }
  }

  lemma DigitsLiteral(ip: string, frac: string)
    requires AllDigits(ip) && AllDigits(frac) && |ip| + |frac| > 0
    ensures IsDecimalLiteral(ip + ['.'] + frac)
    ensures LiteralValue(ip + ['.'] + frac)
         == DigitsValue(ip) as real + DigitsValue(frac) as real / Pow10(|frac|) as real
  {
    var u := ip + ['.'] + frac;
    assert u[|ip|] == '.';
    assert '.' !in ip;
    assert IndexOf(u, '.') == |ip| by {
      assert u[..|ip|] == ip;
    }
    assert u[..|ip|] == ip && u[|ip| + 1..] == frac;
    assert Unsigned(u) == u by {
      if |ip| > 0 { assert u[0] == ip[0]; }
    }
  }

  /** On a string of kept characters `parse_number` is the separator rule and `float()`. */
  lemma CleanTextValue(s: string)
    requires forall i :: 0 <= i < |s| ==> IsNumericChar(s[i])
    ensures NumberValue(TextValue(s))
         == var f := FloatOf(NormaliseSeparators(s)); if f.Some? then f.value else 0.0
  {
    KeepAll(s, IsNumericChar);
    StripAfterFilter(s);
    if s == "-" {
      assert ',' !in s && '.' !in s;
      assert Unsigned(s) == [];
    }
  }

  lemma GroupedChars(w: string, t: char, d: char, frac: string)
    requires (t == '.' && d == ',') || (t == ',' && d == '.')
    requires forall i :: 0 <= i < |w| ==> IsDigit(w[i]) || w[i] == t
    requires AllDigits(frac)
    ensures forall i :: 0 <= i < |w + [d] + frac| ==> IsNumericChar((w + [d] + frac)[i])
  {
    var s := w + [d] + frac;
    forall i | 0 <= i < |s| ensures IsNumericChar(s[i]) {
      if i < |w| { assert s[i] == w[i]; }
      else if i > |w| { assert s[i] == frac[i - |w| - 1]; }
    }
  }

  /** The value of an amount written with thousands marks and a decimal mark
      in either convention: "1.234,56" and "1,234.56" both read as 1234.56. */
  lemma GroupedAmountValue(w: string, t: char, d: char, frac: string)
    requires (t == '.' && d == ',') || (t == ',' && d == '.')
    requires forall i :: 0 <= i < |w| ==> IsDigit(w[i]) || w[i] == t
    requires AllDigits(frac) && |Remove(w, t)| + |frac| > 0
    ensures AllDigits(Remove(w, t))
    ensures NumberValue(TextValue(w + [d] + frac))
         == DigitsValue(Remove(w, t)) as real + DigitsValue(frac) as real / Pow10(|frac|) as real
  {
    var dw := Remove(w, t);
    RemoveOnlyDigits(w, t);
    GroupedChars(w, t, d, frac);
    assert |w| + |frac| > 0;
    CleanTextValue(w + [d] + frac);
    DecimalMarkIsLast(w, t, d, frac);
    DigitsLiteral(dw, frac);
  }

  /** Text without digits, and a bare sign, read as 0.0 instead of raising. */
  lemma NoDigitsExample()
    ensures NumberValue(TextValue("abc")) == 0.0
    ensures NumberValue(TextValue("-")) == 0.0
  {
    assert NumberValue(TextValue("abc")) == 0.0 by {
      KeepNone("abc", IsNumericChar);
      StripAfterFilter("abc");
    }
    assert NumberValue(TextValue("-")) == 0.0 by {
      KeepAll("-", IsNumericChar);
      StripAfterFilter("-");
    }
  }
}
