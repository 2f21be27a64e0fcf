/** The two text cleaners used while rendering reports: the amount cleaner
    inside `formato_moneda` and `limpiar_texto`. */
module Formato {
  import opened Text
  import opened Numbers

  /** The amount string `formato_moneda` builds from text: every digit, the
      first `.` only, and a `-` only while nothing has been kept yet; commas,
      spaces and any other character are dropped. */
  function CleanAmount(s: string): (r: string)
    ensures forall i :: 0 <= i < |r| ==> IsDigit(r[i]) || r[i] == '.' || (r[i] == '-' && i == 0)
    ensures forall i, j :: 0 <= i < j < |r| && r[i] == '.' ==> r[j] != '.'
  {
    if s == [] then []
    else
      var p := CleanAmount(s[..|s| - 1]);
      var c := s[|s| - 1];
      if IsDigit(c) then p + [c]
      else if c == '.' && '.' !in p then p + [c]
      else if c == '-' && p == [] then p + [c]
      else p
  }

  /** The cleaning loop of `formato_moneda`, with its `tiene_punto` flag. */
  method CleanAmountLoop(s: string) returns (limpio: string)
    ensures limpio == CleanAmount(s)
  {
    limpio := "";
    var tienePunto := false;
    for i := 0 to |s|
      invariant limpio == CleanAmount(s[..i])
      invariant tienePunto <==> '.' in limpio
    {
      assert s[..i + 1][..i] == s[..i];
      var c := s[i];
      if IsDigit(c) {
        limpio := limpio + [c];
      } else if c == '.' && !tienePunto {
        limpio := limpio + [c];
        tienePunto := true;
      } else if c == '-' && |limpio| == 0 {
        limpio := limpio + [c];
      }
    }
    assert s[..|s|] == s;
  }

  /** The number `formato_moneda` formats: numbers pass through; text is
      cleaned and read with `float()`, and anything `float()` rejects, or an
      empty or bare `-` result, prints as 0.00. */
  function FormatoValue(v: RawValue): (r: real)
    ensures !v.TextValue? ==> r == NumberValue(v)
  {
    match v
    case Missing => 0.0
    case IntValue(i) => i as real
    case FloatValue(x) => x
    case TextValue(s) =>
      var limpio := CleanAmount(s);
      if limpio != "" && limpio != "-" then
        match FloatOf(limpio)
        case Some(x) => x
        case None => 0.0
      else 0.0
  }

  /** Appending digits to the input appends them to the cleaned amount. */
  lemma {:induction false} CleanAppendDigits(p: string, t: string)
    requires AllDigits(t)
    ensures CleanAmount(p + t) == CleanAmount(p) + t
  {
    if t == [] {
      assert p + t == p;
    } else {
      assert (p + t)[..|p + t| - 1] == p + t[..|t| - 1];
      CleanAppendDigits(p, t[..|t| - 1]);
      assert t == t[..|t| - 1] + [t[|t| - 1]];
    }
  }

  /** No digit is ever dropped: the digits of the cleaned amount are those of the input. */
  lemma {:induction false} CleanKeepsDigits(s: string)
    ensures Keep(CleanAmount(s), IsDigit) == Keep(s, IsDigit)
  {
    if s != [] {
      var p, c := s[..|s| - 1], s[|s| - 1];
      CleanKeepsDigits(p);
      var r := CleanAmount(s);
      if r == CleanAmount(p) + [c] {
        KeepAppend(CleanAmount(p), [c], IsDigit);
      } else {
        assert r == CleanAmount(p);
      }
      assert [c][..0] == [];
    }
  }

  lemma {:induction false} DigitsClean(a: string)
    requires AllDigits(a)
    ensures CleanAmount(a) == a
  {
    CleanAppendDigits([], a);
    assert [] + a == a;
  }

  lemma {:induction false} FirstDot(a: string)
    requires AllDigits(a)
    ensures CleanAmount(a + ['.']) == a + ['.']
  {
    DigitsClean(a);
    assert (a + ['.'])[..|a|] == a;
  }

  lemma {:induction false} LaterDotDropped(p: string)
    requires '.' in CleanAmount(p)
    ensures CleanAmount(p + ['.']) == CleanAmount(p)
  {
    assert (p + ['.'])[..|p|] == p;
  }

  lemma {:induction false} CommaDropped(p: string)
    ensures CleanAmount(p + [',']) == CleanAmount(p)
  {
    assert (p + [','])[..|p|] == p;
  }

  /** The cleaner on `a.b,c`: the first `.` stays and the `,` goes. */
  lemma {:induction false} CleanEuropean(a: string, b: string, c: string)
    requires AllDigits(a) && AllDigits(b) && AllDigits(c)
    ensures CleanAmount(a + ['.'] + b + [','] + c) == a + ['.'] + b + c
  {
    FirstDot(a);
    CleanAppendDigits(a + ['.'], b);
    CommaDropped(a + ['.'] + b);
    CleanAppendDigits(a + ['.'] + b + [','], c);
  }

  lemma {:induction false} RemoveOneDot(a: string, b: string)
    requires AllDigits(a) && AllDigits(b)
    ensures Remove(a + ['.'] + b, '.') == a + b
  {
    assert '.' !in a && '.' !in b;
    RemoveAbsent(a, '.');
    RemoveAbsent(b, '.');
    RemoveAppend(a, ['.'], '.');
    assert Remove(['.'], '.') == [] by { assert ['.'][..0] == []; }
    assert Remove(a + ['.'], '.') == a;
    RemoveAppend(a + ['.'], b, '.');
  }

  /** The separator rule on `a.b,c`: the `.` goes and the `,` becomes the mark. */
  lemma {:induction false} NormaliseEuropean(a: string, b: string, c: string)
    requires AllDigits(a) && AllDigits(b) && AllDigits(c)
    ensures NormaliseSeparators(a + ['.'] + b + [','] + c) == a + b + ['.'] + c
  {
    var w := a + ['.'] + b;
    forall i | 0 <= i < |w| ensures IsDigit(w[i]) || w[i] == '.' {
      if i < |a| { assert w[i] == a[i]; } else if i > |a| { assert w[i] == b[i - |a| - 1]; }
    }
    DecimalMarkIsLast(w, '.', ',', c);
    RemoveOneDot(a, b);
  }

  /** `formato_moneda` and `parse_number` read a European-style amount
      differently: on `a.b,c` the cleaner keeps the `.` and drops the `,`,
      giving `a.bc`, where the separator rule gives `ab.c`; so "1.234,56"
      prints as 1.23 while it parses as 1234.56. */
  lemma {:induction false} CleanerDisagreesWithSeparatorRule(a: string, b: string, c: string)
    requires AllDigits(a) && AllDigits(b) && AllDigits(c)
    ensures CleanAmount(a + ['.'] + b + [','] + c) == a + ['.'] + b + c
    ensures NormaliseSeparators(a + ['.'] + b + [','] + c) == a + b + ['.'] + c
  {
    CleanEuropean(a, b, c);
    NormaliseEuropean(a, b, c);
  }

  /** The same disagreement on the numbers themselves: `formato_moneda`
      reads `a.b,c` as `a.bc` while `parse_number` reads it as `ab.c`. */
  /** Text whose cleaned form is a literal prints as that literal's value. */
  lemma FormatoOfLiteral(s: string)
    requires IsDecimalLiteral(CleanAmount(s))
    ensures FormatoValue(TextValue(s)) == LiteralValue(CleanAmount(s))
  {
  }

  /** The disagreement above on the numbers themselves: `formato_moneda`
      reads `a.b,c` as the number `a.bc` (so "1.234,56" as 1.23456), while
      `parse_number` reads it as `ab.c` (`ParseEuropean`). */
  lemma FormatoEuropean(a: string, b: string, c: string)
    requires AllDigits(a) && AllDigits(b) && AllDigits(c) && |a| + |b| + |c| > 0
    ensures AllDigits(b + c)
    ensures FormatoValue(TextValue(a + ['.'] + b + [','] + c))
         == DigitsValue(a) as real + DigitsValue(b + c) as real / Pow10(|b + c|) as real
  {
    DigitsConcat(b, c);
    var s := a + ['.'] + b + [','] + c;
    CleanEuropean(a, b, c);
    assert a + ['.'] + b + c == a + ['.'] + (b + c);
    DigitsLiteral(a, b + c);
    FormatoOfLiteral(s);
  }

  /** `parse_number` reads `a.b,c` as the number `ab.c`: "1.234,56" as 1234.56. */
  lemma ParseEuropean(a: string, b: string, c: string)
    requires AllDigits(a) && AllDigits(b) && AllDigits(c) && |a| + |b| + |c| > 0
    ensures AllDigits(a + b)
    ensures NumberValue(TextValue(a + ['.'] + b + [','] + c))
         == DigitsValue(a + b) as real + DigitsValue(c) as real / Pow10(|c|) as real
  {
    DigitsConcat(a, b);
    var w := a + ['.'] + b;
    forall i | 0 <= i < |w| ensures IsDigit(w[i]) || w[i] == '.' {
      if i < |a| { assert w[i] == a[i]; } else if i > |a| { assert w[i] == b[i - |a| - 1]; }
    }
    RemoveOneDot(a, b);
    GroupedAmountValue(w, '.', ',', c);
  }

  lemma DigitsConcat(a: string, b: string)
    requires AllDigits(a) && AllDigits(b)
    ensures AllDigits(a + b)
  {
    forall i | 0 <= i < |a + b| ensures IsDigit((a + b)[i]) {
      if i < |a| { assert (a + b)[i] == a[i]; } else { assert (a + b)[i] == b[i - |a|]; }
    }
  }

  /** Past a leading `-`, the cleaned amount is digits with at most one `.`. */
  lemma {:induction false} UnsignedShape(s: string)
    ensures forall i :: 0 <= i < |Unsigned(CleanAmount(s))| ==>
      IsDigit(Unsigned(CleanAmount(s))[i]) || Unsigned(CleanAmount(s))[i] == '.'
    ensures forall i, j :: 0 <= i < j < |Unsigned(CleanAmount(s))| && Unsigned(CleanAmount(s))[i] == '.' ==>
      Unsigned(CleanAmount(s))[j] != '.'
  {
    var r := CleanAmount(s);
    if |r| > 0 && r[0] == '-' {
      var u := r[1..];
      assert forall i :: 0 <= i < |u| ==> u[i] == r[i + 1];
    }
  }

  /** Digits with at most one `.` form a literal exactly when a digit occurs. */
  lemma {:induction false} OneDotLiteral(u: string)
    requires forall i :: 0 <= i < |u| ==> IsDigit(u[i]) || u[i] == '.'
    requires forall i, j :: 0 <= i < j < |u| && u[i] == '.' ==> u[j] != '.'
    ensures AllDigits(IntPart(u)) && AllDigits(FracPart(u))
    ensures |IntPart(u)| + |FracPart(u)| > 0 <==> Keep(u, IsDigit) != []
  {
    if '.' in u {
      var k := IndexOf(u, '.');
      assert AllDigits(u[..k]);
      assert AllDigits(u[k + 1..]);
      DigitsBesideDot(u, k);
    } else {
      DigitsOfDigits(u);
    }
  }

  /** Whatever the input, the cleaned amount is one `float()` accepts
      exactly when the input holds a digit, so `formato_moneda` only falls
      back to 0.00 on text without digits. */
  lemma {:induction false} CleanAmountParses(s: string)
    ensures IsDecimalLiteral(CleanAmount(s)) <==> Keep(s, IsDigit) != []
  {
    var r := CleanAmount(s);
    CleanKeepsDigits(s);
    UnsignedShape(s);
    OneDotLiteral(Unsigned(r));
    DigitsOfUnsigned(r);
  }

  lemma {:induction false} DigitsOfDigits(u: string)
    requires AllDigits(u)
    ensures Keep(u, IsDigit) == u
  {
    KeepAll(u, IsDigit);
  }

  lemma SplitAround(u: string, k: nat)
    requires k < |u|
    ensures u == u[..k] + [u[k]] + u[k + 1..]
  {
  }

  /** The digits of `u`, whose one `.` sits at `k`, are the characters around it. */
  lemma DigitsBesideDot(u: string, k: nat)
    requires k < |u| && u[k] == '.'
    requires AllDigits(u[..k]) && AllDigits(u[k + 1..])
    ensures Keep(u, IsDigit) == u[..k] + u[k + 1..]
  {
    var a, b := u[..k], u[k + 1..];
    SplitAround(u, k);
    KeepAll(a, IsDigit);
    KeepAll(b, IsDigit);
    KeepAppend(a, ['.'], IsDigit);
    assert Keep(['.'], IsDigit) == [] by { assert ['.'][..0] == []; }
    assert Keep(a + ['.'], IsDigit) == a;
    KeepAppend(a + ['.'], b, IsDigit);
  }

  /** A leading `-` is not a digit. */
  lemma DigitsOfUnsigned(r: string)
    ensures Keep(Unsigned(r), IsDigit) == Keep(r, IsDigit)
  {
    if |r| > 0 && r[0] == '-' {
      assert r == ['-'] + r[1..];
      KeepAppend(['-'], r[1..], IsDigit);
      assert ['-'][..0] == [];
    }
  }

  /** The accented letters `limpiar_texto` keeps besides ASCII. */
  predicate KeptAccent(c: char) {
    c in "áéíóúÁÉÍÓÚñÑüÜ"
  }

  predicate PdfSafe(c: char) {
    c as int < 128 || KeptAccent(c)
  }

  /** Every character outside ASCII and the kept accents becomes a space. */
  function SafeText(t: string): (r: string)
    ensures |r| == |t|
    ensures forall i :: 0 <= i < |t| ==> r[i] == if PdfSafe(t[i]) then t[i] else ' '
  {
    if t == [] then [] else SafeText(t[..|t| - 1]) + [if PdfSafe(t[|t| - 1]) then t[|t| - 1] else ' ']
  }

  /** `limpiar_texto`: the loop that replaces unsafe characters by spaces,
      followed by `strip()`. */
  method LimpiarTexto(texto: string) returns (r: string)
    ensures r == Strip(SafeText(texto))
  {
    if texto == "" {
      return "";
    }
    var resultado := "";
    for i := 0 to |texto|
      invariant resultado == SafeText(texto[..i])
    {
      assert texto[..i + 1][..i] == texto[..i];
      var c := texto[i];
      if c as int < 128 {
        resultado := resultado + [c];
      } else if KeptAccent(c) {
        resultado := resultado + [c];
      } else {
        resultado := resultado + [' '];
      }
    }
    assert texto[..|texto|] == texto;
    r := Strip(resultado);
  }

  /** `strip()` keeps a stretch of its argument, so it keeps any property
      all characters had. */
  lemma {:induction false} StripKeeps(m: string, p: char -> bool)
    requires forall i :: 0 <= i < |m| ==> p(m[i])
    ensures forall i :: 0 <= i < |Strip(m)| ==> p(Strip(m)[i])
  {
    var d := LStrip(m);
    var r := RStrip(d);
    LStripSuffix(m);
    RStripPrefix(d);
    assert forall i :: 0 <= i < |d| ==> d[i] == m[|m| - |d| + i];
    assert forall i :: 0 <= i < |r| ==> r[i] == d[i];
  }

  /** The result of `strip()` has no white space at either end. */
  lemma {:induction false} StripEnds(m: string)
    ensures var r := Strip(m); r == [] || (!IsSpace(r[0]) && !IsSpace(r[|r| - 1]))
  {
    var d := LStrip(m);
    var r := RStrip(d);
    RStripPrefix(d);
    if r != [] {
      assert r[0] == d[0];
    }
  }

  /** The cleaned text holds only characters the PDF fonts can draw and has
      no white space at either end. */
  lemma {:induction false} LimpiarSafe(t: string)
    ensures forall i :: 0 <= i < |Strip(SafeText(t))| ==> PdfSafe(Strip(SafeText(t))[i])
    ensures var r := Strip(SafeText(t)); r == [] || (!IsSpace(r[0]) && !IsSpace(r[|r| - 1]))
  {
    var m := SafeText(t);
    assert forall i :: 0 <= i < |m| ==> PdfSafe(m[i]);
    StripKeeps(m, PdfSafe);
    StripEnds(m);
  }

  /** Safe characters are left alone. */
  lemma {:induction false} SafeTextOfSafe(t: string)
    requires forall i :: 0 <= i < |t| ==> PdfSafe(t[i])
    ensures SafeText(t) == t
  {
  }

  /** `limpiar_texto` is idempotent. */
  lemma LimpiarIdempotent(t: string)
    ensures Strip(SafeText(Strip(SafeText(t)))) == Strip(SafeText(t))
  {
    LimpiarSafe(t);
    SafeTextOfSafe(Strip(SafeText(t)));
    StripIdempotent(SafeText(t));
  }
}
