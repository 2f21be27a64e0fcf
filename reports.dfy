/** The row selections behind the weekly follow-up and the overdue report:
    which rows are pending, which are overdue or due soon, in what order they
    are listed and what they add up to. Dates enter through a calendar: for a
    date cell it gives the whole number of days from today to that date, or
    `None` when the cell does not parse (the row is then skipped, as the
    reports' `try`/`except` does). */
module Reports {
  import opened Wrappers
  import opened Documents
  import opened Sorting

  /** Days from today to the date written in a cell; negative for a past date. */
  type Calendario = string -> Option<int>

  // ---------------------------------------------------------------- sums

  /** `sum(key(x) for x in s)`. */
  function SumBy<T>(s: seq<T>, key: T -> real): real {
    if s == [] then 0.0 else SumBy(s[..|s| - 1], key) + key(s[|s| - 1])
  }

  lemma {:induction false} SumByAppend<T>(a: seq<T>, b: seq<T>, key: T -> real)
    ensures SumBy(a + b, key) == SumBy(a, key) + SumBy(b, key)
  {
    if b != [] {
      assert (a + b)[..|a + b| - 1] == a + b[..|b| - 1];
      SumByAppend(a, b[..|b| - 1], key);
    } else {
      assert a + b == a;
    }
  }

  lemma SumBySnoc<T>(s: seq<T>, x: T, key: T -> real)
    ensures SumBy(s + [x], key) == SumBy(s, key) + key(x)
  {
    assert (s + [x])[..|s|] == s;
  }

  /** Taking out the element at `k` takes its key out of the sum. */
  lemma {:induction false} SumByRemove<T>(s: seq<T>, k: nat, key: T -> real)
    requires k < |s|
    ensures SumBy(s, key) == key(s[k]) + SumBy(s[..k] + s[k + 1..], key)
  {
    assert s == s[..k] + [s[k]] + s[k + 1..];
    SumByAppend(s[..k] + [s[k]], s[k + 1..], key);
    SumByAppend(s[..k], [s[k]], key);
    SumByAppend(s[..k], s[k + 1..], key);
    assert SumBy([s[k]], key) == key(s[k]) by {
      assert [s[k]][..0] == [];
    }
  }

  /** A sum does not depend on the order of its terms, so a total taken
      before a list is sorted is also the total of the sorted list. */
  lemma {:induction false} SumByPermutation<T>(a: seq<T>, b: seq<T>, key: T -> real)
    requires multiset(a) == multiset(b)
    ensures SumBy(a, key) == SumBy(b, key)
  {
    if a != [] {
      var x := a[|a| - 1];
      var init := a[..|a| - 1];
      assert x in b by {
        assert a == init + [x];
        assert x in multiset(a);
      }
      var k :| 0 <= k < |b| && b[k] == x;
      var rest := b[..k] + b[k + 1..];
      PermutationStep(a, b, k);
      SumByPermutation(init, rest, key);
      SumBySnoc(init, x, key);
      SumByRemove(b, k, key);
    } else {
      assert b == [];
    }
  }

  /** Taking the last element out of `a` and an equal element out of `b`
      keeps the two multisets equal. */
  lemma PermutationStep<T>(a: seq<T>, b: seq<T>, k: nat)
    requires a != [] && k < |b| && b[k] == a[|a| - 1] && multiset(a) == multiset(b)
    ensures multiset(a[..|a| - 1]) == multiset(b[..k] + b[k + 1..])
  {
    MultisetRemove(b, k);
    assert a == a[..|a| - 1] + [a[|a| - 1]];
  }

  lemma MultisetRemove<T>(s: seq<T>, k: nat)
    requires k < |s|
    ensures multiset(s[..k] + s[k + 1..]) == multiset(s) - multiset{s[k]}
  {
    assert s == s[..k] + [s[k]] + s[k + 1..];
  }

  /** A sum of non-negative terms is non-negative. */
  lemma {:induction false} SumByNonNegative<T>(s: seq<T>, key: T -> real)
    requires forall i :: 0 <= i < |s| ==> key(s[i]) >= 0.0
    ensures SumBy(s, key) >= 0.0
  {
    if s != [] {
      SumByNonNegative(s[..|s| - 1], key);
    }
  }

  /** The amount still to be collected on a row. */
  function MontoDe(f: Factura): real { f.montoCobrar }

  // ---------------------------------------------------------- pending rows

  /** A row counts as unpaid unless its Pagado cell is exactly `TRUE`. */
  predicate Pendiente(f: Factura) { f.pagado != "TRUE" }

  /** `[f for f in facturas if f.get('Pagado') != 'TRUE']`. */
  function Pendientes(s: seq<Factura>): (r: seq<Factura>)
    ensures |r| <= |s|
    ensures forall f :: f in r <==> f in s && Pendiente(f)
  {
    if s == [] then []
    else
      var p := Pendientes(s[..|s| - 1]);
      var f := s[|s| - 1];
      assert s == s[..|s| - 1] + [f];
      if Pendiente(f) then p + [f] else p
  }

  /** A row with a count of days attached: days overdue, or days left. */
  datatype ConDias = ConDias(factura: Factura, dias: int)

  function MontoCon(e: ConDias): real { e.factura.montoCobrar }

  /** `reverse=True` on the day count: the most days first. */
  predicate MasDias(a: ConDias, b: ConDias) { a.dias >= b.dias }

  /** Ascending day count. */
  predicate MenosDias(a: ConDias, b: ConDias) { a.dias <= b.dias }

  lemma DayOrders()
    ensures TotalPreorder(MasDias) && TotalPreorder(MenosDias)
  {
  }

  // ------------------------------------------------------ weekly follow-up

  /** The overdue part of the weekly follow-up: rows whose due date parses
      and lies before today, with `abs(dias)` days overdue. */
  function Vencidas(s: seq<Factura>, cal: Calendario): (r: seq<ConDias>)
    ensures |r| <= |s|
  {
    if s == [] then []
    else
      var p := Vencidas(s[..|s| - 1], cal);
      var f := s[|s| - 1];
      assert s == s[..|s| - 1] + [f];
      match cal(f.fechaVencimiento)
      case Some(d) => if d < 0 then p + [ConDias(f, -d)] else p
      case None => p
  }

  /** The upcoming part: rows due today or within the next seven days, with
      the days left. */
  function Proximas(s: seq<Factura>, cal: Calendario): (r: seq<ConDias>)
    ensures |r| <= |s|
  {
    if s == [] then []
    else
      var p := Proximas(s[..|s| - 1], cal);
      var f := s[|s| - 1];
      assert s == s[..|s| - 1] + [f];
      match cal(f.fechaVencimiento)
      case Some(d) => if 0 <= d <= 7 then p + [ConDias(f, d)] else p
      case None => p
  }

  lemma VencidasSnoc(s: seq<Factura>, f: Factura, cal: Calendario)
    ensures Vencidas(s + [f], cal) ==
      match cal(f.fechaVencimiento)
      case Some(d) => if d < 0 then Vencidas(s, cal) + [ConDias(f, -d)] else Vencidas(s, cal)
      case None => Vencidas(s, cal)
  {
    assert (s + [f])[..|s|] == s;
  }

  lemma ProximasSnoc(s: seq<Factura>, f: Factura, cal: Calendario)
    ensures Proximas(s + [f], cal) ==
      match cal(f.fechaVencimiento)
      case Some(d) => if 0 <= d <= 7 then Proximas(s, cal) + [ConDias(f, d)] else Proximas(s, cal)
      case None => Proximas(s, cal)
  {
    assert (s + [f])[..|s|] == s;
  }

  /** The overdue rows are exactly the rows due before today, each with its
      days overdue. */
  lemma {:induction false} VencidasSpec(s: seq<Factura>, cal: Calendario)
    ensures forall e :: e in Vencidas(s, cal) <==>
      e.factura in s && e.dias > 0 && cal(e.factura.fechaVencimiento) == Some(-e.dias)
  {
    if s != [] {
      var init, f := s[..|s| - 1], s[|s| - 1];
      assert s == init + [f];
      VencidasSpec(init, cal);
      VencidasSnoc(init, f, cal);
    }
  }

  /** The upcoming rows are exactly the rows due today or within the next
      seven days, each with its days left. */
  lemma {:induction false} ProximasSpec(s: seq<Factura>, cal: Calendario)
    ensures forall e :: e in Proximas(s, cal) <==>
      e.factura in s && 0 <= e.dias <= 7 && cal(e.factura.fechaVencimiento) == Some(e.dias)
  {
    if s != [] {
      var init, f := s[..|s| - 1], s[|s| - 1];
      assert s == init + [f];
      ProximasSpec(init, cal);
      ProximasSnoc(init, f, cal);
    }
  }

  /** The classification loop of the weekly follow-up. */
  method Clasificar(pendientes: seq<Factura>, cal: Calendario) returns (vencidas: seq<ConDias>, proximas: seq<ConDias>)
    ensures vencidas == Vencidas(pendientes, cal)
    ensures proximas == Proximas(pendientes, cal)
  {
    vencidas, proximas := [], [];
    for i := 0 to |pendientes|
      invariant vencidas == Vencidas(pendientes[..i], cal)
      invariant proximas == Proximas(pendientes[..i], cal)
    {
      var f := pendientes[i];
      assert pendientes[..i + 1] == pendientes[..i] + [f];
      VencidasSnoc(pendientes[..i], f, cal);
      ProximasSnoc(pendientes[..i], f, cal);
      match cal(f.fechaVencimiento) {
        case Some(dias) =>
          if dias < 0 {
            vencidas := vencidas + [ConDias(f, -dias)];
          } else if dias <= 7 {
            proximas := proximas + [ConDias(f, dias)];
          }
        case None =>
      }
    }
    assert pendientes[..|pendientes|] == pendientes;
  }

  /** What the weekly report shows: its overdue rows then its upcoming rows,
      the pending total and count, and the overdue total. */
  datatype Semanal = Semanal(
    vencidas: seq<ConDias>,
    proximas: seq<ConDias>,
    totalPendiente: real,
    nPendientes: nat,
    totalVencido: real)

  /** `reporte_semanal_pdf` up to the rendering. */
  method ReporteSemanal(facturas: seq<Factura>, cal: Calendario) returns (r: Semanal)
    ensures var p := Pendientes(facturas);
      && r.vencidas == SortBy(Vencidas(p, cal), MasDias)
      && r.proximas == SortBy(Proximas(p, cal), MenosDias)
      && r.totalPendiente == SumBy(p, MontoDe)
      && r.nPendientes == |p|
      && r.totalVencido == SumBy(Vencidas(p, cal), MontoCon)
  {
    DayOrders();
    var pendientes := Pendientes(facturas);
    var vencidas, proximas := Clasificar(pendientes, cal);
    r := Semanal(
      SortBy(vencidas, MasDias),
      SortBy(proximas, MenosDias),
      SumBy(pendientes, MontoDe),
      |pendientes|,
      SumBy(vencidas, MontoCon));
  }

  /** A pending row is listed as overdue when its date lies in the past, as
      upcoming when it lies in the next seven days, and in neither list when
      its date does not parse or lies further ahead. Paid rows are never
      listed. */
  lemma SemanalRows(facturas: seq<Factura>, cal: Calendario, f: Factura)
    requires f in facturas
    ensures var p := Pendientes(facturas);
      && (!Pendiente(f) ==> forall e :: e in Vencidas(p, cal) + Proximas(p, cal) ==> e.factura != f)
      && (Pendiente(f) && cal(f.fechaVencimiento).Some? && cal(f.fechaVencimiento).value < 0 ==>
            ConDias(f, -cal(f.fechaVencimiento).value) in Vencidas(p, cal))
      && (Pendiente(f) && cal(f.fechaVencimiento).Some? && 0 <= cal(f.fechaVencimiento).value <= 7 ==>
            ConDias(f, cal(f.fechaVencimiento).value) in Proximas(p, cal))
      && (cal(f.fechaVencimiento).None? || cal(f.fechaVencimiento).value > 7 ==>
            forall e :: e in Vencidas(p, cal) + Proximas(p, cal) ==> e.factura != f)
  {
    VencidasSpec(Pendientes(facturas), cal);
    ProximasSpec(Pendientes(facturas), cal);
  }

  /** The listed order: overdue rows from the most days overdue down, then
      upcoming rows from the nearest due date up, each list holding exactly
      the classified rows with equal day counts kept in sheet order. */
  lemma {:induction false} SemanalOrder(facturas: seq<Factura>, cal: Calendario, e: ConDias)
    ensures var p := Pendientes(facturas);
      var v := SortBy(Vencidas(p, cal), MasDias);
      var x := SortBy(Proximas(p, cal), MenosDias);
      && (forall i, j :: 0 <= i < j < |v| ==> v[i].dias >= v[j].dias)
      && (forall i, j :: 0 <= i < j < |x| ==> x[i].dias <= x[j].dias)
      && multiset(v) == multiset(Vencidas(p, cal))
      && multiset(x) == multiset(Proximas(p, cal))
      && Tied(v, MasDias, e) == Tied(Vencidas(p, cal), MasDias, e)
      && Tied(x, MenosDias, e) == Tied(Proximas(p, cal), MenosDias, e)
  {
    DayOrders();
    var p := Pendientes(facturas);
    SortStable(Vencidas(p, cal), MasDias, e);
    SortStable(Proximas(p, cal), MenosDias, e);
  }

  /** The overdue amount is part of the pending amount. */
  lemma {:induction false} VencidoWithinPendiente(s: seq<Factura>, cal: Calendario)
    requires forall i :: 0 <= i < |s| ==> s[i].montoCobrar >= 0.0
    ensures 0.0 <= SumBy(Vencidas(s, cal), MontoCon) <= SumBy(s, MontoDe)
  {
    if s != [] {
      var init, f := s[..|s| - 1], s[|s| - 1];
      assert s == init + [f];
      VencidoWithinPendiente(init, cal);
      VencidasSnoc(init, f, cal);
      SumBySnoc(init, f, MontoDe);
      match cal(f.fechaVencimiento)
      case Some(d) =>
        if d < 0 {
          SumBySnoc(Vencidas(init, cal), ConDias(f, -d), MontoCon);
        }
      case None =>
    }
  }

  // -------------------------------------------------------- overdue report

  /** The rows of the overdue report: unpaid, and due at least one day ago,
      with the days overdue. */
  function Atrasadas(s: seq<Factura>, cal: Calendario): (r: seq<ConDias>)
    ensures |r| <= |s|
  {
    if s == [] then []
    else
      var p := Atrasadas(s[..|s| - 1], cal);
      var f := s[|s| - 1];
      assert s == s[..|s| - 1] + [f];
      if Pendiente(f) then
        match cal(f.fechaVencimiento)
        case Some(d) => if -d > 0 then p + [ConDias(f, -d)] else p
        case None => p
      else p
  }

  lemma AtrasadasSnoc(s: seq<Factura>, f: Factura, cal: Calendario)
    ensures Atrasadas(s + [f], cal) ==
      if Pendiente(f) then
        match cal(f.fechaVencimiento)
        case Some(d) => if -d > 0 then Atrasadas(s, cal) + [ConDias(f, -d)] else Atrasadas(s, cal)
        case None => Atrasadas(s, cal)
      else Atrasadas(s, cal)
  {
    assert (s + [f])[..|s|] == s;
  }

  lemma PendientesSnoc(s: seq<Factura>, f: Factura)
    ensures Pendientes(s + [f]) == if Pendiente(f) then Pendientes(s) + [f] else Pendientes(s)
  {
    assert (s + [f])[..|s|] == s;
  }

  /** The rows of the overdue report are exactly the unpaid rows due before
      today, each with its days overdue. */
  lemma {:induction false} AtrasadasSpec(s: seq<Factura>, cal: Calendario)
    ensures forall e :: e in Atrasadas(s, cal) <==>
      e.factura in s && Pendiente(e.factura) && e.dias > 0 && cal(e.factura.fechaVencimiento) == Some(-e.dias)
  {
    if s != [] {
      var init, f := s[..|s| - 1], s[|s| - 1];
      assert s == init + [f];
      AtrasadasSpec(init, cal);
      AtrasadasSnoc(init, f, cal);
    }
  }

  /** `reporte_vencidas_pdf` up to the rendering: the loop over all rows, the
      sort by days overdue (most first, ties in sheet order) and the total. */
  method ReporteVencidas(facturas: seq<Factura>, cal: Calendario) returns (vencidas: seq<ConDias>, total: real)
    ensures vencidas == SortBy(Atrasadas(facturas, cal), MasDias)
    ensures total == SumBy(Atrasadas(facturas, cal), MontoCon)
  {
    var lista: seq<ConDias> := [];
    for i := 0 to |facturas|
      invariant lista == Atrasadas(facturas[..i], cal)
    {
      var f := facturas[i];
      assert facturas[..i + 1] == facturas[..i] + [f];
      AtrasadasSnoc(facturas[..i], f, cal);
      if f.pagado != "TRUE" {
        match cal(f.fechaVencimiento) {
          case Some(d) =>
            var dias := -d;
            if dias > 0 {
              lista := lista + [ConDias(f, dias)];
            }
          case None =>
        }
      }
    }
    assert facturas[..|facturas|] == facturas;
    DayOrders();
    vencidas := SortBy(lista, MasDias);
    total := SumBy(vencidas, MontoCon);
    SumByPermutation(vencidas, lista, MontoCon);
  }

  /** On whole days the overdue report lists exactly the weekly report's
      overdue rows, with the same day counts. */
  lemma {:induction false} AtrasadasAreVencidas(s: seq<Factura>, cal: Calendario)
    ensures Atrasadas(s, cal) == Vencidas(Pendientes(s), cal)
  {
    if s != [] {
      var init, f := s[..|s| - 1], s[|s| - 1];
      assert s == init + [f];
      AtrasadasAreVencidas(init, cal);
      AtrasadasSnoc(init, f, cal);
      PendientesSnoc(init, f);
      if Pendiente(f) {
        VencidasSnoc(Pendientes(init), f, cal);
      }
    }
  }
}
