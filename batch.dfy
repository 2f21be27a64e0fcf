/** `add_facturas_batch`: importing a list of invoices, skipping those whose
    consecutive number is already on the sheet. */
module Batch {
  import opened Text
  import opened Numbers
  import opened Documents
  import opened Sheet
  import opened Sorting

  /** One element of the request's `facturas` list. */
  datatype BatchItem = BatchItem(
    consecutivo: string, fecha: string, clienteId: string, clienteNombre: string,
    cedulaCliente: string, totalFactura: real, corfoga: real, otrosRebajos: real,
    fechaVencimiento: string, tipoProducto: string, ordenCompra: string, notas: string)

  /** An entry of the `notasCredito` answer. */
  datatype NotaCredito = NotaCredito(id: string, consecutivo: string, clienteId: string, monto: real)

  /** What the loop has built so far. */
  datatype Plan = Plan(rows: seq<Factura>, duplicados: seq<string>, notasCredito: seq<NotaCredito>)

  /** The form consecutive numbers are compared in: blanks stripped, then leading zeros. */
  function Normalizar(c: string): string {
    LStripZeros(Strip(c))
  }

  /** The normalised consecutive numbers already on the sheet. */
  function Existentes(rows: seq<Factura>): set<string> {
    set k | 0 <= k < |rows| :: Normalizar(rows[k].consecutivo)
  }

  /** A request item is a duplicate when its consecutive number, normalised
      as `Normalizar` does, is already on the sheet. */
  predicate EsDuplicado(e: set<string>, item: BatchItem) {
    LStripZeros(Strip(item.consecutivo)) in e
  }

  /** The id of the `i`-th item: the clock reading then `i` padded to four digits. */
  function FacturaId(stamp: string, i: nat): string {
    stamp + ZFill(NatToString(i), 4)
  }

  /** The row written for a new item. */
  function NuevaFila(item: BatchItem, id: string): Factura {
    var c := Strip(item.consecutivo);
    Factura(id, c, item.fecha, item.clienteId, item.clienteNombre, item.cedulaCliente,
            item.totalFactura, item.corfoga, item.otrosRebajos,
            item.totalFactura - item.corfoga - item.otrosRebajos,
            item.fechaVencimiento, "FALSE", "", item.tipoProducto, item.ordenCompra, item.notas,
            DetectarTipoDocumento(c), "", "Pendiente")
  }

  /** The row the `i`-th item becomes when it is new; `clock(i)` is the clock
      reading taken in that iteration. */
  function Fila(items: seq<BatchItem>, clock: nat -> string, i: nat): Factura
    requires i < |items|
  {
    NuevaFila(items[i], FacturaId(clock(i), i))
  }

  function NotaDe(f: Factura): NotaCredito {
    NotaCredito(f.id, f.consecutivo, f.clienteId, f.montoCobrar)
  }

  /** The credit notes among `rows`, in order. */
  function NotasDe(rows: seq<Factura>): seq<NotaCredito> {
    if rows == [] then []
    else NotasDe(rows[..|rows| - 1]) + (if rows[|rows| - 1].tipoDocumento == NC then [NotaDe(rows[|rows| - 1])] else [])
  }

  lemma NotasDeSnoc(rows: seq<Factura>, f: Factura)
    ensures NotasDe(rows + [f]) == NotasDe(rows) + (if f.tipoDocumento == NC then [NotaDe(f)] else [])
  {
    assert (rows + [f])[..|rows|] == rows;
  }

  /** The state of the loop after its first `n` iterations. The set `e` is
      computed once, before the loop, and never grows inside it. */
  function PlanUpTo(e: set<string>, items: seq<BatchItem>, clock: nat -> string, n: nat): Plan
    requires n <= |items|
  {
    if n == 0 then Plan([], [], [])
    else
      var p := PlanUpTo(e, items, clock, n - 1);
      var item := items[n - 1];
      if EsDuplicado(e, item) then p.(duplicados := p.duplicados + [Strip(item.consecutivo)])
      else
        var f := Fila(items, clock, n - 1);
        Plan(p.rows + [f], p.duplicados, p.notasCredito + (if f.tipoDocumento == NC then [NotaDe(f)] else []))
  }

  /** The loop of `add_facturas_batch`. */
  method AddFacturasBatch(existentes: set<string>, facturas: seq<BatchItem>, clock: nat -> string)
    returns (rows: seq<Factura>, duplicados: seq<string>, notasCredito: seq<NotaCredito>)
    ensures Plan(rows, duplicados, notasCredito) == PlanUpTo(existentes, facturas, clock, |facturas|)
  {
    rows, duplicados, notasCredito := [], [], [];
    for i := 0 to |facturas|
      invariant Plan(rows, duplicados, notasCredito) == PlanUpTo(existentes, facturas, clock, i)
    {
      var data := facturas[i];
      var consecutivo := Strip(data.consecutivo);
      var normalizado := LStripZeros(consecutivo);
      assert normalizado in existentes <==> EsDuplicado(existentes, data);
      if normalizado in existentes {
        duplicados := duplicados + [consecutivo];
        continue;
      }
      var facturaId := clock(i) + ZFill(NatToString(i), 4);
      var total, corfoga, otros := data.totalFactura, data.corfoga, data.otrosRebajos;
      var montoCobrar := total - corfoga - otros;
      var tipoDoc := DetectarTipoDocumento(consecutivo);
      var rowData := Factura(facturaId, consecutivo, data.fecha, data.clienteId, data.clienteNombre,
                             data.cedulaCliente, total, corfoga, otros, montoCobrar,
                             data.fechaVencimiento, "FALSE", "", data.tipoProducto, data.ordenCompra,
                             data.notas, tipoDoc, "", "Pendiente");
      assert rowData == Fila(facturas, clock, i);
      rows := rows + [rowData];
      if tipoDoc == NC {
        notasCredito := notasCredito + [NotaCredito(facturaId, consecutivo, data.clienteId, montoCobrar)];
      }
    }
  }

  /** The import as a whole: the existing numbers are read, the loop runs
      and the new rows are appended in one call. The answer carries the
      count, the number of duplicates, the first ten of them and the credit
      notes. */
  method ImportarLote(sheet: FacturasSheet, facturas: seq<BatchItem>, clock: nat -> string)
    returns (count: nat, duplicadosCount: nat, duplicadosLista: seq<string>, notasCredito: seq<NotaCredito>)
    modifies sheet
    ensures var p := PlanUpTo(Existentes(old(sheet.rows)), facturas, clock, |facturas|);
      sheet.rows == old(sheet.rows) + p.rows
      && count == |p.rows| && duplicadosCount == |p.duplicados|
      && duplicadosLista == Take(p.duplicados, 10) && notasCredito == p.notasCredito
  {
    var existentes := Existentes(sheet.rows);
    var rows, duplicados;
    rows, duplicados, notasCredito := AddFacturasBatch(existentes, facturas, clock);
    if rows != [] {
      sheet.rows := sheet.rows + rows;
    }
    count, duplicadosCount, duplicadosLista := |rows|, |duplicados|, Take(duplicados, 10);
  }

  /** The indices below `n` of the items that are duplicates (`dup`) or new
      (`!dup`), in increasing order: the reference the loop is measured against. */
  function Indices(e: set<string>, items: seq<BatchItem>, dup: bool, n: nat): (r: seq<nat>)
    requires n <= |items|
    ensures forall m :: 0 <= m < |r| ==> r[m] < n
  {
    if n == 0 then []
    else Indices(e, items, dup, n - 1) + (if EsDuplicado(e, items[n - 1]) == dup then [n - 1] else [])
  }

  /** The index lists are increasing and hold exactly the items of their kind. */
  lemma IndicesSpec(e: set<string>, items: seq<BatchItem>, dup: bool, n: nat)
    requires n <= |items|
    ensures forall a, b :: 0 <= a < b < |Indices(e, items, dup, n)| ==>
      Indices(e, items, dup, n)[a] < Indices(e, items, dup, n)[b]
    ensures forall k :: 0 <= k < n ==> (k in Indices(e, items, dup, n) <==> EsDuplicado(e, items[k]) == dup)
  {
    IndicesIncreasing(e, items, dup, n);
    IndicesMembers(e, items, dup, n);
  }

  lemma {:induction false} IndicesIncreasing(e: set<string>, items: seq<BatchItem>, dup: bool, n: nat)
    requires n <= |items|
    ensures forall a, b :: 0 <= a < b < |Indices(e, items, dup, n)| ==>
      Indices(e, items, dup, n)[a] < Indices(e, items, dup, n)[b]
  {
    if n > 0 {
      IndicesIncreasing(e, items, dup, n - 1);
      var r, r2 := Indices(e, items, dup, n - 1), Indices(e, items, dup, n);
      var t: seq<nat> := if EsDuplicado(e, items[n - 1]) == dup then [n - 1] else [];
      assert r2 == r + t;
      forall a, b | 0 <= a < b < |r2| ensures r2[a] < r2[b] {
        assert r2[a] == r[a];
        if b < |r| {
          assert r2[b] == r[b];
        }
      }
    }
  }

  lemma IndicesMembers(e: set<string>, items: seq<BatchItem>, dup: bool, n: nat)
    requires n <= |items|
    ensures forall k :: 0 <= k < n ==> (k in Indices(e, items, dup, n) <==> EsDuplicado(e, items[k]) == dup)
  {
    IndicesSound(e, items, dup, n);
    IndicesComplete(e, items, dup, n);
  }

  lemma {:induction false} IndicesSound(e: set<string>, items: seq<BatchItem>, dup: bool, n: nat)
    requires n <= |items|
    ensures forall m :: 0 <= m < |Indices(e, items, dup, n)| ==>
      EsDuplicado(e, items[Indices(e, items, dup, n)[m]]) == dup
  {
    if n > 0 {
      IndicesSound(e, items, dup, n - 1);
      var r, r2 := Indices(e, items, dup, n - 1), Indices(e, items, dup, n);
      if EsDuplicado(e, items[n - 1]) == dup {
        assert r2 == r + [n - 1];
        forall m | 0 <= m < |r2| ensures EsDuplicado(e, items[r2[m]]) == dup {
          if m < |r| {
            assert r2[m] == r[m];
          }
        }
      } else {
        assert r2 == r;
      }
    }
  }

  lemma {:induction false} IndicesComplete(e: set<string>, items: seq<BatchItem>, dup: bool, n: nat)
    requires n <= |items|
    ensures forall k :: 0 <= k < n && EsDuplicado(e, items[k]) == dup ==> k in Indices(e, items, dup, n)
  {
    if n > 0 {
      var r, r2 := Indices(e, items, dup, n - 1), Indices(e, items, dup, n);
      var t: seq<nat> := if EsDuplicado(e, items[n - 1]) == dup then [n - 1] else [];
      assert r2 == r + t;
      forall k | 0 <= k < n && EsDuplicado(e, items[k]) == dup ensures k in r2 {
        InAppend(r, t, k);
        if k < n - 1 {
          IndicesComplete(e, items, dup, n - 1);
          assert k in r;
        } else {
          assert k in t;
        }
      }
    }
  }

  lemma InAppend(r: seq<nat>, t: seq<nat>, k: nat)
    ensures k in r + t <==> k in r || k in t
  {
  }

  /** The new and the duplicate items together are all the items. */
  lemma {:induction false} IndicesPartition(e: set<string>, items: seq<BatchItem>, n: nat)
    requires n <= |items|
    ensures |Indices(e, items, false, n)| + |Indices(e, items, true, n)| == n
  {
    if n > 0 {
      IndicesPartition(e, items, n - 1);
    }
  }

  /** What the loop builds, item by item: the `m`-th new row is the row of
      the `m`-th non-duplicate item, the `m`-th entry of `duplicados` is the
      `m`-th duplicate's consecutive number, and `notasCredito` lists the
      credit notes among the new rows. */
  lemma PlanShape(e: set<string>, items: seq<BatchItem>, clock: nat -> string, n: nat)
    requires n <= |items|
    ensures |PlanUpTo(e, items, clock, n).rows| == |Indices(e, items, false, n)|
    ensures |PlanUpTo(e, items, clock, n).duplicados| == |Indices(e, items, true, n)|
    ensures forall m :: 0 <= m < |Indices(e, items, false, n)| ==>
      PlanUpTo(e, items, clock, n).rows[m] == Fila(items, clock, Indices(e, items, false, n)[m])
    ensures forall m :: 0 <= m < |Indices(e, items, true, n)| ==>
      PlanUpTo(e, items, clock, n).duplicados[m] == Strip(items[Indices(e, items, true, n)[m]].consecutivo)
    ensures PlanUpTo(e, items, clock, n).notasCredito == NotasDe(PlanUpTo(e, items, clock, n).rows)
  {
    PlanRowsShape(e, items, clock, n);
    PlanNotasShape(e, items, clock, n);
    PlanDupsShape(e, items, clock, n);
  }

  lemma PlanRowsShape(e: set<string>, items: seq<BatchItem>, clock: nat -> string, n: nat)
    requires n <= |items|
    ensures |PlanUpTo(e, items, clock, n).rows| == |Indices(e, items, false, n)|
    ensures forall m :: 0 <= m < |Indices(e, items, false, n)| ==>
      PlanUpTo(e, items, clock, n).rows[m] == Fila(items, clock, Indices(e, items, false, n)[m])
  {
    var nu := Indices(e, items, false, n);
    PlanRows(e, items, clock, n);
    MapIdxAt(FilaDe(items, clock), nu);
    forall m | 0 <= m < |nu| ensures FilaDe(items, clock)(nu[m]) == Fila(items, clock, nu[m]) {
    }
  }

  /** `Fila` as a partial function of the item's index. */
  function FilaDe(items: seq<BatchItem>, clock: nat -> string): nat --> Factura {
    (i: nat) requires i < |items| => Fila(items, clock, i)
  }

  /** `f` applied to each index, in order. */
  function MapIdx<T>(f: nat --> T, idx: seq<nat>): (r: seq<T>)
    requires forall m :: 0 <= m < |idx| ==> f.requires(idx[m])
  {
    if idx == [] then []
    else MapIdx(f, idx[..|idx| - 1]) + [f(idx[|idx| - 1])]
  }

  lemma {:induction false} MapIdxAt<T>(f: nat --> T, idx: seq<nat>)
    requires forall m :: 0 <= m < |idx| ==> f.requires(idx[m])
    ensures |MapIdx(f, idx)| == |idx|
    ensures forall m :: 0 <= m < |idx| ==> MapIdx(f, idx)[m] == f(idx[m])
  {
    if idx != [] {
      var init := idx[..|idx| - 1];
      MapIdxAt(f, init);
      var r := MapIdx(f, idx);
      assert r == MapIdx(f, init) + [f(idx[|idx| - 1])];
      forall m | 0 <= m < |idx| ensures r[m] == f(idx[m]) {
        if m < |init| {
          assert r[m] == MapIdx(f, init)[m];
          assert idx[m] == init[m];
        }
      }
    }
  }

  /** The new rows are the rows of the non-duplicate items, in order. */
  lemma {:induction false} PlanRows(e: set<string>, items: seq<BatchItem>, clock: nat -> string, n: nat)
    requires n <= |items|
    ensures PlanUpTo(e, items, clock, n).rows == MapIdx(FilaDe(items, clock), Indices(e, items, false, n))
  {
    if n > 0 {
      PlanRows(e, items, clock, n - 1);
      var nu := Indices(e, items, false, n - 1);
      if !EsDuplicado(e, items[n - 1]) {
        assert Indices(e, items, false, n) == nu + [n - 1];
        assert (nu + [n - 1])[..|nu|] == nu;
        assert FilaDe(items, clock)(n - 1) == Fila(items, clock, n - 1);
      } else {
        assert Indices(e, items, false, n) == nu;
      }
    }
  }

  lemma {:induction false} PlanNotasShape(e: set<string>, items: seq<BatchItem>, clock: nat -> string, n: nat)
    requires n <= |items|
    ensures var p := PlanUpTo(e, items, clock, n);
      p.notasCredito == NotasDe(p.rows)
  {
    if n > 0 {
      PlanNotasShape(e, items, clock, n - 1);
      var p, p2 := PlanUpTo(e, items, clock, n - 1), PlanUpTo(e, items, clock, n);
      if !EsDuplicado(e, items[n - 1]) {
        var f := Fila(items, clock, n - 1);
        assert p2.rows == p.rows + [f];
        NotasDeSnoc(p.rows, f);
      } else {
        assert p2.rows == p.rows && p2.notasCredito == p.notasCredito;
      }
    }
  }

  lemma {:induction false} PlanDupsShape(e: set<string>, items: seq<BatchItem>, clock: nat -> string, n: nat)
    requires n <= |items|
    ensures |PlanUpTo(e, items, clock, n).duplicados| == |Indices(e, items, true, n)|
    ensures forall m :: 0 <= m < |Indices(e, items, true, n)| ==>
      PlanUpTo(e, items, clock, n).duplicados[m] == Strip(items[Indices(e, items, true, n)[m]].consecutivo)
  {
    if n > 0 {
      PlanDupsShape(e, items, clock, n - 1);
      var p, re := PlanUpTo(e, items, clock, n - 1), Indices(e, items, true, n - 1);
      var p2, re2 := PlanUpTo(e, items, clock, n), Indices(e, items, true, n);
      if EsDuplicado(e, items[n - 1]) {
        var c := Strip(items[n - 1].consecutivo);
        assert p2.duplicados == p.duplicados + [c];
        assert re2 == re + [n - 1];
        forall m | 0 <= m < |re2| ensures p2.duplicados[m] == Strip(items[re2[m]].consecutivo) {
          if m < |re| {
            assert p2.duplicados[m] == p.duplicados[m] && re2[m] == re[m];
          } else {
            assert p2.duplicados[m] == c && re2[m] == n - 1;
          }
        }
      } else {
        assert p2.duplicados == p.duplicados && re2 == re;
      }
    }
  }

  /** Every item is either imported or reported as a duplicate:
      `count + duplicados == len(facturas)`. */
  lemma BatchPartition(e: set<string>, items: seq<BatchItem>, clock: nat -> string)
    ensures var p := PlanUpTo(e, items, clock, |items|);
      |p.rows| + |p.duplicados| == |items|
  {
    PlanShape(e, items, clock, |items|);
    IndicesPartition(e, items, |items|);
  }

  /** An item is skipped exactly when its normalised consecutive number was
      on the sheet before the import: the imported rows and the reported
      duplicates are, in order, the items of each kind. */
  lemma DuplicateExactly(e: set<string>, items: seq<BatchItem>, clock: nat -> string)
    ensures forall m :: 0 <= m < |PlanUpTo(e, items, clock, |items|).rows| ==>
      Normalizar(PlanUpTo(e, items, clock, |items|).rows[m].consecutivo) !in e
    ensures forall m :: 0 <= m < |PlanUpTo(e, items, clock, |items|).duplicados| ==>
      LStripZeros(PlanUpTo(e, items, clock, |items|).duplicados[m]) in e
    ensures forall k :: 0 <= k < |items| && !EsDuplicado(e, items[k]) ==>
      Fila(items, clock, k) in PlanUpTo(e, items, clock, |items|).rows
    ensures forall k :: 0 <= k < |items| && EsDuplicado(e, items[k]) ==>
      Strip(items[k].consecutivo) in PlanUpTo(e, items, clock, |items|).duplicados
  {
    var n := |items|;
    var p, nu, re := PlanUpTo(e, items, clock, n), Indices(e, items, false, n), Indices(e, items, true, n);
    assert forall m :: 0 <= m < |p.rows| ==> Normalizar(p.rows[m].consecutivo) !in e by {
      PlanRowsShape(e, items, clock, n);
      IndicesSound(e, items, false, n);
      forall m | 0 <= m < |p.rows| ensures Normalizar(p.rows[m].consecutivo) !in e {
        StripIdempotent(items[nu[m]].consecutivo);
      }
    }
    assert forall m :: 0 <= m < |p.duplicados| ==> LStripZeros(p.duplicados[m]) in e by {
      PlanDupsShape(e, items, clock, n);
      IndicesSound(e, items, true, n);
    }
    assert forall k :: 0 <= k < n && !EsDuplicado(e, items[k]) ==> Fila(items, clock, k) in p.rows by {
      PlanRowsShape(e, items, clock, n);
      IndicesComplete(e, items, false, n);
      forall k | 0 <= k < n && !EsDuplicado(e, items[k]) ensures Fila(items, clock, k) in p.rows {
        var m :| 0 <= m < |nu| && nu[m] == k;
        assert p.rows[m] == Fila(items, clock, k);
      }
    }
    assert forall k :: 0 <= k < n && EsDuplicado(e, items[k]) ==> Strip(items[k].consecutivo) in p.duplicados by {
      PlanDupsShape(e, items, clock, n);
      IndicesComplete(e, items, true, n);
      forall k | 0 <= k < n && EsDuplicado(e, items[k]) ensures Strip(items[k].consecutivo) in p.duplicados {
        var m :| 0 <= m < |re| && re[m] == k;
        assert p.duplicados[m] == Strip(items[k].consecutivo);
      }
    }
  }

  /** Every new row is an unpaid, pending invoice whose MontoCobrar is its
      total less CORFOGA and the other deductions, typed from its
      consecutive number, with nothing related and no payment date. */
  lemma NewRowsPending(e: set<string>, items: seq<BatchItem>, clock: nat -> string)
    ensures var p := PlanUpTo(e, items, clock, |items|);
      forall m :: 0 <= m < |p.rows| ==>
        var f := p.rows[m];
        f.pagado == "FALSE" && f.estado == "Pendiente" && f.fechaPago == ""
        && f.montoCobrar == f.totalFactura - f.corfoga - f.otrosRebajos
        && f.tipoDocumento == DetectarTipoDocumento(f.consecutivo)
        && f.documentoRelacionado == "" && !PagadoVista(f)
  {
    var n := |items|;
    var p, nu := PlanUpTo(e, items, clock, n), Indices(e, items, false, n);
    PlanRowsShape(e, items, clock, n);
    forall m | 0 <= m < |p.rows| ensures FilaPendiente(p.rows[m]) {
      FilaIsPendiente(items, clock, nu[m]);
    }
  }

  /** The state every new row is written with. */
  predicate FilaPendiente(f: Factura) {
    f.pagado == "FALSE" && f.estado == "Pendiente" && f.fechaPago == ""
    && f.montoCobrar == f.totalFactura - f.corfoga - f.otrosRebajos
    && f.tipoDocumento == DetectarTipoDocumento(f.consecutivo)
    && f.documentoRelacionado == "" && !PagadoVista(f)
  }

  lemma FilaIsPendiente(items: seq<BatchItem>, clock: nat -> string, k: nat)
    requires k < |items|
    ensures FilaPendiente(Fila(items, clock, k))
  {
  }

  /** `notasCredito` lists exactly the credit notes among the new rows. */
  /** `x` is the credit-note entry of one of the NC rows among `rows`. */
  ghost predicate NotaDeAlguna(x: NotaCredito, rows: seq<Factura>) {
    exists m :: 0 <= m < |rows| && rows[m].tipoDocumento == NC && x == NotaDe(rows[m])
  }

  lemma NotasAreCreditNotes(e: set<string>, items: seq<BatchItem>, clock: nat -> string)
    ensures var p := PlanUpTo(e, items, clock, |items|);
      p.notasCredito == NotasDe(p.rows)
      && (forall k :: 0 <= k < |p.notasCredito| ==> NotaDeAlguna(p.notasCredito[k], p.rows))
      && (forall m :: 0 <= m < |p.rows| && p.rows[m].tipoDocumento == NC ==> NotaDe(p.rows[m]) in p.notasCredito)
  {
    var p := PlanUpTo(e, items, clock, |items|);
    PlanShape(e, items, clock, |items|);
    NotasDeSpec(p.rows);
  }

  lemma {:induction false} NotasDeSpec(rows: seq<Factura>)
    ensures forall k :: 0 <= k < |NotasDe(rows)| ==> NotaDeAlguna(NotasDe(rows)[k], rows)
    ensures forall m :: 0 <= m < |rows| && rows[m].tipoDocumento == NC ==> NotaDe(rows[m]) in NotasDe(rows)
  {
    if rows != [] {
      var init := rows[..|rows| - 1];
      NotasDeSpec(init);
      var r := NotasDe(rows);
      assert r == NotasDe(init) + (if rows[|rows| - 1].tipoDocumento == NC then [NotaDe(rows[|rows| - 1])] else []);
      forall k | 0 <= k < |r| ensures NotaDeAlguna(r[k], rows) {
        if k < |NotasDe(init)| {
          assert NotaDeAlguna(NotasDe(init)[k], init);
          var m :| 0 <= m < |init| && init[m].tipoDocumento == NC && NotasDe(init)[k] == NotaDe(init[m]);
          assert rows[m] == init[m];
          assert r[k] == NotasDe(init)[k];
        } else {
          assert r[k] == NotaDe(rows[|rows| - 1]);
        }
      }
      forall m | 0 <= m < |rows| && rows[m].tipoDocumento == NC ensures NotaDe(rows[m]) in r {
        if m < |init| {
          assert rows[m] == init[m];
          assert NotaDe(init[m]) in NotasDe(init);
        }
      }
    }
  }

  /** The number `str(n)` spells. */
  lemma {:induction false} NatToStringValue(n: nat)
    ensures DigitsValue(NatToString(n)) == n
    decreases n
  {
    if n >= 10 {
      NatToStringValue(n / 10);
      var s := NatToString(n);
      assert s[..|s| - 1] == NatToString(n / 10);
    }
  }

  lemma {:induction false} ZerosValue(k: nat)
    ensures AllDigits(RepeatChar('0', k)) && DigitsValue(RepeatChar('0', k)) == 0
  {
    if k > 0 {
      ZerosValue(k - 1);
      assert RepeatChar('0', k)[..k - 1] == RepeatChar('0', k - 1);
    }
  }

  /** Leading zeros do not change the value of a digit string. */
  lemma {:induction false} LeadingZerosValue(k: nat, s: string)
    requires AllDigits(s)
    ensures AllDigits(RepeatChar('0', k) + s)
    ensures DigitsValue(RepeatChar('0', k) + s) == DigitsValue(s)
  {
    var z := RepeatChar('0', k);
    ZerosValue(k);
    if s == [] {
      assert z + s == z;
    } else {
      LeadingZerosValue(k, s[..|s| - 1]);
      assert (z + s)[..|z + s| - 1] == z + s[..|s| - 1];
    }
  }

  /** The padded counter of an id spells its iteration number. */
  lemma ZFillValue(i: nat)
    ensures AllDigits(ZFill(NatToString(i), 4))
    ensures DigitsValue(ZFill(NatToString(i), 4)) == i
  {
    var s := NatToString(i);
    NatToStringValue(i);
    if |s| < 4 {
      LeadingZerosValue(4 - |s|, s);
    }
  }

  /** With clock readings of one length, ids of different iterations differ. */
  lemma FacturaIdInjective(sa: string, a: nat, sb: string, b: nat)
    requires |sa| == |sb| && FacturaId(sa, a) == FacturaId(sb, b)
    ensures a == b
  {
    var ia, ib := FacturaId(sa, a), FacturaId(sb, b);
    assert ia[|sa|..] == ZFill(NatToString(a), 4);
    assert ib[|sb|..] == ZFill(NatToString(b), 4);
    ZFillValue(a);
    ZFillValue(b);
  }

  /** The ids given to one batch are all different, whatever the clock
      reads in each iteration, as long as its readings have one length (the
      fourteen digits of `%Y%m%d%H%M%S`). */
  lemma BatchIdsDistinct(e: set<string>, items: seq<BatchItem>, clock: nat -> string)
    requires forall k: nat :: |clock(k)| == 14
    ensures var p := PlanUpTo(e, items, clock, |items|);
      forall a, b :: 0 <= a < b < |p.rows| ==> p.rows[a].id != p.rows[b].id
  {
    var n := |items|;
    var p, nu := PlanUpTo(e, items, clock, n), Indices(e, items, false, n);
    PlanShape(e, items, clock, n);
    IndicesSpec(e, items, false, n);
    forall a, b | 0 <= a < b < |p.rows| ensures p.rows[a].id != p.rows[b].id {
      if p.rows[a].id == p.rows[b].id {
        FacturaIdInjective(clock(nu[a]), nu[a], clock(nu[b]), nu[b]);
      }
    }
  }

  /** Two items of one batch with the same new consecutive number are both
      imported: the set of known numbers does not grow during the loop. */
  lemma WithinBatchDuplicatesKept(e: set<string>, items: seq<BatchItem>, clock: nat -> string, k1: nat, k2: nat)
    requires k1 < k2 < |items|
    requires Strip(items[k1].consecutivo) == Strip(items[k2].consecutivo)
    requires !EsDuplicado(e, items[k1])
    ensures var p := PlanUpTo(e, items, clock, |items|);
      Fila(items, clock, k1) in p.rows && Fila(items, clock, k2) in p.rows
      && Fila(items, clock, k1).consecutivo == Fila(items, clock, k2).consecutivo
  {
    DuplicateExactly(e, items, clock);
  }

  /** When every item is a duplicate nothing is imported. */
  lemma {:induction false} AllDuplicatesNoRows(e: set<string>, items: seq<BatchItem>, clock: nat -> string, n: nat)
    requires n <= |items|
    requires forall k :: 0 <= k < n ==> EsDuplicado(e, items[k])
    ensures PlanUpTo(e, items, clock, n).rows == []
  {
    if n > 0 {
      AllDuplicatesNoRows(e, items, clock, n - 1);
    }
  }

  /** Retrying an import is safe: once a batch has been appended, importing
      it again adds no row. */
  lemma ReimportAddsNothing(existing: seq<Factura>, items: seq<BatchItem>, clock: nat -> string, clock2: nat -> string)
    ensures var p := PlanUpTo(Existentes(existing), items, clock, |items|);
      PlanUpTo(Existentes(existing + p.rows), items, clock2, |items|).rows == []
  {
    var e := Existentes(existing);
    var p := PlanUpTo(e, items, clock, |items|);
    var all := existing + p.rows;
    var e2 := Existentes(all);
    DuplicateExactly(e, items, clock);
    forall k | 0 <= k < |items| ensures EsDuplicado(e2, items[k]) {
      var c := items[k].consecutivo;
      StripIdempotent(c);
      if EsDuplicado(e, items[k]) {
        var j :| 0 <= j < |existing| && Normalizar(existing[j].consecutivo) == LStripZeros(Strip(c));
        assert all[j] == existing[j];
      } else {
        var f := Fila(items, clock, k);
        var m :| 0 <= m < |p.rows| && p.rows[m] == f;
        assert all[|existing| + m] == f;
        assert Normalizar(f.consecutivo) == LStripZeros(Strip(c));
      }
    }
    AllDuplicatesNoRows(e2, items, clock2, |items|);
  }
}
