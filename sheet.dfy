/** The Facturas worksheet as an in-memory table: finding a row by
    invoice id, and the cell writes of `registrar_pago` and
    `compensar_documentos`. */
module Sheet {
  import opened Wrappers
  import opened Documents

  /** The text cells of a row, in column order. */
  function TextCells(f: Factura): seq<string> {
    [f.id, f.consecutivo, f.fecha, f.clienteId, f.clienteNombre, f.cedulaCliente,
     f.fechaVencimiento, f.pagado, f.fechaPago, f.tipoProducto, f.ordenCompra, f.notas,
     f.tipoDocumento, f.documentoRelacionado, f.estado]
  }

  /** `ws.find(q)` as the handlers call it: the first row, scanning row by
      row, that has some cell equal to `q`, in any column. */
  function FindAsWritten(rows: seq<Factura>, q: string): (r: Option<nat>)
    ensures r.Some? ==> r.value < |rows| && q in TextCells(rows[r.value])
                        && forall k :: 0 <= k < r.value ==> q !in TextCells(rows[k])
    ensures r.None? ==> forall k :: 0 <= k < |rows| ==> q !in TextCells(rows[k])
  {
    if rows == [] then None
    else if q in TextCells(rows[0]) then Some(0)
    else match FindAsWritten(rows[1..], q)
      case None => None
      case Some(k) => Some(k + 1)
  }

  /** The row an invoice id names: the first row whose ID cell is `q`. */
  function FindById(rows: seq<Factura>, q: string): (r: Option<nat>)
    ensures r.Some? ==> r.value < |rows| && rows[r.value].id == q
                        && forall k :: 0 <= k < r.value ==> rows[k].id != q
    ensures r.None? ==> forall k :: 0 <= k < |rows| ==> rows[k].id != q
  {
    if rows == [] then None
    else if rows[0].id == q then Some(0)
    else match FindById(rows[1..], q)
      case None => None
      case Some(k) => Some(k + 1)
  }

  /** After an invoice F1 has been offset against the credit note N1, the
      invoice's DocumentoRelacionado cell holds "N1", so a search for "N1"
      over every column stops at the invoice's row when it comes first: a
      second compensation of N1, or any other write addressed to N1, lands
      on F1. Looking the id up in the ID column finds N1's own row. */
  lemma FindAsWrittenHitsPartner(fac: Factura, nc: Factura)
    requires fac.id == "F1" && fac.documentoRelacionado == "N1"
    requires nc.id == "N1" && nc.documentoRelacionado == "F1"
    ensures FindAsWritten([fac, nc], "N1") == Some(0)
    ensures FindById([fac, nc], "N1") == Some(1)
  {
    assert TextCells(fac)[13] == "N1";
    assert [fac, nc][1..] == [nc];
  }

  /** Whenever the ID column is searched, the whole-row search agrees as
      long as no earlier row mentions the id in another column. */
  lemma FindAgreesWithoutMentions(rows: seq<Factura>, q: string, i: nat)
    requires FindById(rows, q) == Some(i)
    requires forall k :: 0 <= k < i ==> q !in TextCells(rows[k])
    ensures FindAsWritten(rows, q) == Some(i)
  {
    var r := FindAsWritten(rows, q);
    assert TextCells(rows[i])[0] == q;
    assert r.Some?;
  }

  /** The note cell after appending `nota`: `old | nota`, or `nota` alone. */
  function AppendNote(actual: string, nota: string): string {
    if actual != "" then actual + " | " + nota else nota
  }

  /** Appending never loses what was written before, and the new note is
      always at the end. */
  lemma AppendNoteKeeps(actual: string, nota: string)
    ensures var r := AppendNote(actual, nota);
      |r| >= |actual| + |nota| && r[..|actual|] == actual && r[|r| - |nota|..] == nota
  {
  }

  /** `if monto_parcial:` on a number: present and non-zero. */
  predicate Truthy(m: Option<real>) {
    m.Some? && m.value != 0.0
  }

  /** The row after `registrar_pago`. */
  function PagoRow(f: Factura, montoParcial: Option<real>, fechaPago: string, nota: string): Factura {
    var f1 := if Truthy(montoParcial) then f.(montoCobrar := f.montoCobrar - montoParcial.value)
              else f.(pagado := "TRUE", estado := "Pagado");
    var f2 := f1.(fechaPago := fechaPago);
    if nota != "" then f2.(notas := AppendNote(f.notas, "Pago: " + nota)) else f2
  }

  /** The columns that identify a document and that neither a payment nor a
      compensation writes. */
  predicate SameDocument(a: Factura, b: Factura) {
    a.id == b.id && a.consecutivo == b.consecutivo && a.fecha == b.fecha
    && a.clienteId == b.clienteId && a.clienteNombre == b.clienteNombre
    && a.cedulaCliente == b.cedulaCliente && a.totalFactura == b.totalFactura
    && a.corfoga == b.corfoga && a.otrosRebajos == b.otrosRebajos
    && a.fechaVencimiento == b.fechaVencimiento && a.tipoProducto == b.tipoProducto
    && a.ordenCompra == b.ordenCompra && a.tipoDocumento == b.tipoDocumento
  }

  /** What a payment does to its row: a partial payment lowers MontoCobrar by
      exactly its amount and leaves Pagado and Estado alone; any other
      payment sets Pagado TRUE and Estado Pagado and leaves MontoCobrar
      alone; FechaPago is always written; the note is appended, or the notes
      are left as they were when no note is given. */
  lemma PagoEffects(f: Factura, montoParcial: Option<real>, fechaPago: string, nota: string)
    ensures var g := PagoRow(f, montoParcial, fechaPago, nota);
      SameDocument(f, g) && g.documentoRelacionado == f.documentoRelacionado
      && g.fechaPago == fechaPago
      && (Truthy(montoParcial) ==>
            g.montoCobrar == f.montoCobrar - montoParcial.value
            && g.pagado == f.pagado && g.estado == f.estado)
      && (!Truthy(montoParcial) ==>
            g.montoCobrar == f.montoCobrar && g.pagado == "TRUE" && g.estado == "Pagado")
      && (nota == "" ==> g.notas == f.notas)
      && (nota != "" ==> g.notas == AppendNote(f.notas, "Pago: " + nota))
  {
  }

  /** A full payment makes the row show as paid and takes it out of every
      report that filters on Pagado; a partial one leaves its paid flag as it was. */
  lemma PagoSettles(f: Factura, montoParcial: Option<real>, fechaPago: string, nota: string)
    ensures var g := PagoRow(f, montoParcial, fechaPago, nota);
      (!Truthy(montoParcial) ==> PagadoVista(g) && g.pagado == "TRUE")
      && (Truthy(montoParcial) ==> (PagadoVista(g) <==> PagadoVista(f)))
  {
    var g := PagoRow(f, montoParcial, fechaPago, nota);
    if !Truthy(montoParcial) {
      assert EstadoResuelto(g) == "Pagado";
    } else {
      assert EstadoResuelto(g) == EstadoResuelto(f);
    }
  }

  /** Two partial payments leave the same MontoCobrar as one payment of their
      sum. */
  lemma PartialPaymentsAdd(f: Factura, x: real, y: real, fecha1: string, fecha2: string, nota1: string, nota2: string)
    requires x != 0.0 && y != 0.0 && x + y != 0.0
    ensures PagoRow(PagoRow(f, Some(x), fecha1, nota1), Some(y), fecha2, nota2).montoCobrar
         == PagoRow(f, Some(x + y), fecha2, nota2).montoCobrar
  {
  }

  function Abs(x: real): real {
    if x < 0.0 then -x else x
  }

  function Min(a: real, b: real): real {
    if a <= b then a else b
  }

  /** The amount `compensar_documentos` reports: the one asked for, or, when
      that is zero, the smaller of the two outstanding amounts in absolute value. */
  function MontoCompensado(pedido: real, nc: Factura, fac: Factura): real {
    if pedido == 0.0 then Min(Abs(nc.montoCobrar), Abs(fac.montoCobrar)) else pedido
  }

  lemma MontoCompensadoBounds(pedido: real, nc: Factura, fac: Factura)
    ensures pedido != 0.0 ==> MontoCompensado(pedido, nc, fac) == pedido
    ensures pedido == 0.0 ==> var m := MontoCompensado(pedido, nc, fac);
      0.0 <= m && m <= Abs(nc.montoCobrar) && m <= Abs(fac.montoCobrar)
      && (m == Abs(nc.montoCobrar) || m == Abs(fac.montoCobrar))
  {
  }

  /** A credit note of -150 against an invoice of 200 offsets 150. */
  lemma MontoCompensadoExample(nc: Factura, fac: Factura)
    requires nc.montoCobrar == -150.0 && fac.montoCobrar == 200.0
    ensures MontoCompensado(0.0, nc, fac) == 150.0
  {
  }

  /** One side of a compensation: settled, related to `otro`, with a note. */
  function MarcarCompensado(f: Factura, otro: string, fecha: string, etiqueta: string): Factura {
    f.(pagado := "TRUE", fechaPago := fecha, documentoRelacionado := otro, estado := "Compensado",
       notas := AppendNote(f.notas, "Compensado con " + etiqueta + " " + otro))
  }

  /** The table after both rows of a compensation are written, the credit
      note's row `i` first and the invoice's row `j` second. */
  function Compensacion(rows: seq<Factura>, i: nat, j: nat, ncId: string, facturaId: string, fecha: string): seq<Factura>
    requires i < |rows| && j < |rows|
  {
    var r1 := rows[i := MarcarCompensado(rows[i], facturaId, fecha, "FAC")];
    r1[j := MarcarCompensado(r1[j], ncId, fecha, "NC")]
  }

  /** A compensation of two different documents: both end settled
      (Pagado TRUE, Estado Compensado) with the same FechaPago, each pointing
      at the other, with MontoCobrar and the identifying columns as they
      were, and no other row touched. */
  lemma CompensacionEffects(rows: seq<Factura>, ncId: string, facturaId: string, fecha: string)
    requires FindById(rows, ncId).Some? && FindById(rows, facturaId).Some?
    requires ncId != facturaId
    ensures var i, j := FindById(rows, ncId).value, FindById(rows, facturaId).value;
      var out := Compensacion(rows, i, j, ncId, facturaId, fecha);
      |out| == |rows| && i != j
      && out[i].pagado == "TRUE" && out[j].pagado == "TRUE"
      && out[i].estado == "Compensado" && out[j].estado == "Compensado"
      && out[i].fechaPago == fecha && out[j].fechaPago == fecha
      && out[i].documentoRelacionado == out[j].id && out[j].documentoRelacionado == out[i].id
      && out[i].montoCobrar == rows[i].montoCobrar && out[j].montoCobrar == rows[j].montoCobrar
      && SameDocument(rows[i], out[i]) && SameDocument(rows[j], out[j])
      && PagadoVista(out[i]) && PagadoVista(out[j])
      && (forall k :: 0 <= k < |rows| && k != i && k != j ==> out[k] == rows[k])
  {
    var i, j := FindById(rows, ncId).value, FindById(rows, facturaId).value;
    var out := Compensacion(rows, i, j, ncId, facturaId, fecha);
    assert EstadoResuelto(out[i]) == "Compensado" && EstadoResuelto(out[j]) == "Compensado";
  }

  /** A compensated invoice is no longer offered for compensation. */
  lemma CompensadaNoPendiente(rows: seq<Factura>, ncId: string, facturaId: string, fecha: string, clienteId: string)
    requires FindById(rows, ncId).Some? && FindById(rows, facturaId).Some?
    ensures var j := FindById(rows, facturaId).value;
      !Compensable(Compensacion(rows, FindById(rows, ncId).value, j, ncId, facturaId, fecha)[j], clienteId)
  {
    var i, j := FindById(rows, ncId).value, FindById(rows, facturaId).value;
    var out := Compensacion(rows, i, j, ncId, facturaId, fecha);
    assert EstadoResuelto(out[j]) == "Compensado";
  }

  /** The Facturas worksheet, data rows only; `update_cell(row, col, v)` on
      the columns the two handlers write becomes one setter per column. */
  class FacturasSheet {
    var rows: seq<Factura>

    constructor (initial: seq<Factura>)
      ensures rows == initial
    {
      rows := initial;
    }

    method SetMontoCobrar(i: nat, x: real)
      requires i < |rows|
      modifies this
      ensures rows == old(rows)[i := old(rows)[i].(montoCobrar := x)]
    {
      rows := rows[i := rows[i].(montoCobrar := x)];
    }

    method SetPagado(i: nat, v: string)
      requires i < |rows|
      modifies this
      ensures rows == old(rows)[i := old(rows)[i].(pagado := v)]
    {
      rows := rows[i := rows[i].(pagado := v)];
    }

    method SetFechaPago(i: nat, v: string)
      requires i < |rows|
      modifies this
      ensures rows == old(rows)[i := old(rows)[i].(fechaPago := v)]
    {
      rows := rows[i := rows[i].(fechaPago := v)];
    }

    method SetNotas(i: nat, v: string)
      requires i < |rows|
      modifies this
      ensures rows == old(rows)[i := old(rows)[i].(notas := v)]
    {
      rows := rows[i := rows[i].(notas := v)];
    }

    method SetDocumentoRelacionado(i: nat, v: string)
      requires i < |rows|
      modifies this
      ensures rows == old(rows)[i := old(rows)[i].(documentoRelacionado := v)]
    {
      rows := rows[i := rows[i].(documentoRelacionado := v)];
    }

    method SetEstado(i: nat, v: string)
      requires i < |rows|
      modifies this
      ensures rows == old(rows)[i := old(rows)[i].(estado := v)]
    {
      rows := rows[i := rows[i].(estado := v)];
    }

    /** `registrar_pago`: an unknown id changes nothing; otherwise the row
      is written cell by cell and ends as `PagoRow` says. The row is found
      by its ID column (`FindById`), the corrected form of `ws.find`. */
    method RegistrarPago(facturaId: string, montoParcial: Option<real>, fechaPago: string, nota: string)
      modifies this
      ensures FindById(old(rows), facturaId).None? ==> rows == old(rows)
      ensures FindById(old(rows), facturaId).Some? ==>
        var i := FindById(old(rows), facturaId).value;
        rows == old(rows)[i := PagoRow(old(rows)[i], montoParcial, fechaPago, nota)]
    {
      var cell := FindById(rows, facturaId);
      if cell.None? {
        return;
      }
      var row := cell.value;
      if Truthy(montoParcial) {
        var montoActual := rows[row].montoCobrar;
        SetMontoCobrar(row, montoActual - montoParcial.value);
      } else {
        SetPagado(row, "TRUE");
        SetEstado(row, "Pagado");
      }
      SetFechaPago(row, fechaPago);
      var notasActuales := rows[row].notas;
      if nota != "" {
        SetNotas(row, AppendNote(notasActuales, "Pago: " + nota));
      }
    }

    /** The five writes to one side of a compensation. */
    method Marcar(row: nat, otro: string, fecha: string, etiqueta: string)
      requires row < |rows|
      modifies this
      ensures rows == old(rows)[row := MarcarCompensado(old(rows)[row], otro, fecha, etiqueta)]
    {
      SetPagado(row, "TRUE");
      SetFechaPago(row, fecha);
      SetDocumentoRelacionado(row, otro);
      SetEstado(row, "Compensado");
      var notas := rows[row].notas;
      SetNotas(row, AppendNote(notas, "Compensado con " + etiqueta + " " + otro));
    }

    /** `compensar_documentos`: 404 before any write when either id is
      unknown; otherwise both rows are written and the offset amount is
      returned. Both rows are found by their ID column (`FindById`). */
    method CompensarDocumentos(ncId: string, facturaId: string, montoPedido: real, fecha: string)
      returns (out: Outcome<real>)
      modifies this
      ensures FindById(old(rows), ncId).None? ==>
        out == Err(404, "Nota de crédito no encontrada") && rows == old(rows)
      ensures FindById(old(rows), ncId).Some? && FindById(old(rows), facturaId).None? ==>
        out == Err(404, "Factura no encontrada") && rows == old(rows)
      ensures FindById(old(rows), ncId).Some? && FindById(old(rows), facturaId).Some? ==>
        var i, j := FindById(old(rows), ncId).value, FindById(old(rows), facturaId).value;
        out == Ok(MontoCompensado(montoPedido, old(rows)[i], old(rows)[j]))
        && rows == Compensacion(old(rows), i, j, ncId, facturaId, fecha)
    {
      var cellNc := FindById(rows, ncId);
      if cellNc.None? {
        return Err(404, "Nota de crédito no encontrada");
      }
      var cellFac := FindById(rows, facturaId);
      if cellFac.None? {
        return Err(404, "Factura no encontrada");
      }
      var rowNc, rowFac := cellNc.value, cellFac.value;
      var montoNc, montoFac := rows[rowNc].montoCobrar, rows[rowFac].montoCobrar;
      var monto := montoPedido;
      if monto == 0.0 {
        monto := Min(Abs(montoNc), Abs(montoFac));
      }
      Marcar(rowNc, facturaId, fecha, "FAC");
      Marcar(rowFac, ncId, fecha, "NC");
      out := Ok(monto);
    }
  }
}
