/** The rows of the Facturas and Clientes sheets, the document-type rule and
    the state a row is shown with. */
module Documents {
  import opened Text

  /** One row of the Facturas sheet, in the order of its nineteen columns
      (`HEADERS_FACTURAS`). The four amount columns hold numbers; every other
      cell is text, with `""` for a blank cell. */
  datatype Factura = Factura(
    id: string,                    // 1  ID
    consecutivo: string,           // 2  Consecutivo
    fecha: string,                 // 3  Fecha
    clienteId: string,             // 4  ClienteID
    clienteNombre: string,         // 5  ClienteNombre
    cedulaCliente: string,         // 6  CedulaCliente
    totalFactura: real,            // 7  TotalFactura
    corfoga: real,                 // 8  CORFOGA
    otrosRebajos: real,            // 9  OtrosRebajos
    montoCobrar: real,             // 10 MontoCobrar
    fechaVencimiento: string,      // 11 FechaVencimiento
    pagado: string,                // 12 Pagado ("TRUE" / "FALSE")
    fechaPago: string,             // 13 FechaPago
    tipoProducto: string,          // 14 TipoProducto
    ordenCompra: string,           // 15 OrdenCompra
    notas: string,                 // 16 Notas
    tipoDocumento: string,         // 17 TipoDocumento ("FAC" / "NC")
    documentoRelacionado: string,  // 18 DocumentoRelacionado
    estado: string                 // 19 Estado
  )

  /** One row of the Clientes sheet, as far as the reports and the portal
      read it. */
  datatype Cliente = Cliente(id: string, identificacion: string, nombre: string, tokenPortal: string)

  const FAC := "FAC"
  const NC := "NC"

  /** `detectar_tipo_documento`: the two characters after the first six of
      the consecutive number hold the document type, and `03` is a credit note. */
  function DetectarTipoDocumento(consecutivo: string): (t: string)
    ensures t == NC || t == FAC
    ensures t == NC <==> |consecutivo| >= 8 && consecutivo[6] == '0' && consecutivo[7] == '3'
  {
    if |consecutivo| >= 8 && consecutivo[6..8] == "03" then NC else FAC
  }

  /** Only the first eight characters decide the type. */
  lemma TipoByPrefix(a: string, b: string)
    requires |a| >= 8 && |b| >= 8 && a[..8] == b[..8]
    ensures DetectarTipoDocumento(a) == DetectarTipoDocumento(b)
  {
    assert a[6] == a[..8][6] && a[7] == a[..8][7];
    assert b[6] == b[..8][6] && b[7] == b[..8][7];
  }

  /** The three documented cases. */
  lemma TipoExamples()
    ensures DetectarTipoDocumento("10000101") == FAC
    ensures DetectarTipoDocumento("10000103") == NC
    ensures DetectarTipoDocumento("123") == FAC
  {
  }

  /** The document type a row is listed with: the stored one, or the one
      detected from its consecutive number when the cell is blank. */
  function TipoResuelto(f: Factura): (t: string)
    ensures f.tipoDocumento != "" ==> t == f.tipoDocumento
    ensures f.tipoDocumento == "" ==> t == DetectarTipoDocumento(f.consecutivo)
  {
    if f.tipoDocumento != "" then f.tipoDocumento else DetectarTipoDocumento(f.consecutivo)
  }

  /** The state a row is listed with: the stored Estado, or, when it is
      blank, `Pagado` or `Pendiente` from the Pagado flag. */
  function EstadoResuelto(f: Factura): (e: string)
    ensures e != ""
    ensures f.estado != "" ==> e == f.estado
    ensures f.estado == "" ==> (e == "Pagado" <==> f.pagado == "TRUE")
    ensures f.estado == "" ==> (e == "Pagado" || e == "Pendiente")
  {
    if f.estado != "" then f.estado
    else if f.pagado == "TRUE" then "Pagado"
    else "Pendiente"
  }

  /** The `pagado` flag the listing exposes. */
  predicate PagadoVista(f: Factura) {
    EstadoResuelto(f) in ["Pagado", "Compensado"]
  }

  /** A row without a stored state is exposed as paid exactly when its
      Pagado cell says TRUE; a row with one is exposed as paid exactly when
      that state is Pagado or Compensado, whatever the Pagado cell holds. */
  lemma PagadoVistaCases(f: Factura)
    ensures f.estado == "" ==> (PagadoVista(f) <==> f.pagado == "TRUE")
    ensures f.estado != "" ==> (PagadoVista(f) <==> f.estado == "Pagado" || f.estado == "Compensado")
  {
  }

  /** The listing of `get_facturas` for one row: the row with its resolved
      type and state and the derived paid flag. */
  datatype FacturaVista = FacturaVista(row: Factura, tipoDocumento: string, estado: string, pagado: bool)

  function Vista(f: Factura): (v: FacturaVista)
    ensures v.row == f && v.estado != ""
    ensures v.pagado <==> v.estado == "Pagado" || v.estado == "Compensado"
  {
    FacturaVista(f, TipoResuelto(f), EstadoResuelto(f), PagadoVista(f))
  }

  /** Invoices of one client that are still open and can be offset against a
      credit note: type FAC, resolved state Pendiente, same client id. */
  predicate Compensable(f: Factura, clienteId: string) {
    TipoResuelto(f) == FAC && EstadoResuelto(f) == "Pendiente" && f.clienteId == clienteId
  }

  function PendientesCliente(rows: seq<Factura>, clienteId: string): (r: seq<Factura>)
    ensures |r| <= |rows|
  {
    if rows == [] then []
    else
      var p := PendientesCliente(rows[..|rows| - 1], clienteId);
      var f := rows[|rows| - 1];
      if Compensable(f, clienteId) then p + [f] else p
  }

  /** The open invoices found are rows of the sheet, each compensable, and
      every compensable row is among them. */
  lemma {:induction false} PendientesClienteSpec(rows: seq<Factura>, clienteId: string)
    ensures forall i :: 0 <= i < |PendientesCliente(rows, clienteId)| ==>
      Compensable(PendientesCliente(rows, clienteId)[i], clienteId) && PendientesCliente(rows, clienteId)[i] in rows
    ensures forall i :: 0 <= i < |rows| && Compensable(rows[i], clienteId) ==> rows[i] in PendientesCliente(rows, clienteId)
  {
    if rows != [] {
      var init, f := rows[..|rows| - 1], rows[|rows| - 1];
      assert rows == init + [f];
      PendientesClienteSpec(init, clienteId);
      var p := PendientesCliente(init, clienteId);
      if Compensable(f, clienteId) {
        assert PendientesCliente(rows, clienteId) == p + [f];
      } else {
        assert PendientesCliente(rows, clienteId) == p;
      }
      forall i | 0 <= i < |rows| && Compensable(rows[i], clienteId)
        ensures rows[i] in PendientesCliente(rows, clienteId)
      {
        if i < |init| {
          assert rows[i] == init[i];
        }
      }
    }
  }
}
