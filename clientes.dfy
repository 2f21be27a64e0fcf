/** The per-client summaries: the PDF one (`reporte_clientes_pdf`), which
    lists only clients that still owe something, and the Excel one
    (`reporte_clientes_excel`), which lists every client with invoices and
    adds what was collected this month and an overdue percentage. */
module Clientes {
  import opened Wrappers
  import opened Documents
  import opened Sorting
  import opened Reports

  /** `[f for f in facturas if str(f.get('ClienteID', '')) == cliente_id]`. */
  function FacturasDe(s: seq<Factura>, clienteId: string): (r: seq<Factura>)
    ensures |r| <= |s|
  {
    if s == [] then []
    else
      var p := FacturasDe(s[..|s| - 1], clienteId);
      var f := s[|s| - 1];
      if f.clienteId == clienteId then p + [f] else p
  }

  lemma FacturasDeSnoc(s: seq<Factura>, f: Factura, clienteId: string)
    ensures FacturasDe(s + [f], clienteId) == FacturasDe(s, clienteId) + (if f.clienteId == clienteId then [f] else [])
  {
    assert (s + [f])[..|s|] == s;
  }

  /** The client's rows are exactly the rows with its id. */
  lemma {:induction false} FacturasDeSpec(s: seq<Factura>, clienteId: string)
    ensures forall f :: f in FacturasDe(s, clienteId) <==> f in s && f.clienteId == clienteId
  {
    if s != [] {
      var init, f := s[..|s| - 1], s[|s| - 1];
      assert s == init + [f];
      FacturasDeSpec(init, clienteId);
      FacturasDeSnoc(init, f, clienteId);
    }
  }

  /** A row whose due date parses and lies before today. */
  predicate VenceAntes(f: Factura, cal: Calendario) {
    cal(f.fechaVencimiento).Some? && cal(f.fechaVencimiento).value < 0
  }

  function MontoSi(f: Factura, cal: Calendario): real {
    if VenceAntes(f, cal) then f.montoCobrar else 0.0
  }

  /** The overdue amount among `s`: the amounts of the rows due before today. */
  function MontoVencido(s: seq<Factura>, cal: Calendario): real {
    if s == [] then 0.0 else MontoVencido(s[..|s| - 1], cal) + MontoSi(s[|s| - 1], cal)
  }

  /** The `monto_venc` loop. */
  method SumarVencido(pendientes: seq<Factura>, cal: Calendario) returns (montoVenc: real)
    ensures montoVenc == MontoVencido(pendientes, cal)
  {
    montoVenc := 0.0;
    for i := 0 to |pendientes|
      invariant montoVenc == MontoVencido(pendientes[..i], cal)
    {
      var f := pendientes[i];
      assert pendientes[..i + 1][..i] == pendientes[..i];
      match cal(f.fechaVencimiento) {
        case Some(d) =>
          if d < 0 {
            montoVenc := montoVenc + f.montoCobrar;
          }
        case None =>
      }
    }
    assert pendientes[..|pendientes|] == pendientes;
  }

  /** With non-negative amounts the overdue amount lies between nothing and
      the whole amount. */
  lemma {:induction false} MontoVencidoBounds(s: seq<Factura>, cal: Calendario)
    requires forall i :: 0 <= i < |s| ==> s[i].montoCobrar >= 0.0
    ensures 0.0 <= MontoVencido(s, cal) <= SumBy(s, MontoDe)
  {
    if s != [] {
      MontoVencidoBounds(s[..|s| - 1], cal);
    }
  }

  /** Rows that do not fall due before today add nothing to the overdue amount. */
  lemma {:induction false} MontoVencidoNone(s: seq<Factura>, cal: Calendario)
    requires forall i :: 0 <= i < |s| ==> !VenceAntes(s[i], cal)
    ensures MontoVencido(s, cal) == 0.0
  {
    if s != [] {
      MontoVencidoNone(s[..|s| - 1], cal);
    }
  }

  // ------------------------------------------------------------ PDF summary

  /** One line of the PDF summary. */
  datatype Saldo = Saldo(nombre: string, identificacion: string, pendientes: nat, monto: real, vencido: real)

  function SaldoMonto(r: Saldo): real { r.monto }
  function SaldoVencido(r: Saldo): real { r.vencido }
  function SaldoPendientes(r: Saldo): real { r.pendientes as real }

  /** `reverse=True` on the pending amount. */
  predicate MayorSaldo(a: Saldo, b: Saldo) { a.monto >= b.monto }

  /** The line a client gets, from the client's invoices. */
  function SaldoDe(c: Cliente, facturas: seq<Factura>, cal: Calendario): Saldo {
    var p := Pendientes(FacturasDe(facturas, c.id));
    Saldo(c.nombre, c.identificacion, |p|, SumBy(p, MontoDe), MontoVencido(p, cal))
  }

  /** A client is listed when it has invoices and a positive pending amount. */
  predicate ConSaldo(c: Cliente, facturas: seq<Factura>, cal: Calendario) {
    FacturasDe(facturas, c.id) != [] && SaldoDe(c, facturas, cal).monto > 0.0
  }

  /** The lines, in the order of the client sheet. */
  function Saldos(clientes: seq<Cliente>, facturas: seq<Factura>, cal: Calendario): (r: seq<Saldo>)
    ensures |r| <= |clientes|
  {
    if clientes == [] then []
    else
      var p := Saldos(clientes[..|clientes| - 1], facturas, cal);
      var c := clientes[|clientes| - 1];
      if ConSaldo(c, facturas, cal) then p + [SaldoDe(c, facturas, cal)] else p
  }

  /** Only positive pending amounts are listed, and every client with
      invoices and a positive pending amount is. */
  lemma {:induction false} SaldosSpec(clientes: seq<Cliente>, facturas: seq<Factura>, cal: Calendario)
    ensures forall i :: 0 <= i < |Saldos(clientes, facturas, cal)| ==> Saldos(clientes, facturas, cal)[i].monto > 0.0
    ensures forall c :: c in clientes && ConSaldo(c, facturas, cal) ==> SaldoDe(c, facturas, cal) in Saldos(clientes, facturas, cal)
  {
    if clientes != [] {
      var n := |clientes| - 1;
      var init, c := clientes[..n], clientes[n];
      assert clientes == init + [c];
      SaldosSpec(init, facturas, cal);
      SaldosNext(clientes, n, facturas, cal);
      assert clientes[..n + 1] == clientes;
      var p, r := Saldos(init, facturas, cal), Saldos(clientes, facturas, cal);
      var t := if ConSaldo(c, facturas, cal) then [SaldoDe(c, facturas, cal)] else [];
      assert r == p + t;
      forall i | 0 <= i < |r| ensures r[i].monto > 0.0 {
        if i < |p| {
          assert r[i] == p[i];
        }
      }
    }
  }

  lemma SaldosNext(clientes: seq<Cliente>, i: nat, facturas: seq<Factura>, cal: Calendario)
    requires i < |clientes|
    ensures Saldos(clientes[..i + 1], facturas, cal)
         == Saldos(clientes[..i], facturas, cal)
            + (if ConSaldo(clientes[i], facturas, cal) then [SaldoDe(clientes[i], facturas, cal)] else [])
  {
    assert clientes[..i + 1][..i] == clientes[..i];
  }

  lemma SaldosAdd(clientes: seq<Cliente>, i: nat, facturas: seq<Factura>, cal: Calendario)
    requires i < |clientes| && ConSaldo(clientes[i], facturas, cal)
    ensures Saldos(clientes[..i + 1], facturas, cal) == Saldos(clientes[..i], facturas, cal) + [SaldoDe(clientes[i], facturas, cal)]
  {
    SaldosNext(clientes, i, facturas, cal);
  }

  lemma SaldosSkip(clientes: seq<Cliente>, i: nat, facturas: seq<Factura>, cal: Calendario)
    requires i < |clientes| && !ConSaldo(clientes[i], facturas, cal)
    ensures Saldos(clientes[..i + 1], facturas, cal) == Saldos(clientes[..i], facturas, cal)
  {
    SaldosNext(clientes, i, facturas, cal);
  }

  /** The body of the PDF summary's loop for one client: nothing for a
      client without invoices or whose pending amount is not positive,
      otherwise its line. */
  method LineaSaldo(cliente: Cliente, facturas: seq<Factura>, cal: Calendario) returns (linea: Option<Saldo>)
    ensures ConSaldo(cliente, facturas, cal) ==> linea == Some(SaldoDe(cliente, facturas, cal))
    ensures !ConSaldo(cliente, facturas, cal) ==> linea == None
  {
    var facs := FacturasDe(facturas, cliente.id);
    if facs == [] {
      return None;
    }
    var pendientes := Pendientes(facs);
    var montoPend := SumBy(pendientes, MontoDe);
    var montoVenc := SumarVencido(pendientes, cal);
    if montoPend > 0.0 {
      linea := Some(Saldo(cliente.nombre, cliente.identificacion, |pendientes|, montoPend, montoVenc));
    } else {
      linea := None;
    }
  }

  /** What the PDF summary shows: its lines, then a TOTAL line. */
  datatype ResumenPdf = ResumenPdf(lineas: seq<Saldo>, totalPendientes: nat, totalPendiente: real, totalVencido: real)

  /** `reporte_clientes_pdf` up to the rendering: the loop over clients with
      its running totals, the descending sort by pending amount, and the
      count of pending invoices on the TOTAL line. */
  method ResumenClientesPdf(clientes: seq<Cliente>, facturas: seq<Factura>, cal: Calendario) returns (r: ResumenPdf)
    ensures r.lineas == SortBy(Saldos(clientes, facturas, cal), MayorSaldo)
    ensures r.totalPendiente == SumBy(Saldos(clientes, facturas, cal), SaldoMonto)
    ensures r.totalVencido == SumBy(Saldos(clientes, facturas, cal), SaldoVencido)
    ensures r.totalPendientes as real == SumBy(r.lineas, SaldoPendientes)
  {
    var resumen, totalPendiente, totalVencido := LineasSaldo(clientes, facturas, cal);
    MayorSaldoOrder();
    var lineas := SortBy(resumen, MayorSaldo);
    var n := CountPendientes(lineas);
    r := ResumenPdf(lineas, n, totalPendiente, totalVencido);
  }

  /** The loop over the client sheet that builds the PDF summary's lines
      and its two running totals. */
  method LineasSaldo(clientes: seq<Cliente>, facturas: seq<Factura>, cal: Calendario)
    returns (resumen: seq<Saldo>, totalPendiente: real, totalVencido: real)
    ensures resumen == Saldos(clientes, facturas, cal)
    ensures totalPendiente == SumBy(resumen, SaldoMonto)
    ensures totalVencido == SumBy(resumen, SaldoVencido)
  {
    resumen, totalPendiente, totalVencido := [], 0.0, 0.0;
    for i := 0 to |clientes|
      invariant resumen == Saldos(clientes[..i], facturas, cal)
      invariant totalPendiente == SumBy(resumen, SaldoMonto)
      invariant totalVencido == SumBy(resumen, SaldoVencido)
    {
      var linea := LineaSaldo(clientes[i], facturas, cal);
      if linea.Some? {
        SaldosAdd(clientes, i, facturas, cal);
        resumen, totalPendiente, totalVencido := Acumular(resumen, totalPendiente, totalVencido, linea.value);
      } else {
        SaldosSkip(clientes, i, facturas, cal);
      }
    }
    assert clientes[..|clientes|] == clientes;
  }

  /** Appending a line to the summary and adding it to both totals. */
  method Acumular(resumen: seq<Saldo>, totalPendiente: real, totalVencido: real, linea: Saldo)
    returns (resumen': seq<Saldo>, totalPendiente': real, totalVencido': real)
    requires totalPendiente == SumBy(resumen, SaldoMonto)
    requires totalVencido == SumBy(resumen, SaldoVencido)
    ensures resumen' == resumen + [linea]
    ensures totalPendiente' == SumBy(resumen', SaldoMonto)
    ensures totalVencido' == SumBy(resumen', SaldoVencido)
  {
    SumBySnoc(resumen, linea, SaldoMonto);
    SumBySnoc(resumen, linea, SaldoVencido);
    resumen' := resumen + [linea];
    totalPendiente' := totalPendiente + linea.monto;
    totalVencido' := totalVencido + linea.vencido;
  }

  /** `sum(r['pendientes'] for r in resumen_data)`. */
  method CountPendientes(lineas: seq<Saldo>) returns (n: nat)
    ensures n as real == SumBy(lineas, SaldoPendientes)
  {
    n := 0;
    for i := 0 to |lineas|
      invariant n as real == SumBy(lineas[..i], SaldoPendientes)
    {
      assert lineas[..i + 1][..i] == lineas[..i];
      n := n + lineas[i].pendientes;
    }
    assert lineas[..|lineas|] == lineas;
  }

  lemma MayorSaldoOrder()
    ensures TotalPreorder(MayorSaldo)
  {
  }

  /** The PDF summary lists every client that owes something, only such
      clients, largest balance first; and its TOTAL line adds up the lines
      shown. */
  lemma ResumenPdfShape(clientes: seq<Cliente>, facturas: seq<Factura>, cal: Calendario)
    ensures var s := Saldos(clientes, facturas, cal);
      var l := SortBy(s, MayorSaldo);
      && (forall i :: 0 <= i < |l| ==> l[i].monto > 0.0)
      && (forall c :: c in clientes && ConSaldo(c, facturas, cal) ==> SaldoDe(c, facturas, cal) in l)
      && (forall i, j :: 0 <= i < j < |l| ==> l[i].monto >= l[j].monto)
      && SumBy(l, SaldoMonto) == SumBy(s, SaldoMonto)
      && SumBy(l, SaldoVencido) == SumBy(s, SaldoVencido)
  {
    MayorSaldoOrder();
    SaldosSpec(clientes, facturas, cal);
    var s := Saldos(clientes, facturas, cal);
    var l := SortBy(s, MayorSaldo);
    forall i | 0 <= i < |l| ensures l[i].monto > 0.0 {
      assert l[i] in multiset(s);
    }
    forall c | c in clientes && ConSaldo(c, facturas, cal) ensures SaldoDe(c, facturas, cal) in l {
      assert SaldoDe(c, facturas, cal) in multiset(s);
    }
    SumByPermutation(l, s, SaldoMonto);
    SumByPermutation(l, s, SaldoVencido);
  }

  // ---------------------------------------------------------- Excel summary

  /** A paid row whose payment date is set and falls on or after the first
      day of the month (`inicioMes` days from today). */
  predicate CobradaEnMes(f: Factura, cal: Calendario, inicioMes: int) {
    f.pagado == "TRUE" && f.fechaPago != ""
    && cal(f.fechaPago).Some? && cal(f.fechaPago).value >= inicioMes
  }

  function CobroSi(f: Factura, cal: Calendario, inicioMes: int): real {
    if CobradaEnMes(f, cal, inicioMes) then f.montoCobrar else 0.0
  }

  /** `cobrado_mes` over a client's rows. */
  function CobradoMes(s: seq<Factura>, cal: Calendario, inicioMes: int): real {
    if s == [] then 0.0 else CobradoMes(s[..|s| - 1], cal, inicioMes) + CobroSi(s[|s| - 1], cal, inicioMes)
  }

  lemma CobradoSnoc(s: seq<Factura>, f: Factura, cal: Calendario, inicioMes: int)
    ensures CobradoMes(s + [f], cal, inicioMes) == CobradoMes(s, cal, inicioMes) + CobroSi(f, cal, inicioMes)
  {
    assert (s + [f])[..|s|] == s;
  }

  /** `[f for f in facs_cliente if f.get('Pagado') == 'TRUE']`. */
  function Pagadas(s: seq<Factura>): (r: seq<Factura>)
    ensures |r| <= |s|
  {
    if s == [] then []
    else
      var p := Pagadas(s[..|s| - 1]);
      var f := s[|s| - 1];
      if f.pagado == "TRUE" then p + [f] else p
  }

  lemma PagadasSnoc(s: seq<Factura>, f: Factura)
    ensures Pagadas(s + [f]) == Pagadas(s) + (if f.pagado == "TRUE" then [f] else [])
  {
    assert (s + [f])[..|s|] == s;
  }

  /** The paid rows are exactly the rows whose Pagado is `TRUE`. */
  lemma {:induction false} PagadasSpec(s: seq<Factura>)
    ensures forall f :: f in Pagadas(s) <==> f in s && f.pagado == "TRUE"
  {
    if s != [] {
      var init, f := s[..|s| - 1], s[|s| - 1];
      assert s == init + [f];
      PagadasSpec(init);
      PagadasSnoc(init, f);
    }
  }

  /** The `cobrado_mes` loop over the paid rows. */
  method SumarCobrado(pagadas: seq<Factura>, cal: Calendario, inicioMes: int) returns (cobrado: real)
    ensures cobrado == CobradoMes(pagadas, cal, inicioMes)
  {
    cobrado := 0.0;
    for i := 0 to |pagadas|
      invariant cobrado == CobradoMes(pagadas[..i], cal, inicioMes)
    {
      var f := pagadas[i];
      assert pagadas[..i + 1][..i] == pagadas[..i];
      if f.pagado == "TRUE" && f.fechaPago != "" {
        match cal(f.fechaPago) {
          case Some(d) =>
            if d >= inicioMes {
              cobrado := cobrado + f.montoCobrar;
            }
          case None =>
        }
      }
    }
    assert pagadas[..|pagadas|] == pagadas;
  }

  /** Only paid rows can count as collected, so restricting to them first
      changes nothing. */
  lemma {:induction false} CobradoOfPagadas(s: seq<Factura>, cal: Calendario, inicioMes: int)
    ensures CobradoMes(Pagadas(s), cal, inicioMes) == CobradoMes(s, cal, inicioMes)
  {
    if s != [] {
      var init, f := s[..|s| - 1], s[|s| - 1];
      assert s == init + [f];
      CobradoOfPagadas(init, cal, inicioMes);
      assert CobradoMes(s, cal, inicioMes) == CobradoMes(init, cal, inicioMes) + CobroSi(f, cal, inicioMes) by {
        CobradoSnoc(init, f, cal, inicioMes);
      }
      if f.pagado == "TRUE" {
        assert Pagadas(s) == Pagadas(init) + [f] by {
          PagadasSnoc(init, f);
        }
        CobradoSnoc(Pagadas(init), f, cal, inicioMes);
      } else {
        assert Pagadas(s) == Pagadas(init) by {
          PagadasSnoc(init, f);
        }
        assert CobroSi(f, cal, inicioMes) == 0.0;
      }
    }
  }

  /** One line of the Excel summary. */
  datatype Cuenta = Cuenta(
    nombre: string,
    identificacion: string,
    totalFacturas: nat,
    facturasPendientes: nat,
    montoPendiente: real,
    montoVencido: real,
    cobradoMes: real)

  function CuentaPendiente(r: Cuenta): real { r.montoPendiente }
  function CuentaVencido(r: Cuenta): real { r.montoVencido }
  function CuentaCobrado(r: Cuenta): real { r.cobradoMes }
  function CuentaPendientes(r: Cuenta): real { r.facturasPendientes as real }

  predicate MayorPendiente(a: Cuenta, b: Cuenta) { a.montoPendiente >= b.montoPendiente }

  lemma MayorPendienteOrder()
    ensures TotalPreorder(MayorPendiente)
  {
  }

  function CuentaDe(c: Cliente, facturas: seq<Factura>, cal: Calendario, inicioMes: int): Cuenta {
    var facs := FacturasDe(facturas, c.id);
    var p := Pendientes(facs);
    Cuenta(c.nombre, c.identificacion, |facs|, |p|, SumBy(p, MontoDe), MontoVencido(p, cal),
           CobradoMes(facs, cal, inicioMes))
  }

  /** Every client with at least one invoice gets a line, whatever it owes. */
  function Cuentas(clientes: seq<Cliente>, facturas: seq<Factura>, cal: Calendario, inicioMes: int): (r: seq<Cuenta>)
    ensures |r| <= |clientes|
  {
    if clientes == [] then []
    else
      var p := Cuentas(clientes[..|clientes| - 1], facturas, cal, inicioMes);
      var c := clientes[|clientes| - 1];
      if FacturasDe(facturas, c.id) != [] then p + [CuentaDe(c, facturas, cal, inicioMes)] else p
  }

  lemma CuentasNext(clientes: seq<Cliente>, i: nat, facturas: seq<Factura>, cal: Calendario, inicioMes: int)
    requires i < |clientes|
    ensures Cuentas(clientes[..i + 1], facturas, cal, inicioMes)
         == Cuentas(clientes[..i], facturas, cal, inicioMes)
            + (if FacturasDe(facturas, clientes[i].id) != [] then [CuentaDe(clientes[i], facturas, cal, inicioMes)] else [])
  {
    assert clientes[..i + 1][..i] == clientes[..i];
  }

  /** A client's line counts at least one invoice, and no more pending
      invoices than invoices. */
  lemma CuentaCounts(c: Cliente, facturas: seq<Factura>, cal: Calendario, inicioMes: int)
    requires FacturasDe(facturas, c.id) != []
    ensures var r := CuentaDe(c, facturas, cal, inicioMes);
      r.totalFacturas > 0 && r.facturasPendientes <= r.totalFacturas
  {
  }

  /** Every client with invoices gets a line, whatever it owes, and each
      line's pending count is at most its invoice count. */
  lemma {:induction false} CuentasSpec(clientes: seq<Cliente>, facturas: seq<Factura>, cal: Calendario, inicioMes: int)
    ensures forall c :: c in clientes && FacturasDe(facturas, c.id) != [] ==>
      CuentaDe(c, facturas, cal, inicioMes) in Cuentas(clientes, facturas, cal, inicioMes)
    ensures forall i :: 0 <= i < |Cuentas(clientes, facturas, cal, inicioMes)| ==>
      Cuentas(clientes, facturas, cal, inicioMes)[i].totalFacturas > 0
      && Cuentas(clientes, facturas, cal, inicioMes)[i].facturasPendientes <= Cuentas(clientes, facturas, cal, inicioMes)[i].totalFacturas
  {
    if clientes != [] {
      var n := |clientes| - 1;
      var init, c := clientes[..n], clientes[n];
      assert clientes == init + [c];
      CuentasSpec(init, facturas, cal, inicioMes);
      CuentasNext(clientes, n, facturas, cal, inicioMes);
      assert clientes[..n + 1] == clientes;
      var p, r := Cuentas(init, facturas, cal, inicioMes), Cuentas(clientes, facturas, cal, inicioMes);
      var has := FacturasDe(facturas, c.id) != [];
      var t := if has then [CuentaDe(c, facturas, cal, inicioMes)] else [];
      assert r == p + t;
      if has {
        CuentaCounts(c, facturas, cal, inicioMes);
      }
      forall i | 0 <= i < |r| ensures r[i].totalFacturas > 0 && r[i].facturasPendientes <= r[i].totalFacturas {
        if i < |p| {
          assert r[i] == p[i];
        }
      }
    }
  }

  /** What the Excel summary shows. Its TOTAL line's invoice count,
      `total_facturas`, adds up the PENDING invoices of each client while
      each line's `total_facturas` counts all of them. */
  datatype ResumenExcel = ResumenExcel(
    lineas: seq<Cuenta>,
    totalFacturas: real,
    totalPendiente: real,
    totalVencido: real,
    totalPagadoMes: real)

  /** The body of the Excel summary's loop for a client with invoices: its
      pending rows, paid rows, and the four amounts of its line. */
  method LineaCuenta(cliente: Cliente, facturas: seq<Factura>, cal: Calendario, inicioMes: int) returns (linea: Cuenta)
    ensures linea == CuentaDe(cliente, facturas, cal, inicioMes)
  {
    var facsCliente := FacturasDe(facturas, cliente.id);
    var pendientes := Pendientes(facsCliente);
    var pagadas := Pagadas(facsCliente);
    var montoPendiente := SumBy(pendientes, MontoDe);
    var montoVencido := SumarVencido(pendientes, cal);
    var cobradoMes := SumarCobrado(pagadas, cal, inicioMes);
    CobradoOfPagadas(facsCliente, cal, inicioMes);
    linea := Cuenta(cliente.nombre, cliente.identificacion, |facsCliente|, |pendientes|,
                    montoPendiente, montoVencido, cobradoMes);
  }

  /** `reporte_clientes_excel` up to the rendering. */
  method ResumenClientesExcel(clientes: seq<Cliente>, facturas: seq<Factura>, cal: Calendario, inicioMes: int)
    returns (r: ResumenExcel)
    ensures var s := Cuentas(clientes, facturas, cal, inicioMes);
      && r.lineas == SortBy(s, MayorPendiente)
      && r.totalFacturas == SumBy(s, CuentaPendientes)
      && r.totalPendiente == SumBy(s, CuentaPendiente)
      && r.totalVencido == SumBy(s, CuentaVencido)
      && r.totalPagadoMes == SumBy(s, CuentaCobrado)
  {
    var resumen: seq<Cuenta> := [];
    var totalFacturas, totalPendiente, totalVencido, totalPagadoMes := 0.0, 0.0, 0.0, 0.0;
    for i := 0 to |clientes|
      invariant resumen == Cuentas(clientes[..i], facturas, cal, inicioMes)
      invariant totalFacturas == SumBy(resumen, CuentaPendientes)
      invariant totalPendiente == SumBy(resumen, CuentaPendiente)
      invariant totalVencido == SumBy(resumen, CuentaVencido)
      invariant totalPagadoMes == SumBy(resumen, CuentaCobrado)
    {
      var cliente := clientes[i];
      CuentasNext(clientes, i, facturas, cal, inicioMes);
      if FacturasDe(facturas, cliente.id) == [] {
        continue;
      }
      var linea := LineaCuenta(cliente, facturas, cal, inicioMes);
      resumen, totalFacturas, totalPendiente, totalVencido, totalPagadoMes :=
        AcumularCuenta(resumen, totalFacturas, totalPendiente, totalVencido, totalPagadoMes, linea);
    }
    assert clientes[..|clientes|] == clientes;
    MayorPendienteOrder();
    r := ResumenExcel(SortBy(resumen, MayorPendiente), totalFacturas, totalPendiente, totalVencido, totalPagadoMes);
  }

  /** Appending a line to the Excel summary and adding it to the four totals. */
  method AcumularCuenta(resumen: seq<Cuenta>, totalFacturas: real, totalPendiente: real,
                        totalVencido: real, totalPagadoMes: real, linea: Cuenta)
    returns (resumen': seq<Cuenta>, totalFacturas': real, totalPendiente': real,
             totalVencido': real, totalPagadoMes': real)
    requires totalFacturas == SumBy(resumen, CuentaPendientes)
    requires totalPendiente == SumBy(resumen, CuentaPendiente)
    requires totalVencido == SumBy(resumen, CuentaVencido)
    requires totalPagadoMes == SumBy(resumen, CuentaCobrado)
    ensures resumen' == resumen + [linea]
    ensures totalFacturas' == SumBy(resumen', CuentaPendientes)
    ensures totalPendiente' == SumBy(resumen', CuentaPendiente)
    ensures totalVencido' == SumBy(resumen', CuentaVencido)
    ensures totalPagadoMes' == SumBy(resumen', CuentaCobrado)
  {
    SumBySnoc(resumen, linea, CuentaPendientes);
    SumBySnoc(resumen, linea, CuentaPendiente);
    SumBySnoc(resumen, linea, CuentaVencido);
    SumBySnoc(resumen, linea, CuentaCobrado);
    resumen' := resumen + [linea];
    totalFacturas' := totalFacturas + linea.facturasPendientes as real;
    totalPendiente' := totalPendiente + linea.montoPendiente;
    totalVencido' := totalVencido + linea.montoVencido;
    totalPagadoMes' := totalPagadoMes + linea.cobradoMes;
  }

  /** The `% Vencido` column: overdue over pending, as a fraction, and 0 for
      a client that owes nothing. */
  function PorcentajeVencido(r: Cuenta): (pct: real)
    ensures r.montoPendiente <= 0.0 ==> pct == 0.0
    ensures r.montoPendiente > 0.0 ==> pct * r.montoPendiente == r.montoVencido
  {
    if r.montoPendiente > 0.0 then (r.montoVencido / r.montoPendiente * 100.0) / 100.0 else 0.0
  }

  /** For a client's line, with non-negative amounts, the percentage lies
      between 0 and 100. */
  lemma PorcentajeBounds(c: Cliente, facturas: seq<Factura>, cal: Calendario, inicioMes: int)
    requires forall i :: 0 <= i < |facturas| ==> facturas[i].montoCobrar >= 0.0
    ensures 0.0 <= PorcentajeVencido(CuentaDe(c, facturas, cal, inicioMes)) <= 1.0
  {
    var p := Pendientes(FacturasDe(facturas, c.id));
    FacturasDeSpec(facturas, c.id);
    assert forall i :: 0 <= i < |p| ==> p[i].montoCobrar >= 0.0 by {
      forall i | 0 <= i < |p| ensures p[i].montoCobrar >= 0.0 {
        assert p[i] in facturas;
      }
    }
    MontoVencidoBounds(p, cal);
    var r := CuentaDe(c, facturas, cal, inicioMes);
    assert 0.0 <= r.montoVencido <= r.montoPendiente;
    PctBounds(r);
  }

  /** The fraction of an amount that is part of it lies between 0 and 1. */
  lemma PctBounds(r: Cuenta)
    requires 0.0 <= r.montoVencido <= r.montoPendiente
    ensures 0.0 <= PorcentajeVencido(r) <= 1.0
  {
    if r.montoPendiente > 0.0 {
      FractionBounds(r.montoVencido, r.montoPendiente, PorcentajeVencido(r));
    }
  }

  lemma FractionBounds(v: real, p: real, q: real)
    requires 0.0 <= v <= p && p > 0.0 && q * p == v
    ensures 0.0 <= q <= 1.0
  {
  }

  /** The Excel summary lists the PDF summary's lines and more: a client with
      invoices but nothing owed is listed in the Excel summary only. */
  lemma ExcelCoversPdf(clientes: seq<Cliente>, facturas: seq<Factura>, cal: Calendario, inicioMes: int, c: Cliente)
    requires c in clientes && FacturasDe(facturas, c.id) != []
    ensures CuentaDe(c, facturas, cal, inicioMes) in Cuentas(clientes, facturas, cal, inicioMes)
    ensures CuentaDe(c, facturas, cal, inicioMes).montoPendiente == SaldoDe(c, facturas, cal).monto
    ensures CuentaDe(c, facturas, cal, inicioMes).montoVencido == SaldoDe(c, facturas, cal).vencido
    ensures ConSaldo(c, facturas, cal) <==> CuentaDe(c, facturas, cal, inicioMes).montoPendiente > 0.0
  {
    CuentasSpec(clientes, facturas, cal, inicioMes);
  }
}
