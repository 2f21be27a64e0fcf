/** The client portal: the check of the last four digits of the client's
    identification and what `portal_verificar` returns for a client, its open
    invoices by due date and its ten most recent payments. */
module Portal {
  import opened Wrappers
  import opened Text
  import opened Documents
  import opened Sorting
  import opened Reports
  import opened Clientes

  // ------------------------------------------------------- the code check

  /** `s[-4:]`: the last four characters, or all of them when there are fewer. */
  function Ultimos4(s: string): (r: string)
    ensures |r| == if |s| < 4 then |s| else 4
    ensures r == s[|s| - |r|..]
  {
    if |s| <= 4 then s else s[|s| - 4..]
  }

  /** `verificar_ultimos_digitos`: the digits of the identification, with
      dashes, spaces and any other character dropped, end in the code. */
  function VerificarUltimosDigitos(identificacion: string, codigo: string): (ok: bool)
    ensures var d := Keep(identificacion, IsDigit);
      ok <==> codigo == d[|d| - (if |d| < 4 then |d| else 4)..]
    ensures ok ==> |codigo| <= 4 && AllDigits(codigo)
    ensures ok && |Keep(identificacion, IsDigit)| >= 4 ==> |codigo| == 4
  {
    Ultimos4(Keep(identificacion, IsDigit)) == codigo
  }

  /** Characters that are not digits can be added anywhere in the
      identification without changing the verdict: `1-2345-6789` and
      `123456789` accept the same codes. */
  lemma SeparatorsIgnored(a: string, sep: string, b: string, codigo: string)
    requires forall i :: 0 <= i < |sep| ==> !IsDigit(sep[i])
    ensures VerificarUltimosDigitos(a + sep + b, codigo) == VerificarUltimosDigitos(a + b, codigo)
  {
    DigitsIgnoreSeparators(a, sep, b);
  }

  lemma DigitsIgnoreSeparators(a: string, sep: string, b: string)
    requires forall i :: 0 <= i < |sep| ==> !IsDigit(sep[i])
    ensures Keep(a + sep + b, IsDigit) == Keep(a + b, IsDigit)
  {
    KeepNone(sep, IsDigit);
    KeepAppend(a, sep, IsDigit);
    assert Keep(a, IsDigit) + [] == Keep(a, IsDigit);
    assert Keep(a + sep, IsDigit) == Keep(a, IsDigit);
    KeepAppend(a + sep, b, IsDigit);
    KeepAppend(a, b, IsDigit);
  }

  /** The code that is accepted for an identification is unique; an
      identification with no digit at all accepts only the empty code, which
      the portal turns away before looking at the identification. */
  lemma CodigoUnico(identificacion: string, c1: string, c2: string)
    requires VerificarUltimosDigitos(identificacion, c1) && VerificarUltimosDigitos(identificacion, c2)
    ensures c1 == c2
    ensures Keep(identificacion, IsDigit) == [] ==> c1 == ""
  {
  }

  // ------------------------------------------------------ the invoice split

  /** The portal's test for a paid row: `Pagado == 'TRUE'` or its upper-case
      form is `TRUE`. */
  predicate PagadaPortal(f: Factura) {
    f.pagado == "TRUE" || Upper(f.pagado) == "TRUE"
  }

  /** The portal tests the Pagado cell ignoring case, while the reports take
      only the exact `TRUE` as paid: a row marked `true` is a payment in the
      portal and an unpaid invoice in every report. */
  lemma PortalIgnoresCase(f: Factura)
    ensures PagadaPortal(f) <==> Upper(f.pagado) == "TRUE"
    ensures f.pagado == "true" ==> PagadaPortal(f) && Pendiente(f)
  {
    if f.pagado == "TRUE" {
      assert Upper(f.pagado) == "TRUE";
    }
    if f.pagado == "true" {
      assert Upper(f.pagado) == "TRUE";
    }
  }

  /** One entry of `pagos`. The `detalle` cell, `DetallePago`, is not a column
      of the Facturas sheet, so it is always the empty default. */
  datatype Pago = Pago(consecutivo: string, fechaPago: string, monto: real, detalle: string)

  /** One entry of `pendientes`. */
  datatype Abierta = Abierta(consecutivo: string, fecha: string, fechaVencimiento: string, montoCobrar: real)

  function PagoDe(f: Factura): Pago { Pago(f.consecutivo, f.fechaPago, f.montoCobrar, "") }

  function AbiertaDe(f: Factura): Abierta { Abierta(f.consecutivo, f.fecha, f.fechaVencimiento, f.montoCobrar) }

  function AbiertaMonto(a: Abierta): real { a.montoCobrar }

  /** The paid rows as payments, in sheet order. */
  function PagosDe(s: seq<Factura>): (r: seq<Pago>)
    ensures |r| <= |s|
    ensures forall i :: 0 <= i < |r| ==> r[i].detalle == ""
  {
    if s == [] then []
    else
      var p := PagosDe(s[..|s| - 1]);
      var f := s[|s| - 1];
      assert s == s[..|s| - 1] + [f];
      if PagadaPortal(f) then p + [PagoDe(f)] else p
  }

  /** The other rows as open invoices, in sheet order. */
  function AbiertasDe(s: seq<Factura>): (r: seq<Abierta>)
    ensures |r| <= |s|
  {
    if s == [] then []
    else
      var p := AbiertasDe(s[..|s| - 1]);
      var f := s[|s| - 1];
      assert s == s[..|s| - 1] + [f];
      if !PagadaPortal(f) then p + [AbiertaDe(f)] else p
  }

  /** Every paid row of the client is among the payments and every other
      row among the open invoices. */
  lemma {:induction false} SplitComplete(s: seq<Factura>, f: Factura)
    requires f in s
    ensures PagadaPortal(f) ==> PagoDe(f) in PagosDe(s)
    ensures !PagadaPortal(f) ==> AbiertaDe(f) in AbiertasDe(s)
  {
    var init, last := s[..|s| - 1], s[|s| - 1];
    assert s == init + [last];
    if f != last {
      SplitComplete(init, f);
    }
  }

  /** `total_vencido`: the amounts of the open rows due before today. */
  function VencidoPortal(s: seq<Factura>, cal: Calendario): real {
    if s == [] then 0.0
    else
      var f := s[|s| - 1];
      VencidoPortal(s[..|s| - 1], cal) + (if !PagadaPortal(f) && VenceAntes(f, cal) then f.montoCobrar else 0.0)
  }

  /** The loop that splits a client's rows. */
  method Separar(facturasCliente: seq<Factura>, cal: Calendario)
    returns (pendientes: seq<Abierta>, pagos: seq<Pago>, totalPendiente: real, totalVencido: real)
    ensures pendientes == AbiertasDe(facturasCliente)
    ensures pagos == PagosDe(facturasCliente)
    ensures totalPendiente == SumBy(AbiertasDe(facturasCliente), AbiertaMonto)
    ensures totalVencido == VencidoPortal(facturasCliente, cal)
  {
    pendientes, pagos, totalPendiente, totalVencido := [], [], 0.0, 0.0;
    for i := 0 to |facturasCliente|
      invariant pendientes == AbiertasDe(facturasCliente[..i])
      invariant pagos == PagosDe(facturasCliente[..i])
      invariant totalPendiente == SumBy(pendientes, AbiertaMonto)
      invariant totalVencido == VencidoPortal(facturasCliente[..i], cal)
    {
      var f := facturasCliente[i];
      SepararStep(facturasCliente, i, cal);
      if PagadaPortal(f) {
        pagos := pagos + [PagoDe(f)];
      } else {
        var monto := f.montoCobrar;
        totalPendiente := totalPendiente + monto;
        match cal(f.fechaVencimiento) {
          case Some(d) =>
            if d < 0 {
              totalVencido := totalVencido + monto;
            }
          case None =>
        }
        SumByAppend(pendientes, [AbiertaDe(f)], AbiertaMonto);
        pendientes := pendientes + [AbiertaDe(f)];
      }
    }
    assert facturasCliente[..|facturasCliente|] == facturasCliente;
  }

  lemma SepararStep(s: seq<Factura>, i: nat, cal: Calendario)
    requires i < |s|
    ensures var f := s[i];
      && AbiertasDe(s[..i + 1]) == AbiertasDe(s[..i]) + (if PagadaPortal(f) then [] else [AbiertaDe(f)])
      && PagosDe(s[..i + 1]) == PagosDe(s[..i]) + (if PagadaPortal(f) then [PagoDe(f)] else [])
      && VencidoPortal(s[..i + 1], cal)
         == VencidoPortal(s[..i], cal) + (if !PagadaPortal(f) && VenceAntes(f, cal) then f.montoCobrar else 0.0)
  {
    assert s[..i + 1][..i] == s[..i];
  }

  /** Every row of the client is either a payment or an open invoice. */
  lemma {:induction false} SplitPartition(s: seq<Factura>)
    ensures |PagosDe(s)| + |AbiertasDe(s)| == |s|
  {
    if s != [] {
      SplitPartition(s[..|s| - 1]);
    }
  }

  /** On a cell holding exactly `TRUE` or `FALSE` the portal and the
      reports agree on whether the row is paid. */
  lemma PagadaExacta(f: Factura)
    requires f.pagado == "TRUE" || f.pagado == "FALSE"
    ensures PagadaPortal(f) <==> !Pendiente(f)
  {
    if f.pagado == "FALSE" {
      assert Upper(f.pagado) == "FALSE";
    }
  }

  /** Where the Pagado cells hold exactly `TRUE` or `FALSE`, the portal's
      open total is the pending total of the client summaries. */
  lemma {:induction false} PortalPendienteAgrees(s: seq<Factura>)
    requires forall i :: 0 <= i < |s| ==> s[i].pagado == "TRUE" || s[i].pagado == "FALSE"
    ensures SumBy(AbiertasDe(s), AbiertaMonto) == SumBy(Pendientes(s), MontoDe)
  {
    if s != [] {
      var init, f := s[..|s| - 1], s[|s| - 1];
      assert s == init + [f];
      PortalPendienteAgrees(init);
      PagadaExacta(f);
      AbiertasStep(init, f);
      PendientesStep(init, f);
    }
  }

  lemma AbiertasStep(init: seq<Factura>, f: Factura)
    ensures SumBy(AbiertasDe(init + [f]), AbiertaMonto)
         == SumBy(AbiertasDe(init), AbiertaMonto) + (if PagadaPortal(f) then 0.0 else f.montoCobrar)
  {
    assert (init + [f])[..|init|] == init;
    var a := AbiertasDe(init);
    if !PagadaPortal(f) {
      assert (a + [AbiertaDe(f)])[..|a|] == a;
    }
  }

  lemma PendientesStep(init: seq<Factura>, f: Factura)
    ensures SumBy(Pendientes(init + [f]), MontoDe)
         == SumBy(Pendientes(init), MontoDe) + (if Pendiente(f) then f.montoCobrar else 0.0)
  {
    assert (init + [f])[..|init|] == init;
    var p := Pendientes(init);
    if Pendiente(f) {
      assert (p + [f])[..|p|] == p;
    }
  }

  /** Likewise the portal's overdue total is the summaries' overdue amount. */
  lemma {:induction false} PortalVencidoAgrees(s: seq<Factura>, cal: Calendario)
    requires forall i :: 0 <= i < |s| ==> s[i].pagado == "TRUE" || s[i].pagado == "FALSE"
    ensures VencidoPortal(s, cal) == MontoVencido(Pendientes(s), cal)
  {
    if s != [] {
      var init, f := s[..|s| - 1], s[|s| - 1];
      assert s == init + [f];
      PortalVencidoAgrees(init, cal);
      PagadaExacta(f);
      var p := Pendientes(init);
      if Pendiente(f) {
        assert Pendientes(s) == p + [f];
        assert (p + [f])[..|p|] == p;
      } else {
        assert Pendientes(s) == p;
      }
    }
  }

  /** The open amount overdue is part of the open amount. */
  lemma {:induction false} VencidoPortalBounds(s: seq<Factura>, cal: Calendario)
    requires forall i :: 0 <= i < |s| ==> s[i].montoCobrar >= 0.0
    ensures 0.0 <= VencidoPortal(s, cal) <= SumBy(AbiertasDe(s), AbiertaMonto)
  {
    if s != [] {
      var init, f := s[..|s| - 1], s[|s| - 1];
      VencidoPortalBounds(init, cal);
      if !PagadaPortal(f) {
        var a := AbiertasDe(init);
        assert AbiertasDe(s) == a + [AbiertaDe(f)];
        assert (a + [AbiertaDe(f)])[..|a|] == a;
      }
    }
  }

  // ------------------------------------------------------- order and reply

  /** `pendientes.sort(key=fechaVencimiento)`: ascending due-date text. */
  predicate AntesVence(a: Abierta, b: Abierta) { StrLe(a.fechaVencimiento, b.fechaVencimiento) }

  /** `pagos.sort(key=fechaPago, reverse=True)`: the latest payment date text first. */
  predicate MasReciente(a: Pago, b: Pago) { StrLe(b.fechaPago, a.fechaPago) }

  lemma PortalOrders()
    ensures TotalPreorder(AntesVence) && TotalPreorder(MasReciente)
  {
    forall a: string, b: string { StrLeTotal(a, b); }
    forall a: string, b: string, c: string | StrLe(a, b) && StrLe(b, c) { StrLeTransitive(a, b, c); }
  }

  /** The reply for a verified client. */
  datatype Consulta = Consulta(
    cliente: Cliente,
    pendientes: seq<Abierta>,
    pagos: seq<Pago>,
    totalPendiente: real,
    totalVencido: real,
    facturasPendientes: nat)

  /** The open invoices by due date, ties in sheet order. */
  function PorVencimiento(fs: seq<Factura>): (r: seq<Abierta>)
    ensures multiset(r) == multiset(AbiertasDe(fs))
    ensures forall i, j :: 0 <= i < j < |r| ==> StrLe(r[i].fechaVencimiento, r[j].fechaVencimiento)
  {
    PortalOrders();
    SortBy(AbiertasDe(fs), AntesVence)
  }

  /** The payments from the latest payment date down, ties in sheet order. */
  function PorFechaPago(fs: seq<Factura>): (r: seq<Pago>)
    ensures multiset(r) == multiset(PagosDe(fs))
    ensures forall i, j :: 0 <= i < j < |r| ==> StrLe(r[j].fechaPago, r[i].fechaPago)
  {
    PortalOrders();
    SortBy(PagosDe(fs), MasReciente)
  }

  /** What the portal shows a client: its open invoices by due date, its ten
      most recent payments, and its totals. */
  function ConsultaDe(c: Cliente, facturas: seq<Factura>, cal: Calendario): Consulta {
    var fs := FacturasDe(facturas, c.id);
    Consulta(
      c,
      PorVencimiento(fs),
      Take(PorFechaPago(fs), 10),
      SumBy(AbiertasDe(fs), AbiertaMonto),
      VencidoPortal(fs, cal),
      |AbiertasDe(fs)|)
  }

  /** The first client holding the portal token, as the `for`/`break` finds it. */
  function ClientePorToken(clientes: seq<Cliente>, token: string): (k: Option<nat>)
    ensures k.Some? ==> (k.value < |clientes| && clientes[k.value].tokenPortal == token
      && forall i :: 0 <= i < k.value ==> clientes[i].tokenPortal != token)
    ensures k.None? ==> forall i :: 0 <= i < |clientes| ==> clientes[i].tokenPortal != token
  {
    if clientes == [] then None
    else if clientes[0].tokenPortal == token then Some(0)
    else match ClientePorToken(clientes[1..], token)
      case Some(j) => Some(j + 1)
      case None => None
  }

  method BuscarPorToken(clientes: seq<Cliente>, token: string) returns (k: Option<nat>)
    ensures k == ClientePorToken(clientes, token)
  {
    var i := 0;
    while i < |clientes|
      invariant i <= |clientes|
      invariant forall j :: 0 <= j < i ==> clientes[j].tokenPortal != token
    {
      if clientes[i].tokenPortal == token {
        k := Some(i);
        PrimerToken(clientes, token, i);
        return;
      }
      i := i + 1;
    }
    k := None;
  }

  lemma {:induction false} PrimerToken(clientes: seq<Cliente>, token: string, i: nat)
    requires i < |clientes| && clientes[i].tokenPortal == token
    requires forall j :: 0 <= j < i ==> clientes[j].tokenPortal != token
    ensures ClientePorToken(clientes, token) == Some(i)
  {
    if i > 0 {
      PrimerToken(clientes[1..], token, i - 1);
    }
  }

  /** `portal_verificar` once the token and code are read from the request.
      A missing token or code is a 400; an unknown token and a wrong code are
      answered with `success: false` and the default status 200. */
  method PortalVerificar(token: string, codigo: string, clientes: seq<Cliente>, facturas: seq<Factura>, cal: Calendario)
    returns (out: Outcome<Consulta>)
    ensures token == "" || codigo == "" ==> out == Err(400, "Datos incompletos")
    ensures token != "" && codigo != "" && ClientePorToken(clientes, token).None? ==> out == Err(200, "Link inválido")
    ensures token != "" && codigo != "" && ClientePorToken(clientes, token).Some? ==>
      var c := clientes[ClientePorToken(clientes, token).value];
      if VerificarUltimosDigitos(c.identificacion, codigo) then out == Ok(ConsultaDe(c, facturas, cal))
      else out == Err(200, "Código incorrecto")
  {
    if token == "" || codigo == "" {
      return Err(400, "Datos incompletos");
    }
    var k := BuscarPorToken(clientes, token);
    if k.None? {
      return Err(200, "Link inválido");
    }
    var cliente := clientes[k.value];
    if !VerificarUltimosDigitos(cliente.identificacion, codigo) {
      return Err(200, "Código incorrecto");
    }
    var facturasCliente := FacturasDe(facturas, cliente.id);
    var pendientes, pagos, totalPendiente, totalVencido := Separar(facturasCliente, cal);
    PortalOrders();
    pendientes := SortBy(pendientes, AntesVence);
    pagos := SortBy(pagos, MasReciente);
    pagos := Take(pagos, 10);
    assert pendientes == PorVencimiento(facturasCliente);
    out := Ok(Consulta(cliente, pendientes, pagos, totalPendiente, totalVencido, |pendientes|));
  }

  /** The reply keeps at most the ten latest payments, none earlier than a
      payment left out. */
  lemma ConsultaPagos(c: Cliente, facturas: seq<Factura>, cal: Calendario)
    ensures var q := ConsultaDe(c, facturas, cal);
      var todos := PorFechaPago(FacturasDe(facturas, c.id));
      && |q.pagos| == (if |todos| < 10 then |todos| else 10)
      && q.pagos == todos[..|q.pagos|]
      && (forall i, j :: 0 <= i < |q.pagos| <= j < |todos| ==> StrLe(todos[j].fechaPago, q.pagos[i].fechaPago))
  {
    PortalOrders();
    TakeKeepsFirst(PorFechaPago(FacturasDe(facturas, c.id)), MasReciente, 10);
  }
}
