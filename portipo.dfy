/** The "by product type" report (`reporte_por_tipo_excel`): pending rows
    grouped by product type in order of first appearance, as a Python dict
    keeps its keys, each group with its rows and its total. */
module PorTipo {
  import opened Documents
  import opened Sorting
  import opened Reports

  const SinEspecificar := "Sin especificar"

  /** `f.get('TipoProducto', 'Sin especificar') or 'Sin especificar'`. */
  function Etiqueta(f: Factura): (t: string)
    ensures t != ""
    ensures f.tipoProducto != "" ==> t == f.tipoProducto
  {
    if f.tipoProducto != "" then f.tipoProducto else SinEspecificar
  }

  /** One entry of `por_tipo`. */
  datatype Grupo = Grupo(tipo: string, facturas: seq<Factura>, total: real)

  function GrupoTotal(g: Grupo): real { g.total }

  /** `reverse=True` on the group total. */
  predicate MayorTotal(a: Grupo, b: Grupo) { a.total >= b.total }

  /** Where the group of `tipo` sits, or `|gs|` when there is none yet. */
  function Posicion(gs: seq<Grupo>, tipo: string): (k: nat)
    ensures k <= |gs|
    ensures k < |gs| ==> gs[k].tipo == tipo
    ensures forall i :: 0 <= i < k ==> gs[i].tipo != tipo
  {
    if gs == [] then 0
    else if gs[0].tipo == tipo then 0
    else 1 + Posicion(gs[1..], tipo)
  }

  /** One step of the grouping loop: open the row's group when it is new,
      then add the row and its amount to it. */
  function Agregar(gs: seq<Grupo>, f: Factura): seq<Grupo> {
    var k := Posicion(gs, Etiqueta(f));
    if k == |gs| then gs + [Grupo(Etiqueta(f), [f], f.montoCobrar)]
    else gs[k := Grupo(gs[k].tipo, gs[k].facturas + [f], gs[k].total + f.montoCobrar)]
  }

  /** `por_tipo` after the loop over `s`. */
  function Agrupar(s: seq<Factura>): seq<Grupo> {
    if s == [] then [] else Agregar(Agrupar(s[..|s| - 1]), s[|s| - 1])
  }

  /** The index of the group of `tipo`, by a scan of the groups. */
  method Buscar(gs: seq<Grupo>, tipo: string) returns (k: nat)
    ensures k == Posicion(gs, tipo)
  {
    k := 0;
    while k < |gs| && gs[k].tipo != tipo
      invariant k <= |gs|
      invariant forall i :: 0 <= i < k ==> gs[i].tipo != tipo
    {
      k := k + 1;
    }
    PosicionFirst(gs, tipo, k);
  }

  lemma {:induction false} PosicionFirst(gs: seq<Grupo>, tipo: string, k: nat)
    requires k <= |gs| && (k < |gs| ==> gs[k].tipo == tipo)
    requires forall i :: 0 <= i < k ==> gs[i].tipo != tipo
    ensures Posicion(gs, tipo) == k
  {
    if gs != [] && gs[0].tipo != tipo {
      PosicionFirst(gs[1..], tipo, k - 1);
    }
  }

  /** The grouping loop. */
  method AgruparPorTipo(pendientes: seq<Factura>) returns (grupos: seq<Grupo>)
    ensures grupos == Agrupar(pendientes)
  {
    grupos := [];
    for i := 0 to |pendientes|
      invariant grupos == Agrupar(pendientes[..i])
    {
      assert pendientes[..i + 1][..i] == pendientes[..i];
      grupos := AgregarFila(grupos, pendientes[i]);
    }
    assert pendientes[..|pendientes|] == pendientes;
  }

  /** The body of the grouping loop for one row. */
  method AgregarFila(gs: seq<Grupo>, f: Factura) returns (grupos: seq<Grupo>)
    ensures grupos == Agregar(gs, f)
  {
    grupos := gs;
    var tipo := Etiqueta(f);
    var k := Buscar(grupos, tipo);
    if k == |grupos| {
      grupos := grupos + [Grupo(tipo, [], 0.0)];
      assert grupos[k].facturas + [f] == [f];
    }
    grupos := grupos[k := Grupo(tipo, grupos[k].facturas + [f], grupos[k].total + f.montoCobrar)];
  }

  // ------------------------------------------------------------ properties

  /** The rows of `s` whose label is `tipo`, in their order. */
  function DelTipo(s: seq<Factura>, tipo: string): (r: seq<Factura>)
    ensures forall f :: f in r <==> f in s && Etiqueta(f) == tipo
  {
    if s == [] then []
    else
      var p := DelTipo(s[..|s| - 1], tipo);
      var f := s[|s| - 1];
      assert s == s[..|s| - 1] + [f];
      if Etiqueta(f) == tipo then p + [f] else p
  }

  /** One group per label. */
  ghost predicate Distintos(gs: seq<Grupo>) {
    forall i, j :: 0 <= i < j < |gs| ==> gs[i].tipo != gs[j].tipo
  }

  /** Each group holds exactly the rows of its label, in order. */
  ghost predicate Contenido(gs: seq<Grupo>, s: seq<Factura>) {
    forall i :: 0 <= i < |gs| ==> gs[i].facturas == DelTipo(s, gs[i].tipo)
  }

  /** Each group's total is the sum of its rows. */
  ghost predicate Totales(gs: seq<Grupo>) {
    forall i :: 0 <= i < |gs| ==> gs[i].total == SumBy(gs[i].facturas, MontoDe)
  }

  /** Every row's label has its group. */
  ghost predicate Cubre(gs: seq<Grupo>, s: seq<Factura>) {
    forall f :: f in s ==> Posicion(gs, Etiqueta(f)) < |gs|
  }

  /** The groups of `s` are right. */
  ghost predicate Agrupado(gs: seq<Grupo>, s: seq<Factura>) {
    Distintos(gs) && Contenido(gs, s) && Totales(gs) && Cubre(gs, s)
  }

  lemma DelTipoStep(s: seq<Factura>, f: Factura, tipo: string)
    ensures DelTipo(s + [f], tipo) == DelTipo(s, tipo) + (if Etiqueta(f) == tipo then [f] else [])
  {
    assert (s + [f])[..|s|] == s;
  }

  lemma {:induction false} DelTipoNone(s: seq<Factura>, tipo: string)
    requires forall f :: f in s ==> Etiqueta(f) != tipo
    ensures DelTipo(s, tipo) == []
  {
    if DelTipo(s, tipo) != [] {
      assert DelTipo(s, tipo)[0] in DelTipo(s, tipo);
    }
  }

  /** Every label of `s` already has its group, so a label without one is new. */
  lemma NuevoTipo(gs: seq<Grupo>, s: seq<Factura>, t: string)
    requires Cubre(gs, s) && Posicion(gs, t) == |gs|
    ensures DelTipo(s, t) == []
  {
    forall g | g in s ensures Etiqueta(g) != t {
      var m := Posicion(gs, Etiqueta(g));
      assert gs[m].tipo == Etiqueta(g);
    }
    DelTipoNone(s, t);
  }

  /** A step keeps the labels of the groups it had, and may add one at the end. */
  lemma AgregarTipos(gs: seq<Grupo>, f: Factura)
    ensures |gs| <= |Agregar(gs, f)| <= |gs| + 1
    ensures forall i :: 0 <= i < |gs| ==> Agregar(gs, f)[i].tipo == gs[i].tipo
    ensures Posicion(Agregar(gs, f), Etiqueta(f)) < |Agregar(gs, f)|
    ensures |Agregar(gs, f)| == |gs| + 1 ==> Agregar(gs, f)[|gs|] == Grupo(Etiqueta(f), [f], f.montoCobrar)
  {
    var k := Posicion(gs, Etiqueta(f));
    PosicionFirst(Agregar(gs, f), Etiqueta(f), k);
  }

  lemma AgregarDistintos(gs: seq<Grupo>, f: Factura)
    requires Distintos(gs)
    ensures Distintos(Agregar(gs, f))
  {
    AgregarTipos(gs, f);
  }

  lemma AgregarCubre(gs: seq<Grupo>, s: seq<Factura>, f: Factura)
    requires Cubre(gs, s)
    ensures Cubre(Agregar(gs, f), s + [f])
  {
    var r := Agregar(gs, f);
    AgregarTipos(gs, f);
    forall g | g in s + [f] ensures Posicion(r, Etiqueta(g)) < |r| {
      if g in s {
        PosicionKept(gs, f, Etiqueta(g));
      } else {
        assert g == f;
      }
    }
  }

  /** A label that already has a group keeps it at the same place. */
  lemma PosicionKept(gs: seq<Grupo>, f: Factura, t: string)
    requires Posicion(gs, t) < |gs|
    ensures Posicion(Agregar(gs, f), t) == Posicion(gs, t)
  {
    var r, m := Agregar(gs, f), Posicion(gs, t);
    AgregarTipos(gs, f);
    assert r[m].tipo == t;
    assert forall i :: 0 <= i < m ==> r[i].tipo != t by {
      forall i | 0 <= i < m ensures r[i].tipo != t {
        assert r[i].tipo == gs[i].tipo;
      }
    }
    PosicionFirst(r, t, m);
  }

  lemma AgregarTotales(gs: seq<Grupo>, f: Factura)
    requires Totales(gs)
    ensures Totales(Agregar(gs, f))
  {
    var k := Posicion(gs, Etiqueta(f));
    if k == |gs| {
      assert SumBy([f], MontoDe) == f.montoCobrar by { assert [f][..0] == []; }
    } else {
      var fs := gs[k].facturas;
      assert SumBy(fs + [f], MontoDe) == SumBy(fs, MontoDe) + f.montoCobrar by {
        assert (fs + [f])[..|fs|] == fs;
      }
    }
  }

  lemma AgregarContenido(gs: seq<Grupo>, s: seq<Factura>, f: Factura)
    requires Distintos(gs) && Contenido(gs, s) && Cubre(gs, s)
    ensures Contenido(Agregar(gs, f), s + [f])
  {
    var t := Etiqueta(f);
    var k := Posicion(gs, t);
    var r := Agregar(gs, f);
    AgregarTipos(gs, f);
    forall i | 0 <= i < |r| ensures r[i].facturas == DelTipo(s + [f], r[i].tipo) {
      DelTipoStep(s, f, r[i].tipo);
      if i == k && k == |gs| {
        NuevoTipo(gs, s, t);
      } else if i != k {
        assert r[i] == gs[i];
      }
    }
  }

  lemma AgregarKeeps(gs: seq<Grupo>, s: seq<Factura>, f: Factura)
    requires Agrupado(gs, s)
    ensures Agrupado(Agregar(gs, f), s + [f])
  {
    AgregarDistintos(gs, f);
    AgregarContenido(gs, s, f);
    AgregarTotales(gs, f);
    AgregarCubre(gs, s, f);
  }

  /** `por_tipo` groups the pending rows correctly: distinct types, each
      group exactly the rows of its type with their total, and no row left
      without its group. */
  lemma {:induction false} AgruparCorrect(s: seq<Factura>)
    ensures Agrupado(Agrupar(s), s)
  {
    if s != [] {
      var init, last := s[..|s| - 1], s[|s| - 1];
      assert s == init + [last];
      var gs := Agrupar(init);
      assert Agrupar(s) == Agregar(gs, last);
      AgruparCorrect(init);
      AgregarKeeps(gs, init, last);
    }
  }

  /** Replacing one term of a sum replaces its contribution. */
  lemma SumByUpdate(gs: seq<Grupo>, k: nat, g: Grupo)
    requires k < |gs|
    ensures SumBy(gs[k := g], GrupoTotal) == SumBy(gs, GrupoTotal) - gs[k].total + g.total
  {
    var r := gs[k := g];
    SumByRemove(gs, k, GrupoTotal);
    SumByRemove(r, k, GrupoTotal);
    assert r[..k] + r[k + 1..] == gs[..k] + gs[k + 1..];
  }

  /** One step of the grouping adds the row's amount to the sum of the
      group totals. */
  lemma AgregarTotal(gs: seq<Grupo>, f: Factura)
    ensures SumBy(Agregar(gs, f), GrupoTotal) == SumBy(gs, GrupoTotal) + f.montoCobrar
  {
    var k := Posicion(gs, Etiqueta(f));
    if k == |gs| {
      SumBySnoc(gs, Grupo(Etiqueta(f), [f], f.montoCobrar), GrupoTotal);
    } else {
      SumByUpdate(gs, k, Grupo(gs[k].tipo, gs[k].facturas + [f], gs[k].total + f.montoCobrar));
    }
  }

  /** `total_general`, the sum of the group totals, is the pending total. */
  lemma {:induction false} TotalGeneral(s: seq<Factura>)
    ensures SumBy(Agrupar(s), GrupoTotal) == SumBy(s, MontoDe)
  {
    if s != [] {
      var init, f := s[..|s| - 1], s[|s| - 1];
      assert s == init + [f];
      TotalGeneral(init);
      assert SumBy(s, MontoDe) == SumBy(init, MontoDe) + f.montoCobrar by {
        SumBySnoc(init, f, MontoDe);
      }
      assert Agrupar(s) == Agregar(Agrupar(init), f);
      AgregarTotal(Agrupar(init), f);
    }
  }

  /** What the report shows: the groups by descending total, and the TOTAL line. */
  method ReportePorTipo(facturas: seq<Factura>) returns (grupos: seq<Grupo>, totalGeneral: real)
    ensures grupos == SortBy(Agrupar(Pendientes(facturas)), MayorTotal)
    ensures totalGeneral == SumBy(Pendientes(facturas), MontoDe)
  {
    var pendientes := Pendientes(facturas);
    var porTipo := AgruparPorTipo(pendientes);
    grupos := SortBy(porTipo, MayorTotal);
    totalGeneral := SumBy(porTipo, GrupoTotal);
    TotalGeneral(pendientes);
  }
}
