/** The list of businesses (negocios), each pointing at its own spreadsheet:
    editing the first entry with an id, deleting every entry with it, and
    choosing the active one. */
module Negocios {
  import opened Wrappers

  datatype Negocio = Negocio(id: string, nombre: string, sheetId: string, descripcion: string)

  /** The first entry with the id, as a `for ...: if ...: break` finds it. */
  function Primero(negocios: seq<Negocio>, id: string): (k: Option<nat>)
    ensures k.Some? ==> (k.value < |negocios| && negocios[k.value].id == id
      && forall i :: 0 <= i < k.value ==> negocios[i].id != id)
    ensures k.None? ==> forall i :: 0 <= i < |negocios| ==> negocios[i].id != id
  {
    if negocios == [] then None
    else if negocios[0].id == id then Some(0)
    else match Primero(negocios[1..], id)
      case Some(j) => Some(j + 1)
      case None => None
  }

  lemma {:induction false} PrimeroAt(negocios: seq<Negocio>, id: string, i: nat)
    requires i < |negocios| && negocios[i].id == id
    requires forall j :: 0 <= j < i ==> negocios[j].id != id
    ensures Primero(negocios, id) == Some(i)
  {
    if i > 0 {
      PrimeroAt(negocios[1..], id, i - 1);
    }
  }

  /** The fields a request sets, each defaulting to the current value. */
  function Editado(n: Negocio, data: map<string, string>): Negocio {
    n.(nombre := Get(data, "nombre", n.nombre),
       sheetId := Get(data, "sheetId", n.sheetId),
       descripcion := Get(data, "descripcion", n.descripcion))
  }

  /** The list after `update_negocio`: the first entry with the id edited,
      every other entry as it was; an unknown id changes nothing. */
  function Actualizado(negocios: seq<Negocio>, id: string, data: map<string, string>): seq<Negocio> {
    match Primero(negocios, id)
    case Some(k) => negocios[k := Editado(negocios[k], data)]
    case None => negocios
  }

  /** `update_negocio` up to `save_negocios`; it answers success either way. */
  method UpdateNegocio(negocios: seq<Negocio>, id: string, data: map<string, string>) returns (r: seq<Negocio>)
    ensures r == Actualizado(negocios, id, data)
  {
    r := negocios;
    var i := 0;
    while i < |r|
      invariant i <= |r| && r == negocios
      invariant forall j :: 0 <= j < i ==> negocios[j].id != id
    {
      if r[i].id == id {
        var n := r[i];
        n := n.(nombre := Get(data, "nombre", n.nombre));
        n := n.(sheetId := Get(data, "sheetId", n.sheetId));
        n := n.(descripcion := Get(data, "descripcion", n.descripcion));
        r := r[i := n];
        PrimeroAt(negocios, id, i);
        return;
      }
      i := i + 1;
    }
  }

  /** The edit keeps the list's length and every id, changes at most the
      first entry with the id, and never its id. */
  lemma ActualizadoSpec(negocios: seq<Negocio>, id: string, data: map<string, string>)
    ensures var r := Actualizado(negocios, id, data);
      && |r| == |negocios|
      && (forall i :: 0 <= i < |r| ==> r[i].id == negocios[i].id)
      && (forall i :: 0 <= i < |r| && Primero(negocios, id) != Some(i) ==> r[i] == negocios[i])
      && (Primero(negocios, id).Some? ==>
            var n := r[Primero(negocios, id).value];
            && ("nombre" in data ==> n.nombre == data["nombre"])
            && ("sheetId" in data ==> n.sheetId == data["sheetId"])
            && ("descripcion" in data ==> n.descripcion == data["descripcion"]))
  {
  }

  /** Applying the same edit twice is applying it once. */
  lemma ActualizadoIdempotent(negocios: seq<Negocio>, id: string, data: map<string, string>)
    ensures Actualizado(Actualizado(negocios, id, data), id, data) == Actualizado(negocios, id, data)
  {
    var r := Actualizado(negocios, id, data);
    match Primero(negocios, id)
    case Some(k) =>
      PrimeroAt(r, id, k);
    case None =>
  }

  /** `[n for n in negocios if n['id'] != negocio_id]`. */
  function Eliminado(negocios: seq<Negocio>, id: string): (r: seq<Negocio>)
    ensures |r| <= |negocios|
    ensures forall n :: n in r <==> n in negocios && n.id != id
  {
    if negocios == [] then []
    else
      var p := Eliminado(negocios[..|negocios| - 1], id);
      var n := negocios[|negocios| - 1];
      assert negocios == negocios[..|negocios| - 1] + [n];
      if n.id != id then p + [n] else p
  }

  /** Deleting twice is deleting once. */
  lemma {:induction false} EliminadoIdempotent(negocios: seq<Negocio>, id: string)
    ensures Eliminado(Eliminado(negocios, id), id) == Eliminado(negocios, id)
  {
    if negocios != [] {
      var init, n := negocios[..|negocios| - 1], negocios[|negocios| - 1];
      assert negocios == init + [n];
      var p := Eliminado(init, id);
      EliminadoIdempotent(init, id);
      if n.id != id {
        assert Eliminado(negocios, id) == p + [n];
        assert (p + [n])[..|p|] == p;
        assert Eliminado(p + [n], id) == Eliminado(p, id) + [n];
      } else {
        assert Eliminado(negocios, id) == p;
      }
    }
  }

  /** Deleting an id that is not there keeps the list. */
  lemma {:induction false} EliminadoAbsent(negocios: seq<Negocio>, id: string)
    requires forall i :: 0 <= i < |negocios| ==> negocios[i].id != id
    ensures Eliminado(negocios, id) == negocios
  {
    if negocios != [] {
      var init, n := negocios[..|negocios| - 1], negocios[|negocios| - 1];
      assert negocios == init + [n];
      EliminadoAbsent(init, id);
    }
  }

  /** `activar_negocio`: the first entry with the id gives its sheet and
      name (its sheet becomes the process-wide `current_sheet_id`, which is
      outside this model); an unknown id is a 404. */
  method ActivarNegocio(negocios: seq<Negocio>, id: string) returns (out: Outcome<(string, string)>)
    ensures match Primero(negocios, id)
      case Some(k) => out == Ok((negocios[k].sheetId, negocios[k].nombre))
      case None => out == Err(404, "Negocio no encontrado")
  {
    for i := 0 to |negocios|
      invariant forall j :: 0 <= j < i ==> negocios[j].id != id
    {
      if negocios[i].id == id {
        PrimeroAt(negocios, id, i);
        return Ok((negocios[i].sheetId, negocios[i].nombre));
      }
    }
    out := Err(404, "Negocio no encontrado");
  }

  /** After a delete the id cannot be activated; after an edit that carries
      a sheet, activating the id gives that sheet. */
  lemma ActivarAfterEdits(negocios: seq<Negocio>, id: string, data: map<string, string>)
    ensures Primero(Eliminado(negocios, id), id).None?
    ensures Primero(negocios, id).Some? && "sheetId" in data ==>
      var r := Actualizado(negocios, id, data);
      Primero(r, id).Some? && r[Primero(r, id).value].sheetId == data["sheetId"]
  {
    if Primero(negocios, id).Some? {
      var k := Primero(negocios, id).value;
      PrimeroAt(Actualizado(negocios, id, data), id, k);
    }
  }
}
