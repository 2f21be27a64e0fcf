/** The Configuracion sheet, a two-column table of `Campo`/`Valor` rows:
    `save_config`, which merges the company fields into what is there and
    rewrites the sheet, and the dashboard access upsert of
    `generar_acceso_dashboard`. */
module Config {
  import opened Wrappers

  /** One row of the Configuracion sheet, below its header. */
  datatype Registro = Registro(campo: string, valor: string)

  /** A Python dict with string keys and values, as its items in insertion
      order. */
  type Dict = seq<Registro>

  /** No blank key. */
  predicate SinVacias(d: Dict) {
    forall i :: 0 <= i < |d| ==> d[i].campo != ""
  }

  /** Each key once. */
  predicate Distintas(d: Dict) {
    forall i, j :: 0 <= i < j < |d| ==> d[i].campo != d[j].campo
  }

  /** Where `k` sits, or `|d|` when it is absent. */
  function Donde(d: Dict, k: string): (p: nat)
    ensures p <= |d|
    ensures p < |d| ==> d[p].campo == k
    ensures forall i :: 0 <= i < p ==> d[i].campo != k
  {
    if d == [] then 0 else if d[0].campo == k then 0 else 1 + Donde(d[1..], k)
  }

  /** `d.get(k)`. */
  function Lookup(d: Dict, k: string): Option<string> {
    var p := Donde(d, k);
    if p < |d| then Some(d[p].valor) else None
  }

  /** `d[k] = v`: an existing key keeps its place and takes the new value, a
      new key goes last. */
  function Put(d: Dict, k: string, v: string): (r: Dict)
    ensures |r| == if Donde(d, k) < |d| then |d| else |d| + 1
  {
    var p := Donde(d, k);
    if p < |d| then d[p := Registro(k, v)] else d + [Registro(k, v)]
  }

  /** The law of a dictionary: after `d[k] = v`, `k` reads `v` and every
      other key reads what it read before. */
  lemma {:induction false} LookupPut(d: Dict, k: string, v: string, k2: string)
    ensures Lookup(Put(d, k, v), k2) == if k2 == k then Some(v) else Lookup(d, k2)
  {
    var p := Donde(d, k);
    var r := Put(d, k, v);
    if k2 == k {
      DondeFirst(r, k, p);
    } else {
      var q := Donde(d, k2);
      if q < |d| {
        DondeFirst(r, k2, q);
      } else {
        DondeFirst(r, k2, |r|);
      }
    }
  }

  lemma {:induction false} DondeFirst(d: Dict, k: string, p: nat)
    requires p <= |d| && (p < |d| ==> d[p].campo == k)
    requires forall i :: 0 <= i < p ==> d[i].campo != k
    ensures Donde(d, k) == p
  {
    if d != [] && d[0].campo != k {
      DondeFirst(d[1..], k, p - 1);
    }
  }

  /** `d[k] = v` keeps the keys distinct and keeps their order. */
  lemma PutKeys(d: Dict, k: string, v: string)
    requires Distintas(d)
    ensures Distintas(Put(d, k, v))
    ensures forall i :: 0 <= i < |d| ==> Put(d, k, v)[i].campo == d[i].campo
    ensures Donde(d, k) == |d| ==> Put(d, k, v)[|d|] == Registro(k, v)
  {
  }

  // ------------------------------------------------------------ save_config

  /** `existing_config`: the stored rows with a non-blank Campo, a later row
      for the same field overwriting the value in the earlier one's place. */
  function Existente(records: seq<Registro>): Dict {
    if records == [] then []
    else
      var d := Existente(records[..|records| - 1]);
      var r := records[|records| - 1];
      if r.campo != "" then Put(d, r.campo, r.valor) else d
  }

  const CamposGuardar: seq<string> := ["nombre", "cedula", "descripcion", "telefono", "email", "direccion", "mensaje"]

  /** The loop over `campos_guardar` applied to `d`. */
  function Guardar(d: Dict, campos: seq<string>, data: map<string, string>): Dict {
    if campos == [] then d
    else
      var k := campos[|campos| - 1];
      Put(Guardar(d, campos[..|campos| - 1], data), k, Get(data, k, ""))
  }

  /** The rows `save_config` writes back below the header. A missing
      Configuracion sheet is the empty list of records. */
  function ConfigGuardada(records: seq<Registro>, data: map<string, string>): Dict {
    Guardar(Existente(records), CamposGuardar, data)
  }

  /** `save_config` up to the writes: both loops. */
  method GuardarConfig(records: seq<Registro>, data: map<string, string>) returns (filas: Dict)
    ensures filas == ConfigGuardada(records, data)
  {
    var existing: Dict := [];
    for i := 0 to |records|
      invariant existing == Existente(records[..i])
    {
      assert records[..i + 1][..i] == records[..i];
      var campo, valor := records[i].campo, records[i].valor;
      if campo != "" {
        existing := Put(existing, campo, valor);
      }
    }
    assert records[..|records|] == records;
    for j := 0 to |CamposGuardar|
      invariant existing == Guardar(Existente(records), CamposGuardar[..j], data)
    {
      assert CamposGuardar[..j + 1][..j] == CamposGuardar[..j];
      var campo := CamposGuardar[j];
      existing := Put(existing, campo, Get(data, campo, ""));
    }
    assert CamposGuardar[..|CamposGuardar|] == CamposGuardar;
    filas := existing;
  }

  /** The last value stored for a field, as `existing_config` keeps it. */
  function Ultimo(records: seq<Registro>, k: string): Option<string> {
    if records == [] then None
    else if records[|records| - 1].campo == k then Some(records[|records| - 1].valor)
    else Ultimo(records[..|records| - 1], k)
  }

  /** `existing_config` has each non-blank field once, with its last value. */
  lemma {:induction false} ExistenteSpec(records: seq<Registro>, k: string)
    ensures Distintas(Existente(records)) && SinVacias(Existente(records))
    ensures k != "" ==> Lookup(Existente(records), k) == Ultimo(records, k)
    ensures Lookup(Existente(records), "") == None
  {
    if records != [] {
      var init := records[..|records| - 1];
      var r := records[|records| - 1];
      ExistenteSpec(init, k);
      ExistenteSpec(init, "");
      if r.campo != "" {
        PutKeys(Existente(init), r.campo, r.valor);
        LookupPut(Existente(init), r.campo, r.valor, k);
        LookupPut(Existente(init), r.campo, r.valor, "");
      }
    }
  }

  /** The loop over `campos` sets each of them from the request and leaves
      every other field as it was, keeping the keys distinct. */
  lemma {:induction false} GuardarSpec(d: Dict, campos: seq<string>, data: map<string, string>, k: string)
    requires Distintas(d) && SinVacias(d) && "" !in campos
    ensures Distintas(Guardar(d, campos, data)) && SinVacias(Guardar(d, campos, data))
    ensures k in campos ==> Lookup(Guardar(d, campos, data), k) == Some(Get(data, k, ""))
    ensures k !in campos ==> Lookup(Guardar(d, campos, data), k) == Lookup(d, k)
  {
    if campos != [] {
      var init := campos[..|campos| - 1];
      var c := campos[|campos| - 1];
      assert campos == init + [c];
      GuardarSpec(d, init, data, k);
      PutKeys(Guardar(d, init, data), c, Get(data, c, ""));
      LookupPut(Guardar(d, init, data), c, Get(data, c, ""), k);
    }
  }

  /** What `save_config` leaves in the sheet: each field once; the seven
      company fields hold the request's values (blank when the request does
      not carry them); every other stored field, such as `dashboardToken`,
      keeps its last stored value. */
  lemma ConfigGuardadaSpec(records: seq<Registro>, data: map<string, string>, k: string)
    ensures Distintas(ConfigGuardada(records, data)) && SinVacias(ConfigGuardada(records, data))
    ensures k in CamposGuardar ==> Lookup(ConfigGuardada(records, data), k) == Some(Get(data, k, ""))
    ensures k !in CamposGuardar && k != "" ==> Lookup(ConfigGuardada(records, data), k) == Ultimo(records, k)
  {
    ExistenteSpec(records, k);
    GuardarSpec(Existente(records), CamposGuardar, data, k);
  }

  /** Reading back rows that are already a dictionary gives them unchanged. */
  lemma {:induction false} ExistenteOfDict(d: Dict)
    requires Distintas(d) && SinVacias(d)
    ensures Existente(d) == d
  {
    if d != [] {
      var init, r := d[..|d| - 1], d[|d| - 1];
      assert d == init + [r];
      ExistenteOfDict(init);
      DondeFirst(init, r.campo, |init|);
    }
  }

  /** Setting fields to the values they already hold changes nothing. */
  lemma {:induction false} GuardarFixed(g: Dict, campos: seq<string>, data: map<string, string>)
    requires forall c :: c in campos ==> Lookup(g, c) == Some(Get(data, c, ""))
    ensures Guardar(g, campos, data) == g
  {
    if campos != [] {
      var init, c := campos[..|campos| - 1], campos[|campos| - 1];
      assert campos == init + [c];
      GuardarFixed(g, init, data);
      var p := Donde(g, c);
      assert Lookup(g, c) == Some(Get(data, c, ""));
      assert p < |g| && g[p] == Registro(c, Get(data, c, ""));
      assert g[p := Registro(c, Get(data, c, ""))] == g;
    }
  }

  /** Saving the same request again leaves the sheet as the first save left it. */
  lemma SaveIdempotent(records: seq<Registro>, data: map<string, string>)
    ensures ConfigGuardada(ConfigGuardada(records, data), data) == ConfigGuardada(records, data)
  {
    var g := ConfigGuardada(records, data);
    forall k | k in CamposGuardar ensures Lookup(g, k) == Some(Get(data, k, "")) {
      ConfigGuardadaSpec(records, data, k);
    }
    ConfigGuardadaSpec(records, data, "");
    ExistenteOfDict(g);
    GuardarFixed(g, CamposGuardar, data);
  }

  // ------------------------------------------------------ dashboard upsert

  const TokenCampo := "dashboardToken"
  const CodigoCampo := "dashboardCodigo"

  /** The in-place updates of the scan: a token row takes the token, a code
      row takes the code, any other row stays. */
  function Actualizar(r: Registro, token: string, codigo: string): Registro {
    if r.campo == TokenCampo then Registro(r.campo, token)
    else if r.campo == CodigoCampo then Registro(r.campo, codigo)
    else r
  }

  function ActualizarTodos(records: seq<Registro>, token: string, codigo: string): (r: seq<Registro>)
    ensures |r| == |records|
    ensures forall i :: 0 <= i < |r| ==> r[i] == Actualizar(records[i], token, codigo)
  {
    if records == [] then []
    else ActualizarTodos(records[..|records| - 1], token, codigo) + [Actualizar(records[|records| - 1], token, codigo)]
  }

  predicate Tiene(records: seq<Registro>, campo: string) {
    exists i :: 0 <= i < |records| && records[i].campo == campo
  }

  /** The rows after the upsert: the scan's updates, then a token row and a
      code row appended for whichever was not found. */
  function ConAcceso(records: seq<Registro>, token: string, codigo: string): seq<Registro> {
    ActualizarTodos(records, token, codigo)
    + (if Tiene(records, TokenCampo) then [] else [Registro(TokenCampo, token)])
    + (if Tiene(records, CodigoCampo) then [] else [Registro(CodigoCampo, codigo)])
  }

  /** `generar_acceso_dashboard` once the request code and the fresh token
      (`secrets.token_hex(12)`, a parameter here) are known. */
  method GenerarAcceso(records: seq<Registro>, codigo: string, token: string) returns (out: Outcome<seq<Registro>>)
    ensures |codigo| < 4 ==> out == Err(400, "El código debe tener al menos 4 caracteres")
    ensures |codigo| >= 4 ==> out == Ok(ConAcceso(records, token, codigo))
  {
    if codigo == "" || |codigo| < 4 {
      return Err(400, "El código debe tener al menos 4 caracteres");
    }
    var filas := records;
    var foundToken, foundCodigo := false, false;
    for i := 0 to |records|
      invariant |filas| == |records|
      invariant forall j :: 0 <= j < i ==> filas[j] == Actualizar(records[j], token, codigo)
      invariant forall j :: i <= j < |records| ==> filas[j] == records[j]
      invariant foundToken <==> exists j :: 0 <= j < i && records[j].campo == TokenCampo
      invariant foundCodigo <==> exists j :: 0 <= j < i && records[j].campo == CodigoCampo
    {
      if records[i].campo == TokenCampo {
        filas := filas[i := Registro(records[i].campo, token)];
        foundToken := true;
      }
      if records[i].campo == CodigoCampo {
        filas := filas[i := Registro(records[i].campo, codigo)];
        foundCodigo := true;
      }
    }
    assert filas == ActualizarTodos(records, token, codigo);
    assert foundToken == Tiene(records, TokenCampo);
    assert foundCodigo == Tiene(records, CodigoCampo);
    if !foundToken {
      filas := filas + [Registro(TokenCampo, token)];
    } else {
      assert filas + [] == filas;
    }
    if !foundCodigo {
      filas := filas + [Registro(CodigoCampo, codigo)];
    } else {
      assert filas + [] == filas;
    }
    out := Ok(filas);
  }

  /** After the upsert every token row holds the token and every code row the
      code, there is at least one of each, the rows that were there keep
      their place, and no other row changes. */
  lemma ConAccesoSpec(records: seq<Registro>, token: string, codigo: string)
    ensures |records| <= |ConAcceso(records, token, codigo)| <= |records| + 2
    ensures forall i :: 0 <= i < |ConAcceso(records, token, codigo)| && ConAcceso(records, token, codigo)[i].campo == TokenCampo ==>
      ConAcceso(records, token, codigo)[i].valor == token
    ensures forall i :: 0 <= i < |ConAcceso(records, token, codigo)| && ConAcceso(records, token, codigo)[i].campo == CodigoCampo ==>
      ConAcceso(records, token, codigo)[i].valor == codigo
    ensures Tiene(ConAcceso(records, token, codigo), TokenCampo) && Tiene(ConAcceso(records, token, codigo), CodigoCampo)
    ensures forall i :: 0 <= i < |records| ==> ConAcceso(records, token, codigo)[i].campo == records[i].campo
    ensures forall i :: 0 <= i < |records| && records[i].campo != TokenCampo && records[i].campo != CodigoCampo ==>
      ConAcceso(records, token, codigo)[i] == records[i]
  {
    ConAccesoParts(records, token, codigo);
    ConAccesoValores(records, token, codigo);
    ConAccesoTiene(records, token, codigo);
  }

  /** The upsert as three pieces: the scanned rows, then at most two new
      rows, the token row before the code row. */
  lemma ConAccesoParts(records: seq<Registro>, token: string, codigo: string)
    ensures |ConAcceso(records, token, codigo)|
      == |records| + (if Tiene(records, TokenCampo) then 0 else 1) + (if Tiene(records, CodigoCampo) then 0 else 1)
    ensures forall i :: 0 <= i < |records| ==> ConAcceso(records, token, codigo)[i] == Actualizar(records[i], token, codigo)
    ensures forall i :: |records| <= i < |ConAcceso(records, token, codigo)| ==>
      ConAcceso(records, token, codigo)[i] == Registro(TokenCampo, token)
      || ConAcceso(records, token, codigo)[i] == Registro(CodigoCampo, codigo)
    ensures !Tiene(records, TokenCampo) ==> ConAcceso(records, token, codigo)[|records|] == Registro(TokenCampo, token)
    ensures !Tiene(records, CodigoCampo) ==>
      ConAcceso(records, token, codigo)[|ConAcceso(records, token, codigo)| - 1] == Registro(CodigoCampo, codigo)
  {
    var r := ConAcceso(records, token, codigo);
    var u := ActualizarTodos(records, token, codigo);
    var t1 := if Tiene(records, TokenCampo) then [] else [Registro(TokenCampo, token)];
    var t2 := if Tiene(records, CodigoCampo) then [] else [Registro(CodigoCampo, codigo)];
    assert r == u + t1 + t2;
    forall i | 0 <= i < |records| ensures r[i] == Actualizar(records[i], token, codigo) {
      assert r[i] == (u + t1)[i] == u[i];
    }
    forall i | |records| <= i < |r| ensures r[i] == Registro(TokenCampo, token) || r[i] == Registro(CodigoCampo, codigo) {
      if i < |u + t1| {
        assert r[i] == t1[i - |u|];
      } else {
        assert r[i] == t2[i - |u + t1|];
      }
    }
  }

  lemma ConAccesoValores(records: seq<Registro>, token: string, codigo: string)
    ensures forall i :: 0 <= i < |ConAcceso(records, token, codigo)| && ConAcceso(records, token, codigo)[i].campo == TokenCampo ==>
      ConAcceso(records, token, codigo)[i].valor == token
    ensures forall i :: 0 <= i < |ConAcceso(records, token, codigo)| && ConAcceso(records, token, codigo)[i].campo == CodigoCampo ==>
      ConAcceso(records, token, codigo)[i].valor == codigo
  {
    var r := ConAcceso(records, token, codigo);
    ConAccesoParts(records, token, codigo);
    forall i | 0 <= i < |r| && r[i].campo == TokenCampo ensures r[i].valor == token {
      if i < |records| {
        assert r[i] == Actualizar(records[i], token, codigo);
      }
    }
    forall i | 0 <= i < |r| && r[i].campo == CodigoCampo ensures r[i].valor == codigo {
      if i < |records| {
        assert r[i] == Actualizar(records[i], token, codigo);
      }
    }
  }

  lemma ConAccesoTiene(records: seq<Registro>, token: string, codigo: string)
    ensures Tiene(ConAcceso(records, token, codigo), TokenCampo)
    ensures Tiene(ConAcceso(records, token, codigo), CodigoCampo)
  {
    var r := ConAcceso(records, token, codigo);
    ConAccesoParts(records, token, codigo);
    if Tiene(records, TokenCampo) {
      var i :| 0 <= i < |records| && records[i].campo == TokenCampo;
      assert r[i] == Actualizar(records[i], token, codigo);
      assert r[i].campo == TokenCampo;
    } else {
      assert r[|records|].campo == TokenCampo;
    }
    if Tiene(records, CodigoCampo) {
      var i :| 0 <= i < |records| && records[i].campo == CodigoCampo;
      assert r[i] == Actualizar(records[i], token, codigo);
      assert r[i].campo == CodigoCampo;
    } else {
      assert r[|r| - 1].campo == CodigoCampo;
    }
  }

  /** Generating access again with the same token and code changes nothing. */
  lemma ConAccesoIdempotent(records: seq<Registro>, token: string, codigo: string)
    ensures ConAcceso(ConAcceso(records, token, codigo), token, codigo) == ConAcceso(records, token, codigo)
  {
    var r := ConAcceso(records, token, codigo);
    ConAccesoValores(records, token, codigo);
    ConAccesoTiene(records, token, codigo);
    var u := ActualizarTodos(r, token, codigo);
    assert u == r by {
      forall i | 0 <= i < |r| ensures u[i] == r[i] {
        assert u[i] == Actualizar(r[i], token, codigo);
      }
    }
    assert ConAcceso(r, token, codigo) == u + [] + [];
  }
}
