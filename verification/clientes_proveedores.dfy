/** The clients and suppliers page: the two forms and their submission,
    the active filtered lists, the rating selector and the star display.

    Both forms start blank, without `id` or `activo`; opening a record for
    editing replaces the form by a copy of the whole record, so from then
    on the form carries that record's `id` and `activo` as well. */
module ClientesProveedores {
  import opened Tipos
  import opened Texto
  import opened Coleccion
  import opened Entidades
  import opened Repositorios
  import opened Indicadores

  // ---------------------------------------------------------------------
  // Clients

  /** The client form: the text fields the dialog edits, and the `id` and
      `activo` keys a record copied in by the edit action brings along. */
  datatype FormularioCliente = FormularioCliente(
    nombre: string,
    tipoDocumento: string,
    numeroDocumento: string,
    telefono: string,
    email: string,
    direccion: string,
    ciudad: string,
    departamento: string,
    contactoPrincipal: string,
    id: Option<string>,
    activo: Option<bool>)

  /** The initial and reset state of the client form. */
  const FormularioClienteVacio :=
    FormularioCliente("", "cedula", "", "", "", "", "", "", "", None, None)

  const MensajeObligatoriosCliente := "Por favor llena los campos obligatorios en Cliente"

  /** `handleEditCliente`: the whole record becomes the form, id and
      `activo` included, so that merging the form back into the record
      gives the record. */
  function FormularioDeCliente(c: Cliente): (f: FormularioCliente)
    ensures f.id == Some(c.id) && f.activo == c.activo
    ensures FusionarCliente(c, ParcheDeFormularioCliente(f)) == c
  {
    FormularioCliente(c.nombre, c.tipoDocumento, c.numeroDocumento, c.telefono, c.email, c.direccion,
                      c.ciudad, c.departamento, c.contactoPrincipal, Some(c.id), c.activo)
  }

  /** The form passed to `actualizarCliente`: every text field, and `id`
      and `activo` only when the form has them. */
  function ParcheDeFormularioCliente(f: FormularioCliente): ParcheCliente {
    ParcheCliente(f.id, Some(f.nombre), Some(f.tipoDocumento), Some(f.numeroDocumento), Some(f.telefono),
                  Some(f.email), Some(f.direccion), Some(f.ciudad), Some(f.departamento),
                  Some(f.contactoPrincipal), f.activo)
  }

  /** The form passed to `agregarCliente`, whose own id replaces any the
      form carries. */
  function DatosDeFormularioCliente(f: FormularioCliente): DatosCliente {
    DatosCliente(f.nombre, f.tipoDocumento, f.numeroDocumento, f.telefono, f.email, f.direccion,
                 f.ciudad, f.departamento, f.contactoPrincipal, f.activo)
  }

  /** `handleSubmitCliente`: rejected unless name and document number are
      filled; then the edited client (`editando` is its id) is updated
      with the form, or without one a client is added under `nuevoId`. */
  function EnviarCliente(cs: seq<Cliente>, f: FormularioCliente, editando: Option<string>, nuevoId: string)
    : (r: Result<seq<Cliente>, string>)
    ensures r.Err? <==> f.nombre == "" || f.numeroDocumento == ""
    ensures r.Err? ==> r.error == MensajeObligatoriosCliente
    ensures r.Ok? && editando.Some? ==>
              && |r.value| == |cs|
              && (forall i :: 0 <= i < |cs| && cs[i].id != editando.value ==> r.value[i] == cs[i])
              && (forall i :: 0 <= i < |cs| && cs[i].id == editando.value ==>
                    DatosDeCliente(r.value[i]) == DatosDeFormularioCliente(f).(activo := if f.activo.Some? then f.activo else cs[i].activo)
                    && r.value[i].id == f.id.GetOr(cs[i].id))
    ensures r.Ok? && editando.None? ==>
              && |r.value| == |cs| + 1 && r.value[..|cs|] == cs
              && r.value[|cs|].id == nuevoId
              && DatosDeCliente(r.value[|cs|]) == DatosDeFormularioCliente(f)
  {
    if f.nombre == "" || f.numeroDocumento == "" then Err(MensajeObligatoriosCliente)
    else if editando.Some? then Ok(ActualizarCliente(cs, editando.value, ParcheDeFormularioCliente(f)))
    else Ok(AgregarCliente(cs, DatosDeFormularioCliente(f), nuevoId))
  }

  predicate CoincideCliente(c: Cliente, termino: string) {
    Coincide(c.nombre, termino) || Coincide(c.numeroDocumento, termino) || Coincide(c.email, termino)
  }

  predicate ActivoYCoincideCliente(termino: string, c: Cliente) {
    ClienteActivo(c) && CoincideCliente(c, termino)
  }

  /** `clientesFiltrados`: the active clients whose name, document number
      or e-mail contains the term, ignoring case, in collection order. */
  function ClientesFiltrados(cs: seq<Cliente>, termino: string): (r: seq<Cliente>)
    ensures EsSubsecuencia(r, cs)
    ensures forall i :: 0 <= i < |r| ==> ClienteActivo(r[i]) && CoincideCliente(r[i], termino)
    ensures forall i :: 0 <= i < |cs| && ClienteActivo(cs[i]) && CoincideCliente(cs[i], termino) ==> cs[i] in r
    ensures forall i :: 0 <= i < |cs| ==>
              multiset(r)[cs[i]] == if ActivoYCoincideCliente(termino, cs[i]) then multiset(cs)[cs[i]] else 0
  {
    var q := (c: Cliente) => CoincideCliente(c, termino);
    var pq := (c: Cliente) => ActivoYCoincideCliente(termino, c);
    FiltrarFiltrar(cs, ClienteActivo, q, pq);
    FiltrarMultiplicidad(cs, pq);
    Filtrar(Filtrar(cs, ClienteActivo), q)
  }

  /** A client added from a form that started blank has no `activo` key,
      so it appears neither among the active clients nor in the list. */
  lemma {:induction false} AltaDesdeFormularioVacioInvisible(cs: seq<Cliente>, f: FormularioCliente,
                                                             nuevoId: string, termino: string)
    requires f.id == FormularioClienteVacio.id && f.activo == FormularioClienteVacio.activo
    requires f.nombre != "" && f.numeroDocumento != ""
    ensures EnviarCliente(cs, f, None, nuevoId).Ok?
    ensures var r := EnviarCliente(cs, f, None, nuevoId).value;
            && |r| == |cs| + 1
            && Filtrar(r, ClienteActivo) == Filtrar(cs, ClienteActivo)
            && ClientesFiltrados(r, termino) == ClientesFiltrados(cs, termino)
  {
    var r := EnviarCliente(cs, f, None, nuevoId).value;
    var c := NuevoCliente(DatosDeFormularioCliente(f), nuevoId);
    assert r == cs + [c];
    FiltrarConcat(cs, [c], ClienteActivo);
    assert Filtrar([c], ClienteActivo) == [];
  }

  /** Opening a client for editing and saving it unchanged merges back
      the very values it had, `id` and `activo` included: with unique ids
      the collection is unchanged. */
  lemma EditarClienteSinCambios(cs: seq<Cliente>, c: Cliente, nuevoId: string)
    requires c.nombre != "" && c.numeroDocumento != ""
    requires c in cs && IdsUnicos(cs, IdCliente)
    ensures EnviarCliente(cs, FormularioDeCliente(c), Some(c.id), nuevoId) == Ok(cs)
  {
    var p := ParcheDeFormularioCliente(FormularioDeCliente(c));
    FormularioDeClienteIdentidad(c);
    var k :| 0 <= k < |cs| && cs[k] == c;
    UnicoConId(cs, IdCliente, k);
    assert forall i :: 0 <= i < |cs| && cs[i].id == c.id ==> i == k;
    var r := ActualizarCliente(cs, c.id, p);
    assert forall i :: 0 <= i < |cs| ==> r[i] == cs[i];
    assert r == cs;
  }

  /** Merging a record's own form back into it gives the record. */
  lemma FormularioDeClienteIdentidad(c: Cliente)
    ensures FusionarCliente(c, ParcheDeFormularioCliente(FormularioDeCliente(c))) == c
  {
  }

  // ---------------------------------------------------------------------
  // Suppliers

  /** The supplier form, as the client form. The rating is a number. */
  datatype FormularioProveedor = FormularioProveedor(
    nombre: string,
    nit: string,
    tipo: string,
    telefono: string,
    email: string,
    direccion: string,
    ciudad: string,
    calificacion: int,
    contactoPrincipal: string,
    id: Option<string>,
    activo: Option<bool>)

  /** The initial and reset state of the supplier form. */
  const FormularioProveedorVacio :=
    FormularioProveedor("", "", "materiales", "", "", "", "", 0, "", None, None)

  const MensajeObligatoriosProveedor := "Por favor llena los campos obligatorios en Proveedor"

  /** `handleEditProveedor`: the whole record becomes the form, id and
      `activo` included, so that merging the form back into the record
      gives the record. */
  function FormularioDeProveedor(x: Proveedor): (f: FormularioProveedor)
    ensures f.id == Some(x.id) && f.activo == x.activo
    ensures FusionarProveedor(x, ParcheDeFormularioProveedor(f)) == x
  {
    FormularioProveedor(x.nombre, x.nit, x.tipo, x.telefono, x.email, x.direccion, x.ciudad,
                        x.calificacion, x.contactoPrincipal, Some(x.id), x.activo)
  }

  function ParcheDeFormularioProveedor(f: FormularioProveedor): ParcheProveedor {
    ParcheProveedor(f.id, Some(f.nombre), Some(f.nit), Some(f.tipo), Some(f.telefono), Some(f.email),
                    Some(f.direccion), Some(f.ciudad), Some(f.calificacion), Some(f.contactoPrincipal),
                    f.activo)
  }

  function DatosDeFormularioProveedor(f: FormularioProveedor): DatosProveedor {
    DatosProveedor(f.nombre, f.nit, f.tipo, f.telefono, f.email, f.direccion, f.ciudad,
                   f.calificacion, f.contactoPrincipal, f.activo)
  }

  /** `handleSubmitProveedor`: rejected unless name and NIT are filled;
      then update the edited supplier or add one under `nuevoId`. */
  function EnviarProveedor(vs: seq<Proveedor>, f: FormularioProveedor, editando: Option<string>, nuevoId: string)
    : (r: Result<seq<Proveedor>, string>)
    ensures r.Err? <==> f.nombre == "" || f.nit == ""
    ensures r.Err? ==> r.error == MensajeObligatoriosProveedor
    ensures r.Ok? && editando.Some? ==>
              && |r.value| == |vs|
              && (forall i :: 0 <= i < |vs| && vs[i].id != editando.value ==> r.value[i] == vs[i])
              && (forall i :: 0 <= i < |vs| && vs[i].id == editando.value ==>
                    DatosDeProveedor(r.value[i]) == DatosDeFormularioProveedor(f).(activo := if f.activo.Some? then f.activo else vs[i].activo)
                    && r.value[i].id == f.id.GetOr(vs[i].id))
    ensures r.Ok? && editando.None? ==>
              && |r.value| == |vs| + 1 && r.value[..|vs|] == vs
              && r.value[|vs|].id == nuevoId
              && DatosDeProveedor(r.value[|vs|]) == DatosDeFormularioProveedor(f)
  {
    if f.nombre == "" || f.nit == "" then Err(MensajeObligatoriosProveedor)
    else if editando.Some? then Ok(ActualizarProveedor(vs, editando.value, ParcheDeFormularioProveedor(f)))
    else Ok(AgregarProveedor(vs, DatosDeFormularioProveedor(f), nuevoId))
  }

  predicate CoincideProveedor(x: Proveedor, termino: string) {
    Coincide(x.nombre, termino) || Coincide(x.nit, termino) || Coincide(x.email, termino)
  }

  predicate ActivoYCoincideProveedor(termino: string, x: Proveedor) {
    ProveedorActivo(x) && CoincideProveedor(x, termino)
  }

  /** `proveedoresFiltrados`: the active suppliers whose name, NIT or
      e-mail contains the term, ignoring case, in collection order. */
  function ProveedoresFiltrados(vs: seq<Proveedor>, termino: string): (r: seq<Proveedor>)
    ensures EsSubsecuencia(r, vs)
    ensures forall i :: 0 <= i < |r| ==> ProveedorActivo(r[i]) && CoincideProveedor(r[i], termino)
    ensures forall i :: 0 <= i < |vs| && ProveedorActivo(vs[i]) && CoincideProveedor(vs[i], termino) ==> vs[i] in r
    ensures forall i :: 0 <= i < |vs| ==>
              multiset(r)[vs[i]] == if ActivoYCoincideProveedor(termino, vs[i]) then multiset(vs)[vs[i]] else 0
  {
    var q := (x: Proveedor) => CoincideProveedor(x, termino);
    var pq := (x: Proveedor) => ActivoYCoincideProveedor(termino, x);
    FiltrarFiltrar(vs, ProveedorActivo, q, pq);
    FiltrarMultiplicidad(vs, pq);
    Filtrar(Filtrar(vs, ProveedorActivo), q)
  }

  /** A supplier added from a form that started blank has no `activo`
      key and does not appear in the list. */
  lemma {:induction false} AltaProveedorDesdeFormularioVacioInvisible(vs: seq<Proveedor>, f: FormularioProveedor,
                                                                      nuevoId: string, termino: string)
    requires f.id == FormularioProveedorVacio.id && f.activo == FormularioProveedorVacio.activo
    requires f.nombre != "" && f.nit != ""
    ensures EnviarProveedor(vs, f, None, nuevoId).Ok?
    ensures var r := EnviarProveedor(vs, f, None, nuevoId).value;
            && |r| == |vs| + 1
            && Filtrar(r, ProveedorActivo) == Filtrar(vs, ProveedorActivo)
            && ProveedoresFiltrados(r, termino) == ProveedoresFiltrados(vs, termino)
  {
    var r := EnviarProveedor(vs, f, None, nuevoId).value;
    var x := NuevoProveedor(DatosDeFormularioProveedor(f), nuevoId);
    assert r == vs + [x];
    FiltrarConcat(vs, [x], ProveedorActivo);
    assert Filtrar([x], ProveedorActivo) == [];
  }

  /** Opening a supplier for editing and saving it unchanged leaves the
      collection as it was. */
  lemma EditarProveedorSinCambios(vs: seq<Proveedor>, x: Proveedor, nuevoId: string)
    requires x.nombre != "" && x.nit != ""
    requires x in vs && IdsUnicos(vs, IdProveedor)
    ensures EnviarProveedor(vs, FormularioDeProveedor(x), Some(x.id), nuevoId) == Ok(vs)
  {
    var p := ParcheDeFormularioProveedor(FormularioDeProveedor(x));
    FormularioDeProveedorIdentidad(x);
    var k :| 0 <= k < |vs| && vs[k] == x;
    UnicoConId(vs, IdProveedor, k);
    assert forall i :: 0 <= i < |vs| && vs[i].id == x.id ==> i == k;
    var r := ActualizarProveedor(vs, x.id, p);
    assert forall i :: 0 <= i < |vs| ==> r[i] == vs[i];
    assert r == vs;
  }

  /** Merging a record's own form back into it gives the record. */
  lemma FormularioDeProveedorIdentidad(x: Proveedor)
    ensures FusionarProveedor(x, ParcheDeFormularioProveedor(FormularioDeProveedor(x))) == x
  {
  }

  // ---------------------------------------------------------------------
  // Ratings

  /** The rating selector's options. */
  const OpcionesCalificacion: seq<int> := [0, 1, 2, 3, 4, 5]

  /** Every option's text parses back to the option. */
  lemma OpcionesSeLeen()
    ensures forall i :: 0 <= i < |OpcionesCalificacion| ==>
              ParseInt(Mostrar(OpcionesCalificacion[i])) == Some(OpcionesCalificacion[i])
  {
    forall i | 0 <= i < |OpcionesCalificacion|
      ensures ParseInt(Mostrar(OpcionesCalificacion[i])) == Some(OpcionesCalificacion[i])
    {
      ParseIntMostrar(OpcionesCalificacion[i]);
    }
  }

  /** The selector shows `num.toString()` and stores `parseInt` of the
      chosen text: choosing the text of an option stores that option. */
  function ElegirCalificacion(valor: string): (r: Option<int>)
    ensures forall i :: 0 <= i < |OpcionesCalificacion| && valor == Mostrar(OpcionesCalificacion[i]) ==>
              r == Some(OpcionesCalificacion[i])
    ensures r.Some? <==> ParseInt(valor).Some?
  {
    OpcionesSeLeen();
    ParseInt(valor)
  }

  /** The options are 0..5 in order, and choosing any of them stores
      exactly that number. */
  lemma CalificacionesElegibles()
    ensures |OpcionesCalificacion| == 6
    ensures forall i :: 0 <= i < |OpcionesCalificacion| ==>
              OpcionesCalificacion[i] == i && ElegirCalificacion(Mostrar(OpcionesCalificacion[i])) == Some(i)
  {
    forall i | 0 <= i < |OpcionesCalificacion|
      ensures OpcionesCalificacion[i] == i && ElegirCalificacion(Mostrar(OpcionesCalificacion[i])) == Some(i)
    {
      assert OpcionesCalificacion[i] == i;
    }
  }

  /** `calcularEstrellas`: five stars, star `i` filled when `i` is below
      the rating. */
  function Estrellas(calificacion: int): (s: seq<bool>)
    ensures |s| == 5
    ensures forall i :: 0 <= i < 5 ==> (s[i] <==> i < calificacion)
  {
    seq(5, i => i < calificacion)
  }

  function Llenas(s: seq<bool>): nat {
    if s == [] then 0 else (if s[0] then 1 else 0) + Llenas(s[1..])
  }

  /** The filled stars of `n` stars with the first `c` filled, counted. */
  lemma {:induction false} LlenasPrefijo(n: nat, c: int)
    ensures Llenas(seq(n, i => i < c)) == if c < 0 then 0 else if c > n then n else c
  {
    if n > 0 {
      var s := seq(n, i => i < c);
      var t := seq(n - 1, i => i + 1 < c);
      assert s[1..] == t;
      LlenasPrefijo(n - 1, c - 1);
      assert seq(n - 1, i => i < c - 1) == t;
    }
  }

  /** The number of filled stars is the rating, clamped to 0..5. */
  lemma EstrellasLlenas(calificacion: int)
    ensures Llenas(Estrellas(calificacion)) ==
              if calificacion < 0 then 0 else if calificacion > 5 then 5 else calificacion
  {
    LlenasPrefijo(5, calificacion);
  }
}
