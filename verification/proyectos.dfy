/** The projects page: the form submission, the state labels, the client
    and employee name lookups, the filtered list and the per-state
    counts. */
module Proyectos {
  import opened Tipos
  import opened Texto
  import opened Coleccion
  import opened Entidades
  import opened Repositorios
  import opened Indicadores

  // ---------------------------------------------------------------------
  // Form

  /** The project form: every field is text; the state starts as
      "planificacion". */
  datatype FormularioProyecto = FormularioProyecto(
    nombre: string,
    descripcion: string,
    clienteId: string,
    direccion: string,
    ciudad: string,
    estado: string,
    fechaInicio: string,
    fechaFinEstimada: string,
    porcentajeAvance: string,
    responsableId: string)

  /** `handleSubmit`: rejected unless the name, the client and the
      responsible employee are all chosen; otherwise active project data
      with the progress parsed, an unparsable one read as 0. */
  function EnviarProyecto(f: FormularioProyecto): (r: Result<DatosProyecto, string>)
    ensures r.Err? <==> f.nombre == "" || f.clienteId == "" || f.responsableId == ""
    ensures r.Err? ==> r.error == MensajeCamposObligatorios
    ensures r.Ok? ==> r.value.activo
    ensures r.Ok? ==> r.value.porcentajeAvance == ParseInt(f.porcentajeAvance).GetOr(0)
    ensures r.Ok? ==> r.value.clienteId == f.clienteId && r.value.responsableId == f.responsableId
    ensures r.Ok? ==> r.value.nombre == f.nombre && r.value.descripcion == f.descripcion
    ensures r.Ok? ==> r.value.direccion == f.direccion && r.value.ciudad == f.ciudad && r.value.estado == f.estado
    ensures r.Ok? ==> r.value.fechaInicio == f.fechaInicio && r.value.fechaFinEstimada == f.fechaFinEstimada
  {
    if f.nombre == "" || f.clienteId == "" || f.responsableId == "" then Err(MensajeCamposObligatorios)
    else Ok(DatosProyecto(f.nombre, f.descripcion, f.clienteId, f.direccion, f.ciudad, f.estado,
                          f.fechaInicio, f.fechaFinEstimada, EnteroOCero(f.porcentajeAvance),
                          f.responsableId, true))
  }

  /** `handleEdit`: the record copied into the form, progress as text. */
  function FormularioDeProyecto(p: Proyecto): (f: FormularioProyecto)
    ensures f.nombre == p.nombre && f.descripcion == p.descripcion && f.clienteId == p.clienteId
    ensures f.direccion == p.direccion && f.ciudad == p.ciudad && f.estado == p.estado
    ensures f.fechaInicio == p.fechaInicio && f.fechaFinEstimada == p.fechaFinEstimada
    ensures f.responsableId == p.responsableId
    ensures ParseInt(f.porcentajeAvance).Some?
    ensures -MaximoSeguro <= p.porcentajeAvance <= MaximoSeguro ==> EnteroOCero(f.porcentajeAvance) == p.porcentajeAvance
  {
    MostrarSeLee(p.porcentajeAvance);
    FormularioProyecto(p.nombre, p.descripcion, p.clienteId, p.direccion, p.ciudad, p.estado,
                       p.fechaInicio, p.fechaFinEstimada, Mostrar(p.porcentajeAvance), p.responsableId)
  }

  /** Opening a project for editing and saving it unchanged leaves the
      record as it was, except that it becomes active, as long as its
      progress is a safe integer. */
  lemma EditarProyectoSinCambios(p: Proyecto)
    requires p.nombre != "" && p.clienteId != "" && p.responsableId != ""
    requires -MaximoSeguro <= p.porcentajeAvance <= MaximoSeguro
    ensures EnviarProyecto(FormularioDeProyecto(p)) == Ok(DatosDeProyecto(p).(activo := true))
    ensures FusionarProyecto(p, ParcheDeProyecto(EnviarProyecto(FormularioDeProyecto(p)).value)) == p.(activo := true)
  {
    ParseIntMostrar(p.porcentajeAvance);
  }

  // ---------------------------------------------------------------------
  // States

  datatype InfoEstado = InfoEstado(valor: string, etiqueta: string, color: string)

  /** `estadosProyecto`, in display order. */
  const EstadosProyecto: seq<InfoEstado> := [
    InfoEstado("planificacion", "Planificación", "bg-gray-100 text-gray-800"),
    InfoEstado("en_ejecucion", "En Ejecución", "bg-blue-100 text-blue-800"),
    InfoEstado("pausado", "Pausado", "bg-yellow-100 text-yellow-800"),
    InfoEstado("completado", "Completado", "bg-green-100 text-green-800"),
    InfoEstado("cancelado", "Cancelado", "bg-red-100 text-red-800")
  ]

  const ValoresEstado: seq<string> := ["planificacion", "en_ejecucion", "pausado", "completado", "cancelado"]

  lemma ValoresEstadoDistintos()
    ensures Distintos(ValoresEstado)
  {
    assert forall i :: 0 <= i < |ValoresEstado| ==> |ValoresEstado[i]| == [13, 12, 7, 10, 9][i];
    assert ValoresEstado[0][0] != ValoresEstado[3][0];
  }

  /** `getEstadoInfo`: the entry for a listed state; for any other value
      the first entry (planning), never a failure. */
  function InfoDeEstado(estado: string): (e: InfoEstado)
    ensures e in EstadosProyecto
    ensures estado in ValoresEstado ==> e.valor == estado
    ensures estado !in ValoresEstado ==> e == EstadosProyecto[0]
  {
    assert forall i :: 0 <= i < |EstadosProyecto| ==> EstadosProyecto[i].valor == ValoresEstado[i];
    Encontrar(EstadosProyecto, (x: InfoEstado) => x.valor == estado).GetOr(EstadosProyecto[0])
  }

  // ---------------------------------------------------------------------
  // Name lookups

  const ClienteNoEncontrado := "Cliente no encontrado"
  const EmpleadoNoEncontrado := "Empleado no encontrado"

  /** `getClienteNombre`: the name of the first active client with that
      id, or the placeholder when the id dangles or names an inactive
      client. */
  function NombreCliente(cs: seq<Cliente>, clienteId: string): (n: string)
    ensures (forall i :: 0 <= i < |cs| ==> !(ClienteActivo(cs[i]) && cs[i].id == clienteId)) ==>
              n == ClienteNoEncontrado
    ensures (exists i :: 0 <= i < |cs| && ClienteActivo(cs[i]) && cs[i].id == clienteId) ==>
              exists k :: 0 <= k < |cs| && ClienteActivo(cs[k]) && cs[k].id == clienteId && n == cs[k].nombre &&
                forall j :: 0 <= j < k ==> !(ClienteActivo(cs[j]) && cs[j].id == clienteId)
  {
    var c := Encontrar(cs, (c: Cliente) => ClienteActivo(c) && c.id == clienteId);
    if c.Some? then c.value.nombre else ClienteNoEncontrado
  }

  /** The displayed full name. */
  function NombreCompleto(e: Empleado): string {
    e.nombre + " " + e.apellido
  }

  /** `getEmpleadoNombre`: "nombre apellido" of the first active employee
      with that id, or the placeholder. */
  function NombreEmpleado(es: seq<Empleado>, empleadoId: string): (n: string)
    ensures (forall i :: 0 <= i < |es| ==> !(es[i].activo && es[i].id == empleadoId)) ==>
              n == EmpleadoNoEncontrado
    ensures (exists i :: 0 <= i < |es| && es[i].activo && es[i].id == empleadoId) ==>
              exists k :: 0 <= k < |es| && es[k].activo && es[k].id == empleadoId && n == NombreCompleto(es[k]) &&
                forall j :: 0 <= j < k ==> !(es[j].activo && es[j].id == empleadoId)
  {
    var e := Encontrar(es, (e: Empleado) => e.activo && e.id == empleadoId);
    if e.Some? then NombreCompleto(e.value) else EmpleadoNoEncontrado
  }

  /** A soft-deleted client is no longer found: its projects show the
      placeholder. */
  lemma ClienteEliminadoNoEncontrado(cs: seq<Cliente>, clienteId: string)
    ensures NombreCliente(EliminarCliente(cs, clienteId), clienteId) == ClienteNoEncontrado
  {
  }

  /** A soft-deleted employee is no longer found. */
  lemma EmpleadoEliminadoNoEncontrado(es: seq<Empleado>, empleadoId: string)
    ensures NombreEmpleado(EliminarEmpleado(es, empleadoId), empleadoId) == EmpleadoNoEncontrado
  {
  }

  /** A client just added under a fresh id with `activo: true` is found
      by that id. */
  lemma ClienteAgregadoEncontrado(cs: seq<Cliente>, d: DatosCliente, id: string)
    requires !TieneId(cs, IdCliente, id) && d.activo == Some(true)
    ensures NombreCliente(AgregarCliente(cs, d, id), id) == d.nombre
  {
    var r := AgregarCliente(cs, d, id);
    assert ClienteActivo(r[|cs|]) && r[|cs|].id == id;
    assert forall j :: 0 <= j < |cs| ==> r[j] == cs[j] && cs[j].id != id;
  }

  // ---------------------------------------------------------------------
  // Filtered list and counts

  datatype FiltroProyectos = FiltroProyectos(termino: string, estado: string)

  /** The term is searched in name, description and city. */
  predicate CoincideProyecto(p: Proyecto, termino: string) {
    Coincide(p.nombre, termino) || Coincide(p.descripcion, termino) || Coincide(p.ciudad, termino)
  }

  predicate CumpleFiltroProyecto(f: FiltroProyectos, p: Proyecto) {
    CoincideProyecto(p, f.termino) && (f.estado == "todos" || p.estado == f.estado)
  }

  predicate ActivoYCumpleProyecto(f: FiltroProyectos, p: Proyecto) {
    p.activo && CumpleFiltroProyecto(f, p)
  }

  /** `proyectosFiltrados`: the active projects that match the term and
      the state selector, in collection order. */
  function ProyectosFiltrados(ps: seq<Proyecto>, f: FiltroProyectos): (r: seq<Proyecto>)
    ensures EsSubsecuencia(r, ps)
    ensures forall i :: 0 <= i < |r| ==> r[i].activo && CumpleFiltroProyecto(f, r[i])
    ensures forall i :: 0 <= i < |ps| && ps[i].activo && CumpleFiltroProyecto(f, ps[i]) ==> ps[i] in r
    ensures forall i :: 0 <= i < |ps| ==>
              multiset(r)[ps[i]] == if ActivoYCumpleProyecto(f, ps[i]) then multiset(ps)[ps[i]] else 0
  {
    var q := (p: Proyecto) => CumpleFiltroProyecto(f, p);
    var pq := (p: Proyecto) => ActivoYCumpleProyecto(f, p);
    FiltrarFiltrar(ps, ProyectoActivo, q, pq);
    FiltrarMultiplicidad(ps, pq);
    Filtrar(Filtrar(ps, ProyectoActivo), q)
  }

  /** "todos" lets every state through: the list is filtered by the
      search term alone. */
  lemma TodosLosEstados(t: string, p: Proyecto)
    ensures CumpleFiltroProyecto(FiltroProyectos(t, "todos"), p) <==> CoincideProyecto(p, t)
  {
  }

  function EstadoDe(p: Proyecto): string {
    p.estado
  }

  /** The per-state counters: active projects in each listed state, in
      display order. */
  function ConteoPorEstado(ps: seq<Proyecto>): (ns: seq<nat>)
    ensures |ns| == |EstadosProyecto|
    ensures forall i :: 0 <= i < |ns| ==>
              ns[i] == ContarClave(Filtrar(ps, ProyectoActivo), EstadoDe, ValoresEstado[i])
  {
    ConteosPorClave(Filtrar(ps, ProyectoActivo), EstadoDe, ValoresEstado)
  }

  /** When every active project is in one of the five listed states the
      counters add up to the number of active projects. */
  lemma {:induction false} ConteosSumanActivos(ps: seq<Proyecto>)
    requires forall i :: 0 <= i < |ps| && ps[i].activo ==> ps[i].estado in ValoresEstado
    ensures Suma(ConteoPorEstado(ps)) == |Filtrar(ps, ProyectoActivo)|
  {
    var act := Filtrar(ps, ProyectoActivo);
    ValoresEstadoDistintos();
    assert forall i :: 0 <= i < |act| ==> EstadoDe(act[i]) in ValoresEstado;
    SumaConteosPorClave(act, EstadoDe, ValoresEstado);
  }
}
