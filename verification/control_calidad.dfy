/** The quality-control page: the inspection form and its submission,
    the filtered list, the per-result counters and the project-name
    lookups of the table and of the printed report. Inspections have no
    active flag: every one is listed and counted. */
module ControlCalidad {
  import opened Tipos
  import opened Texto
  import opened Coleccion
  import opened Entidades
  import opened Repositorios
  import opened Indicadores

  // ---------------------------------------------------------------------
  // Form

  /** The inspection form. The follow-up date is always a key of the
      form, empty when not given. */
  datatype FormularioInspeccion = FormularioInspeccion(
    proyectoId: string,
    tipo: string,
    fecha: string,
    inspector: string,
    descripcion: string,
    resultado: string,
    observaciones: string,
    fechaSeguimiento: string)

  /** The initial and reset state of the form. */
  const FormularioInspeccionVacio :=
    FormularioInspeccion("", "estructural", "", "", "", "aprobado", "", "")

  /** The form as inspection data: every field, the follow-up date
      included even when empty. */
  function DatosDeFormularioInspeccion(f: FormularioInspeccion): (d: DatosInspeccion)
    ensures d.fechaSeguimiento == Some(f.fechaSeguimiento)
  {
    DatosInspeccion(f.proyectoId, f.tipo, f.fecha, f.inspector, f.descripcion, f.resultado,
                    f.observaciones, Some(f.fechaSeguimiento))
  }

  predicate FormularioInspeccionCompleto(f: FormularioInspeccion) {
    f.proyectoId != "" && f.tipo != "" && f.fecha != "" && f.inspector != "" && f.resultado != ""
  }

  /** `handleSubmit`: rejected unless project, type, date, inspector and
      result are all filled; then the edited inspection (`editando` is
      its id) gets every field of the form, or without one an inspection
      is added under `nuevoId`. */
  function EnviarInspeccion(ins: seq<Inspeccion>, f: FormularioInspeccion, editando: Option<string>,
                            nuevoId: string): (r: Result<seq<Inspeccion>, string>)
    ensures r.Err? <==> !FormularioInspeccionCompleto(f)
    ensures r.Err? ==> r.error == MensajeCamposObligatorios
    ensures r.Ok? && editando.Some? ==>
              && |r.value| == |ins|
              && (forall i :: 0 <= i < |ins| && ins[i].id != editando.value ==> r.value[i] == ins[i])
              && (forall i :: 0 <= i < |ins| && ins[i].id == editando.value ==>
                    r.value[i] == NuevaInspeccion(DatosDeFormularioInspeccion(f), ins[i].id))
    ensures r.Ok? && editando.None? ==>
              && |r.value| == |ins| + 1 && r.value[..|ins|] == ins
              && r.value[|ins|] == NuevaInspeccion(DatosDeFormularioInspeccion(f), nuevoId)
  {
    var d := DatosDeFormularioInspeccion(f);
    if !FormularioInspeccionCompleto(f) then Err(MensajeCamposObligatorios)
    else if editando.Some? then
      var r := ActualizarInspeccion(ins, editando.value, ParcheDeInspeccion(d));
      assert forall i :: 0 <= i < |ins| && ins[i].id == editando.value ==>
               r[i] == FusionarInspeccion(ins[i], ParcheDeInspeccion(d));
      Ok(r)
    else Ok(AgregarInspeccion(ins, d, nuevoId))
  }

  /** `handleEdit`: the record copied into the form, a missing follow-up
      date as the empty string. */
  function FormularioDeInspeccion(x: Inspeccion): (f: FormularioInspeccion)
    ensures f.proyectoId == x.proyectoId && f.tipo == x.tipo && f.fecha == x.fecha
    ensures f.inspector == x.inspector && f.descripcion == x.descripcion
    ensures f.resultado == x.resultado && f.observaciones == x.observaciones
    ensures x.fechaSeguimiento.None? ==> f.fechaSeguimiento == ""
    ensures x.fechaSeguimiento.Some? ==> f.fechaSeguimiento == x.fechaSeguimiento.value
    ensures FormularioInspeccionCompleto(f) <==>
              x.proyectoId != "" && x.tipo != "" && x.fecha != "" && x.inspector != "" && x.resultado != ""
  {
    FormularioInspeccion(x.proyectoId, x.tipo, x.fecha, x.inspector, x.descripcion, x.resultado,
                         x.observaciones, x.fechaSeguimiento.GetOr(""))
  }

  /** Opening an inspection for editing and saving it unchanged keeps
      every field, except that a missing follow-up date is stored as the
      empty string; an inspection that had one comes back as it was. */
  lemma EditarInspeccionSinCambios(ins: seq<Inspeccion>, x: Inspeccion, nuevoId: string)
    requires x.proyectoId != "" && x.tipo != "" && x.fecha != "" && x.inspector != "" && x.resultado != ""
    ensures var r := EnviarInspeccion(ins, FormularioDeInspeccion(x), Some(x.id), nuevoId);
            && r.Ok?
            && forall i :: 0 <= i < |ins| && ins[i] == x ==>
                 r.value[i] == x.(fechaSeguimiento := Some(x.fechaSeguimiento.GetOr("")))
    ensures x.fechaSeguimiento.Some? ==>
              forall i :: 0 <= i < |ins| && ins[i] == x ==>
                EnviarInspeccion(ins, FormularioDeInspeccion(x), Some(x.id), nuevoId).value[i] == x
  {
  }

  // ---------------------------------------------------------------------
  // Filtered list and counters

  datatype FiltroInspecciones = FiltroInspecciones(termino: string, resultado: string)

  /** The term is searched in description and inspector, ignoring case. */
  predicate CoincideInspeccion(x: Inspeccion, termino: string) {
    Coincide(x.descripcion, termino) || Coincide(x.inspector, termino)
  }

  predicate CumpleFiltroInspeccion(f: FiltroInspecciones, x: Inspeccion) {
    CoincideInspeccion(x, f.termino) && (f.resultado == "todos" || x.resultado == f.resultado)
  }

  /** `inspeccionesFiltradas`: every inspection matching the term and the
      result selector, in collection order. */
  function InspeccionesFiltradas(ins: seq<Inspeccion>, f: FiltroInspecciones): (r: seq<Inspeccion>)
    ensures EsSubsecuencia(r, ins)
    ensures forall i :: 0 <= i < |r| ==> CumpleFiltroInspeccion(f, r[i])
    ensures forall i :: 0 <= i < |ins| && CumpleFiltroInspeccion(f, ins[i]) ==> ins[i] in r
    ensures forall i :: 0 <= i < |ins| ==>
              multiset(r)[ins[i]] == if CumpleFiltroInspeccion(f, ins[i]) then multiset(ins)[ins[i]] else 0
  {
    var p := (x: Inspeccion) => CumpleFiltroInspeccion(f, x);
    FiltrarMultiplicidad(ins, p);
    Filtrar(ins, p)
  }

  /** With an empty term and "todos" nothing is filtered out: every
      inspection, whatever its result, is listed. */
  lemma SinFiltroMuestraTodas(ins: seq<Inspeccion>)
    ensures InspeccionesFiltradas(ins, FiltroInspecciones("", "todos")) == ins
  {
    forall i | 0 <= i < |ins|
      ensures CumpleFiltroInspeccion(FiltroInspecciones("", "todos"), ins[i])
    {
      TerminoVacioCoincide(ins[i].descripcion);
    }
    FiltrarTodos(ins, (x: Inspeccion) => CumpleFiltroInspeccion(FiltroInspecciones("", "todos"), x));
  }

  const Resultados: seq<string> := ["aprobado", "condicional", "rechazado"]

  lemma ResultadosDistintos()
    ensures Distintos(Resultados)
  {
    assert forall i :: 0 <= i < |Resultados| ==> |Resultados[i]| == [8, 11, 9][i];
  }

  function ResultadoDe(x: Inspeccion): string {
    x.resultado
  }

  /** The page's summary cards: total, approved, conditional, rejected. */
  datatype Resumen = Resumen(total: nat, aprobadas: nat, condicionales: nat, rechazadas: nat)

  /** The counters count every inspection; the approved one agrees with
      the dashboard's, the two others make up its pending figure. */
  function CalcularResumen(ins: seq<Inspeccion>): (s: Resumen)
    ensures s.total == |ins|
    ensures s.aprobadas == ContarClave(ins, ResultadoDe, "aprobado") == |Filtrar(ins, Aprobada)|
    ensures s.condicionales == ContarClave(ins, ResultadoDe, "condicional")
    ensures s.rechazadas == ContarClave(ins, ResultadoDe, "rechazado")
    ensures s.condicionales + s.rechazadas == |Filtrar(ins, Pendiente)|
  {
    FiltrarClaveComo(ins, ResultadoDe, "aprobado", Aprobada);
    var c := FiltrarClave(ins, ResultadoDe, "condicional");
    var x := FiltrarClave(ins, ResultadoDe, "rechazado");
    FiltrarClaveComo(ins, ResultadoDe, "condicional", (i: Inspeccion) => i.resultado == "condicional");
    FiltrarClaveComo(ins, ResultadoDe, "rechazado", (i: Inspeccion) => i.resultado == "rechazado");
    ContarDisjuntos(ins, (i: Inspeccion) => i.resultado == "condicional",
                    (i: Inspeccion) => i.resultado == "rechazado", Pendiente);
    Resumen(|ins|, |Filtrar(ins, Aprobada)|, |c|, |x|)
  }

  /** The quality-control page and the dashboard agree on the same
      collection: the approved counter is the dashboard's approved figure,
      and the conditional and rejected counters add up to its pending one. */
  lemma ResumenYTablero(es: seq<Empleado>, ps: seq<Proyecto>, xs: seq<Item>, cs: seq<Cliente>,
                        vs: seq<Proveedor>, ins: seq<Inspeccion>)
    ensures var s := CalcularResumen(ins);
            var k := CalcularKpis(es, ps, xs, cs, vs, ins);
            && s.aprobadas == k.inspeccionesAprobadas
            && s.condicionales + s.rechazadas == k.inspeccionesPendientes
            && s.total == k.totalInspecciones
  {
  }

  /** When every result is one of the three offered, the three counters
      add up to the total. */
  lemma {:induction false} ResumenSumaTotal(ins: seq<Inspeccion>)
    requires forall i :: 0 <= i < |ins| ==> ResultadoConocido(ins[i])
    ensures var s := CalcularResumen(ins);
            s.aprobadas + s.condicionales + s.rechazadas == s.total
  {
    assert forall i :: 0 <= i < |ins| ==> ResultadoDe(ins[i]) in Resultados;
    ConteosCubrenTodas(ins);
    ConteosDelResumen(ins);
    var s := CalcularResumen(ins);
    SumaTres([s.aprobadas, s.condicionales, s.rechazadas]);
  }

  /** When every result is one of the three, the per-result counts add
      up to the number of inspections. */
  lemma ConteosCubrenTodas(ins: seq<Inspeccion>)
    requires forall i :: 0 <= i < |ins| ==> ResultadoDe(ins[i]) in Resultados
    ensures Suma(ConteosPorClave(ins, ResultadoDe, Resultados)) == |ins|
  {
    ResultadosDistintos();
    SumaConteosCubre(ins, ResultadoDe, Resultados);
  }

  /** The three counters are the per-result counts, in display order. */
  lemma ConteosDelResumen(ins: seq<Inspeccion>)
    ensures var s := CalcularResumen(ins);
            ConteosPorClave(ins, ResultadoDe, Resultados) == [s.aprobadas, s.condicionales, s.rechazadas]
  {
    var s := CalcularResumen(ins);
    var ns := ConteosPorClave(ins, ResultadoDe, Resultados);
    assert ns[0] == s.aprobadas && ns[1] == s.condicionales && ns[2] == s.rechazadas;
  }

  lemma SumaTres(ns: seq<nat>)
    requires |ns| == 3
    ensures Suma(ns) == ns[0] + ns[1] + ns[2]
  {
    assert Suma(ns[2..]) == ns[2] + Suma(ns[3..]) && ns[3..] == [];
    assert Suma(ns[1..]) == ns[1] + Suma(ns[2..]) by { assert ns[1..][1..] == ns[2..]; }
  }

  // ---------------------------------------------------------------------
  // Project names

  const SinDato := "N/D"

  /** `p?.nombre || 'N/D'`: no project, or one with an empty name, shows
      the placeholder. */
  function NombreONd(p: Option<Proyecto>): (n: string)
    ensures n == SinDato <==> p.None? || p.value.nombre == "" || p.value.nombre == SinDato
    ensures n != SinDato ==> n == p.value.nombre
  {
    if p.Some? && p.value.nombre != "" then p.value.nombre else SinDato
  }

  predicate ActivoConId(p: Proyecto, k: string) {
    p.activo && p.id == k
  }

  /** The table's lookup among `proyectosActivos`: the name of the first
      active project with that id. */
  function NombreProyectoTabla(ps: seq<Proyecto>, proyectoId: string): (n: string)
    ensures n == NombreONd(Encontrar(ps, (p: Proyecto) => ActivoConId(p, proyectoId)))
  {
    EncontrarFiltrar(ps, ProyectoActivo, (p: Proyecto) => p.id == proyectoId,
                     (p: Proyecto) => ActivoConId(p, proyectoId));
    NombreONd(Encontrar(Filtrar(ps, ProyectoActivo), (p: Proyecto) => p.id == proyectoId))
  }

  /** The printed report's lookup among all projects, soft-deleted ones
      included. */
  function NombreProyectoReporte(ps: seq<Proyecto>, proyectoId: string): (n: string)
    ensures (forall i :: 0 <= i < |ps| ==> ps[i].id != proyectoId) ==> n == SinDato
    ensures forall k :: 0 <= k < |ps| && ps[k].id == proyectoId && (forall j :: 0 <= j < k ==> ps[j].id != proyectoId) ==>
              n == NombreONd(Some(ps[k]))
  {
    NombreONd(Encontrar(ps, (p: Proyecto) => p.id == proyectoId))
  }

  /** With unique ids, a soft-deleted project's inspections show the
      placeholder in the table but the project's name in the report. */
  lemma TablaYReporteTrasEliminar(ps: seq<Proyecto>, k: nat)
    requires k < |ps| && IdsUnicos(ps, IdProyecto) && ps[k].nombre != ""
    ensures NombreProyectoTabla(EliminarProyecto(ps, ps[k].id), ps[k].id) == SinDato
    ensures NombreProyectoReporte(EliminarProyecto(ps, ps[k].id), ps[k].id) == ps[k].nombre
  {
    var id := ps[k].id;
    var r := EliminarProyecto(ps, id);
    UnicoConId(ps, IdProyecto, k);
    assert forall i :: 0 <= i < |r| && r[i].id == id ==> i == k;
    assert forall i :: 0 <= i < |r| ==> !r[i].activo || r[i].id != id;
    assert r[k].nombre == ps[k].nombre && r[k].id == id;
    var e := Encontrar(r, (p: Proyecto) => p.id == id);
    assert e.Some? && e.value == r[k];
  }

  /** For an active project the two lookups agree. */
  lemma TablaYReporteCoinciden(ps: seq<Proyecto>, k: nat)
    requires k < |ps| && IdsUnicos(ps, IdProyecto) && ps[k].activo
    ensures NombreProyectoTabla(ps, ps[k].id) == NombreProyectoReporte(ps, ps[k].id)
  {
    var id := ps[k].id;
    UnicoConId(ps, IdProyecto, k);
    assert forall i :: 0 <= i < |ps| && ps[i].id == id ==> i == k;
    var a := Encontrar(ps, (p: Proyecto) => ActivoConId(p, id));
    var b := Encontrar(ps, (p: Proyecto) => p.id == id);
    assert a.Some? && b.Some?;
  }
}
