/** The key figures both the dashboard and the home page compute from the
    six collections, with the same expressions on both pages. */
module Indicadores {
  import opened Tipos
  import opened Coleccion
  import opened Entidades
  import opened Inventarios

  predicate EmpleadoActivo(e: Empleado) {
    e.activo
  }

  predicate ProyectoActivo(p: Proyecto) {
    p.activo
  }

  /** `c.activo` is truthy: present and true. A record without the field
      is not counted. */
  predicate ClienteActivo(c: Cliente) {
    c.activo == Some(true)
  }

  predicate ProveedorActivo(p: Proveedor) {
    p.activo == Some(true)
  }

  /** An active project in execution. */
  predicate EnEjecucion(p: Proyecto) {
    p.estado == "en_ejecucion" && p.activo
  }

  predicate Aprobada(i: Inspeccion) {
    i.resultado == "aprobado"
  }

  /** An inspection that needs follow-up. */
  predicate Pendiente(i: Inspeccion) {
    i.resultado == "condicional" || i.resultado == "rechazado"
  }

  /** One of the three results the form offers. */
  predicate ResultadoConocido(i: Inspeccion) {
    i.resultado == "aprobado" || i.resultado == "condicional" || i.resultado == "rechazado"
  }

  predicate BajoActivo(x: Item) {
    EnStockBajo(x) && x.activo
  }

  predicate AgotadoActivo(x: Item) {
    EstaAgotado(x) && x.activo
  }

  datatype Kpis = Kpis(
    totalEmpleados: nat,
    proyectosEnEjecucion: nat,
    totalProyectos: nat,
    totalInventario: nat,
    totalClientes: nat,
    totalProveedores: nat,
    totalInspecciones: nat,
    inspeccionesAprobadas: nat,
    stockBajo: nat,
    stockAgotado: nat,
    inspeccionesPendientes: nat)

  /** The figures: totals of active records (every inspection counts),
      active projects in execution, approved inspections, pending ones
      (conditional or rejected), and the
      low and depleted active items. Executing projects are among the
      active ones; low and depleted items are disjoint and active, and
      agree with the inventory page's own summary; approved and pending
      inspections are disjoint and, when every result is one of the
      three known ones, make up the total. */
  function CalcularKpis(es: seq<Empleado>, ps: seq<Proyecto>, xs: seq<Item>, cs: seq<Cliente>,
                        vs: seq<Proveedor>, ins: seq<Inspeccion>): (k: Kpis)
    ensures k.totalEmpleados == |Filtrar(es, EmpleadoActivo)|
    ensures k.totalProyectos == |Filtrar(ps, ProyectoActivo)|
    ensures k.totalClientes == |Filtrar(cs, ClienteActivo)|
    ensures k.totalProveedores == |Filtrar(vs, ProveedorActivo)|
    ensures k.totalInspecciones == |ins|
    ensures k.proyectosEnEjecucion == |Filtrar(ps, EnEjecucion)|
    ensures k.proyectosEnEjecucion <= k.totalProyectos
    ensures k.totalInventario == CalcularEstadisticas(xs).total
    ensures k.stockBajo == CalcularEstadisticas(xs).stockBajo
    ensures k.stockAgotado == CalcularEstadisticas(xs).agotado
    ensures k.stockBajo + k.stockAgotado <= k.totalInventario
    ensures k.inspeccionesAprobadas == |Filtrar(ins, Aprobada)|
    ensures k.inspeccionesPendientes == |Filtrar(ins, Pendiente)|
    ensures k.inspeccionesAprobadas + k.inspeccionesPendientes <= k.totalInspecciones
    ensures (forall i :: 0 <= i < |ins| ==> ResultadoConocido(ins[i])) ==>
              k.inspeccionesAprobadas + k.inspeccionesPendientes == k.totalInspecciones
  {
    ContarMonotono(ps, EnEjecucion, ProyectoActivo);
    FiltrarFiltrar(xs, ItemActivo, EnStockBajo, BajoActivo);
    FiltrarFiltrar(xs, ItemActivo, EstaAgotado, AgotadoActivo);
    ContarDisjuntos(ins, Aprobada, Pendiente, ResultadoConocido);
    FiltrarTodos(ins, ResultadoConocido);
    Kpis(|Filtrar(es, EmpleadoActivo)|,
         |Filtrar(ps, EnEjecucion)|,
         |Filtrar(ps, ProyectoActivo)|,
         |Filtrar(xs, ItemActivo)|,
         |Filtrar(cs, ClienteActivo)|,
         |Filtrar(vs, ProveedorActivo)|,
         |ins|,
         |Filtrar(ins, Aprobada)|,
         |Filtrar(xs, BajoActivo)|,
         |Filtrar(xs, AgotadoActivo)|,
         |Filtrar(ins, Pendiente)|)
  }

  /** `t * x <= t * y` for a positive `t` and `x <= y`. */
  lemma MultiplicarMonotono(t: int, x: int, y: int)
    requires t > 0 && x <= y
    ensures t * x <= t * y
  {
    assert t * y - t * x == t * (y - x);
  }

  /** The quotient and remainder of a rounded percentage. */
  lemma Redondeo(a: nat, t: nat)
    requires 0 < t && a <= t
    ensures var p := (200 * a + t) / (2 * t);
            && 2 * t * p - t <= 200 * a < 2 * t * p + t
            && p <= 100
            && (a == t ==> p == 100)
  {
    var n := 200 * a + t;
    var d := 2 * t;
    var p := n / d;
    assert n == d * p + n % d && 0 <= n % d < d;
    if p > 100 {
      MultiplicarMonotono(d, 101, p);
      MultiplicarMonotono(200, a, t);
    }
    if a == t {
      assert n == d * 100 + t;
      if p < 100 {
        MultiplicarMonotono(d, p, 99);
      }
    }
  }

  /** `Math.round(aprobadas / total * 100)`, or 0 without inspections:
      the percentage rounded to the nearest integer, halves upwards. */
  function PorcentajeAprobacion(ins: seq<Inspeccion>): (p: nat)
    ensures |ins| == 0 ==> p == 0
    ensures p <= 100
    ensures |ins| > 0 ==> var a := |Filtrar(ins, Aprobada)|;
                         2 * |ins| * p - |ins| <= 200 * a < 2 * |ins| * p + |ins|
    ensures |ins| > 0 && (forall i :: 0 <= i < |ins| ==> Aprobada(ins[i])) ==> p == 100
  {
    FiltrarTodos(ins, Aprobada);
    var t := |ins|;
    var a := |Filtrar(ins, Aprobada)|;
    if t == 0 then 0
    else
      Redondeo(a, t);
      (200 * a + t) / (2 * t)
  }
}
