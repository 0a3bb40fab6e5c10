/** The executive dashboard: the alert list built from the key figures
    and the short list of projects in execution. */
module Tablero {
  import opened Tipos
  import opened Texto
  import opened Coleccion
  import opened Entidades
  import opened Indicadores

  /** "warning", "error", "info" and "success". */
  datatype TipoAlerta = Advertencia | Fallo | Informacion | Exito

  datatype Alerta = Alerta(tipo: TipoAlerta, mensaje: string, fecha: string)

  /** The position a kind of alert takes in the list. */
  function Rango(t: TipoAlerta): nat {
    match t
    case Advertencia => 0
    case Fallo => 1
    case Informacion => 2
    case Exito => 3
  }

  function MensajeStockBajo(n: int): string {
    Mostrar(n) + " items con stock bajo requieren reposición"
  }

  function MensajeAgotados(n: int): string {
    Mostrar(n) + " items agotados necesitan restock urgente"
  }

  function MensajePendientes(n: int): string {
    Mostrar(n) + " inspecciones requieren seguimiento"
  }

  const MensajeTodoBien := "Todas las operaciones funcionando correctamente"

  predicate HayAlerta(al: seq<Alerta>, t: TipoAlerta) {
    exists i :: 0 <= i < |al| && al[i].tipo == t
  }

  /** `alertas`: a warning when some active item is low, an error when
      one is depleted, an info when an inspection needs follow-up; a
      success entry when the list would otherwise be empty. */
  function Alertas(k: Kpis): (al: seq<Alerta>)
    ensures 1 <= |al| <= 3
  {
    var bajo := if k.stockBajo > 0 then [Alerta(Advertencia, MensajeStockBajo(k.stockBajo), "Hoy")] else [];
    var agotado := if k.stockAgotado > 0 then [Alerta(Fallo, MensajeAgotados(k.stockAgotado), "Hoy")] else [];
    var pendiente := if k.inspeccionesPendientes > 0
                     then [Alerta(Informacion, MensajePendientes(k.inspeccionesPendientes), "Pendiente")]
                     else [];
    var al := bajo + agotado + pendiente;
    if al == [] then [Alerta(Exito, MensajeTodoBien, "Actualizado")] else al
  }

  /** The alerts come in the order warning, error, info; each is present
      exactly when its count is positive and carries that count; the
      success entry is present exactly when none of them is, and then
      alone. */
  lemma {:induction false} AlertasCorrectas(k: Kpis)
    ensures var al := Alertas(k);
            && (forall i, j :: 0 <= i < j < |al| ==> Rango(al[i].tipo) < Rango(al[j].tipo))
            && (HayAlerta(al, Advertencia) <==> k.stockBajo > 0)
            && (HayAlerta(al, Fallo) <==> k.stockAgotado > 0)
            && (HayAlerta(al, Informacion) <==> k.inspeccionesPendientes > 0)
            && (HayAlerta(al, Exito) <==> k.stockBajo == 0 && k.stockAgotado == 0 && k.inspeccionesPendientes == 0)
            && (HayAlerta(al, Exito) ==> |al| == 1)
            && (forall i :: 0 <= i < |al| ==> al[i].mensaje == MensajeDe(k, al[i].tipo))
  {
    var w := Alerta(Advertencia, MensajeStockBajo(k.stockBajo), "Hoy");
    var e := Alerta(Fallo, MensajeAgotados(k.stockAgotado), "Hoy");
    var n := Alerta(Informacion, MensajePendientes(k.inspeccionesPendientes), "Pendiente");
    var al := Alertas(k);
    var b, a, p := k.stockBajo > 0, k.stockAgotado > 0, k.inspeccionesPendientes > 0;
    if b && a && p { assert |al| == 3 && al[0] == w && al[1] == e && al[2] == n; }
    else if b && a { assert |al| == 2 && al[0] == w && al[1] == e; }
    else if b && p { assert |al| == 2 && al[0] == w && al[1] == n; }
    else if a && p { assert |al| == 2 && al[0] == e && al[1] == n; }
    else if b { assert |al| == 1 && al[0] == w; }
    else if a { assert |al| == 1 && al[0] == e; }
    else if p { assert |al| == 1 && al[0] == n; }
    else { assert |al| == 1 && al[0] == Alerta(Exito, MensajeTodoBien, "Actualizado"); }
  }

  /** The text an alert of kind `t` shows. */
  function MensajeDe(k: Kpis, t: TipoAlerta): string {
    match t
    case Advertencia => MensajeStockBajo(k.stockBajo)
    case Fallo => MensajeAgotados(k.stockAgotado)
    case Informacion => MensajePendientes(k.inspeccionesPendientes)
    case Exito => MensajeTodoBien
  }

  /** `proyectosActivos.slice(0, 5)`: the first five active projects in
      execution, in collection order (all of them when there are fewer). */
  function ProyectosDestacados(ps: seq<Proyecto>): (r: seq<Proyecto>)
    ensures var enCurso := Filtrar(ps, EnEjecucion);
            && |r| == (if |enCurso| < 5 then |enCurso| else 5)
            && r == enCurso[..|r|]
    ensures forall i :: 0 <= i < |r| ==> EnEjecucion(r[i]) && r[i] in ps
  {
    var enCurso := Filtrar(ps, EnEjecucion);
    if |enCurso| < 5 then enCurso else enCurso[..5]
  }
}
