/** The inventory page: the stock badge, the three stock filters, the
    filtered list, the summary counts, the category list and the form
    submission. */
module Inventarios {
  import opened Tipos
  import opened Texto
  import opened Coleccion
  import opened Entidades
  import opened Semilla

  predicate ItemActivo(x: Item) {
    x.activo
  }

  /** `inventario.filter(item => item.activo)`. */
  function InventarioActivo(xs: seq<Item>): (ys: seq<Item>)
    ensures EsSubsecuencia(ys, xs)
    ensures forall i :: 0 <= i < |ys| ==> ys[i].activo && ys[i] in xs
    ensures forall i :: 0 <= i < |xs| && xs[i].activo ==> xs[i] in ys
    ensures forall i :: 0 <= i < |xs| ==> multiset(ys)[xs[i]] == if xs[i].activo then multiset(xs)[xs[i]] else 0
  {
    FiltrarMultiplicidad(xs, ItemActivo);
    Filtrar(xs, ItemActivo)
  }

  // ---------------------------------------------------------------------
  // Stock

  /** The "bajo" filter and the low-stock count. */
  predicate EnStockBajo(x: Item) {
    x.stockActual <= x.stockMinimo && x.stockActual > 0
  }

  /** The "agotado" filter and the depleted count. */
  predicate EstaAgotado(x: Item) {
    x.stockActual == 0
  }

  /** The "normal" filter. */
  predicate EnStockNormal(x: Item) {
    x.stockActual > x.stockMinimo
  }

  datatype Insignia = Agotado | StockBajo | Normal

  /** `getStockBadge`: zero stock is depleted, then anything at or below
      the minimum is low, the rest normal. The depleted badge is the
      "agotado" filter, the normal badge the "normal" filter on a
      non-depleted item, and for non-negative stock the low badge is the
      "bajo" filter. */
  function InsigniaStock(x: Item): (b: Insignia)
    ensures b == Agotado <==> EstaAgotado(x)
    ensures b == Normal <==> EnStockNormal(x) && !EstaAgotado(x)
    ensures x.stockActual >= 0 ==> (b == StockBajo <==> EnStockBajo(x))
  {
    if x.stockActual == 0 then Agotado
    else if x.stockActual <= x.stockMinimo then StockBajo
    else Normal
  }

  /** The stock selector: "bajo", "agotado", "normal", anything else
      ("todos") lets every item through. "agotado" selects exactly the
      items badged depleted; "normal" those badged normal once the
      minimum is not negative; "bajo" those badged low once the stock is
      not negative. */
  function CumpleStock(x: Item, filtro: string): (b: bool)
    ensures filtro != "bajo" && filtro != "agotado" && filtro != "normal" ==> b
    ensures filtro == "agotado" ==> (b <==> InsigniaStock(x) == Agotado)
    ensures filtro == "normal" && x.stockMinimo >= 0 ==> (b <==> InsigniaStock(x) == Normal)
    ensures filtro == "bajo" && x.stockActual >= 0 ==> (b <==> InsigniaStock(x) == StockBajo)
  {
    if filtro == "bajo" then EnStockBajo(x)
    else if filtro == "agotado" then EstaAgotado(x)
    else if filtro == "normal" then EnStockNormal(x)
    else true
  }

  /** For non-negative stock and minimum exactly one of the three stock
      filters matches an item, the one its badge names. */
  lemma FiltrosStockExclusivos(x: Item)
    requires x.stockActual >= 0 && x.stockMinimo >= 0
    ensures CumpleStock(x, "bajo") || CumpleStock(x, "agotado") || CumpleStock(x, "normal")
    ensures !(CumpleStock(x, "bajo") && CumpleStock(x, "agotado"))
    ensures !(CumpleStock(x, "bajo") && CumpleStock(x, "normal"))
    ensures !(CumpleStock(x, "agotado") && CumpleStock(x, "normal"))
    ensures CumpleStock(x, "bajo") <==> InsigniaStock(x) == StockBajo
    ensures CumpleStock(x, "agotado") <==> InsigniaStock(x) == Agotado
    ensures CumpleStock(x, "normal") <==> InsigniaStock(x) == Normal
  {
  }

  /** A negative minimum breaks the exclusivity: a depleted item is then
      also above its minimum and is listed under both "agotado" and
      "normal", while its badge says depleted. */
  lemma AgotadoConMinimoNegativo(x: Item)
    requires x.stockActual == 0 && x.stockMinimo < 0
    ensures CumpleStock(x, "agotado") && CumpleStock(x, "normal")
    ensures InsigniaStock(x) == Agotado
  {
  }

  /** A negative stock at or below the minimum shows the low-stock badge
      yet matches none of the three stock filters. */
  lemma StockNegativoSinFiltro(x: Item)
    requires x.stockActual < 0 && x.stockActual <= x.stockMinimo
    ensures InsigniaStock(x) == StockBajo
    ensures !CumpleStock(x, "bajo") && !CumpleStock(x, "agotado") && !CumpleStock(x, "normal")
  {
  }

  /** The seed inventory has one normal, one low and one depleted item. */
  lemma InsigniasSemilla()
    ensures InsigniaStock(InventarioInicial[0]) == Normal
    ensures InsigniaStock(InventarioInicial[1]) == StockBajo
    ensures InsigniaStock(InventarioInicial[2]) == Agotado
  {
  }

  // ---------------------------------------------------------------------
  // Filtered list

  /** The search box, the category selector and the stock selector. */
  datatype FiltroInventario = FiltroInventario(termino: string, categoria: string, stock: string)

  const SinFiltroInventario := FiltroInventario("", "todos", "todos")

  /** The term is searched in name, code, description and location. */
  predicate CoincideItem(x: Item, termino: string) {
    Coincide(x.nombre, termino) || Coincide(x.codigo, termino) ||
    Coincide(x.descripcion, termino) || Coincide(x.ubicacion, termino)
  }

  predicate CumpleFiltroItem(f: FiltroInventario, x: Item) {
    && CoincideItem(x, f.termino)
    && (f.categoria == "todos" || x.categoria == f.categoria)
    && CumpleStock(x, f.stock)
  }

  predicate ActivoYCumple(f: FiltroInventario, x: Item) {
    x.activo && CumpleFiltroItem(f, x)
  }

  /** `inventarioFiltrado`: the active items that pass all three
      filters, in collection order; inactive items never appear. */
  function InventarioFiltrado(xs: seq<Item>, f: FiltroInventario): (ys: seq<Item>)
    ensures EsSubsecuencia(ys, xs)
    ensures forall i :: 0 <= i < |ys| ==> ys[i].activo && CumpleFiltroItem(f, ys[i])
    ensures forall i :: 0 <= i < |xs| && xs[i].activo && CumpleFiltroItem(f, xs[i]) ==> xs[i] in ys
    ensures forall i :: 0 <= i < |xs| ==>
              multiset(ys)[xs[i]] == if ActivoYCumple(f, xs[i]) then multiset(xs)[xs[i]] else 0
  {
    var pq := x => ActivoYCumple(f, x);
    FiltrarFiltrar(xs, ItemActivo, x => CumpleFiltroItem(f, x), pq);
    FiltrarMultiplicidad(xs, pq);
    Filtrar(InventarioActivo(xs), x => CumpleFiltroItem(f, x))
  }

  /** With both selectors on "todos" the list is filtered by the search
      term alone. */
  lemma FiltroSoloBusqueda(f: FiltroInventario, x: Item)
    requires f.categoria == "todos" && f.stock == "todos"
    ensures CumpleFiltroItem(f, x) <==> CoincideItem(x, f.termino)
  {
  }

  /** With no filter set the page lists every active item. */
  lemma {:induction false} SinFiltroMuestraActivos(xs: seq<Item>)
    ensures InventarioFiltrado(xs, SinFiltroInventario) == InventarioActivo(xs)
  {
    var act := InventarioActivo(xs);
    forall i | 0 <= i < |act|
      ensures CumpleFiltroItem(SinFiltroInventario, act[i])
    {
      TerminoVacioCoincide(act[i].nombre);
    }
    FiltrarTodos(act, x => CumpleFiltroItem(SinFiltroInventario, x));
  }

  // ---------------------------------------------------------------------
  // Summary and categories

  datatype Estadisticas = Estadisticas(total: nat, stockBajo: nat, agotado: nat)

  /** `calcularEstadisticas` (without the monetary total): the low and
      depleted counts are over disjoint sets of active items, so they
      never add up to more than the active total. */
  function CalcularEstadisticas(xs: seq<Item>): (e: Estadisticas)
    ensures e.total == |InventarioActivo(xs)|
    ensures e.stockBajo == |Filtrar(InventarioActivo(xs), EnStockBajo)|
    ensures e.agotado == |Filtrar(InventarioActivo(xs), EstaAgotado)|
    ensures e.stockBajo + e.agotado <= e.total
  {
    var act := InventarioActivo(xs);
    ContarDisjuntos(act, EnStockBajo, EstaAgotado, x => EnStockBajo(x) || EstaAgotado(x));
    Estadisticas(|act|, |Filtrar(act, EnStockBajo)|, |Filtrar(act, EstaAgotado)|)
  }

  function CategoriaDe(x: Item): string {
    x.categoria
  }

  /** `categoriasUnicas`: each category of an active item exactly once,
      and nothing else. */
  function CategoriasUnicas(xs: seq<Item>): (cs: seq<string>)
    ensures Distintos(cs)
    ensures forall i :: 0 <= i < |cs| ==> exists j :: 0 <= j < |xs| && xs[j].activo && xs[j].categoria == cs[i]
    ensures forall j :: 0 <= j < |xs| && xs[j].activo ==> xs[j].categoria in cs
  {
    ValoresDistintosDe(xs, ItemActivo, CategoriaDe);
    SinRepetir(Mapear(Filtrar(xs, ItemActivo), CategoriaDe))
  }

  // ---------------------------------------------------------------------
  // Form

  /** The item form: every field is text. */
  datatype FormularioItem = FormularioItem(
    codigo: string,
    nombre: string,
    descripcion: string,
    categoria: string,
    stockActual: string,
    stockMinimo: string,
    unidad: string,
    ubicacion: string)

  /** `handleSubmit`: rejected when code, name or category is empty;
      otherwise the item data, active, with the stock fields parsed and
      an unparsable one read as 0. */
  function EnviarItem(f: FormularioItem): (r: Result<DatosItem, string>)
    ensures r.Err? <==> f.codigo == "" || f.nombre == "" || f.categoria == ""
    ensures r.Err? ==> r.error == MensajeCamposObligatorios
    ensures r.Ok? ==> r.value.activo
    ensures r.Ok? ==> r.value.stockActual == ParseInt(f.stockActual).GetOr(0)
    ensures r.Ok? ==> r.value.stockMinimo == ParseInt(f.stockMinimo).GetOr(0)
    ensures r.Ok? ==> r.value.codigo == f.codigo && r.value.nombre == f.nombre && r.value.descripcion == f.descripcion
    ensures r.Ok? ==> r.value.categoria == f.categoria && r.value.unidad == f.unidad && r.value.ubicacion == f.ubicacion
  {
    if f.codigo == "" || f.nombre == "" || f.categoria == "" then Err(MensajeCamposObligatorios)
    else Ok(DatosItem(f.codigo, f.nombre, f.descripcion, f.categoria, EnteroOCero(f.stockActual),
                      EnteroOCero(f.stockMinimo), f.unidad, f.ubicacion, true))
  }

  /** `handleEdit`: the record's fields copied into the form, the stock
      numbers shown as text. */
  function FormularioDeItem(x: Item): (f: FormularioItem)
    ensures f.codigo == x.codigo && f.nombre == x.nombre && f.descripcion == x.descripcion
    ensures f.categoria == x.categoria && f.unidad == x.unidad && f.ubicacion == x.ubicacion
    ensures ParseInt(f.stockActual).Some? && ParseInt(f.stockMinimo).Some?
    ensures -MaximoSeguro <= x.stockActual <= MaximoSeguro ==> EnteroOCero(f.stockActual) == x.stockActual
    ensures -MaximoSeguro <= x.stockMinimo <= MaximoSeguro ==> EnteroOCero(f.stockMinimo) == x.stockMinimo
  {
    MostrarSeLee(x.stockActual);
    MostrarSeLee(x.stockMinimo);
    FormularioItem(x.codigo, x.nombre, x.descripcion, x.categoria, Mostrar(x.stockActual),
                   Mostrar(x.stockMinimo), x.unidad, x.ubicacion)
  }

  /** Opening an item for editing and saving it unchanged leaves the
      record as it was, except that it becomes active, as long as both
      stock numbers are safe integers. */
  lemma EditarItemSinCambios(x: Item)
    requires x.codigo != "" && x.nombre != "" && x.categoria != ""
    requires -MaximoSeguro <= x.stockActual <= MaximoSeguro
    requires -MaximoSeguro <= x.stockMinimo <= MaximoSeguro
    ensures EnviarItem(FormularioDeItem(x)) == Ok(DatosDeItem(x).(activo := true))
    ensures FusionarItem(x, ParcheDeItem(EnviarItem(FormularioDeItem(x)).value)) == x.(activo := true)
  {
    ParseIntMostrar(x.stockActual);
    ParseIntMostrar(x.stockMinimo);
  }
}
