/** The demonstration data and `initializeData`, which stores each seed
    collection under its key unless the key already holds something.
    The JSON text of each collection is a parameter (`TextosSemilla`). */
module Semilla {
  import opened Tipos
  import opened Coleccion
  import opened Entidades
  import opened Almacen
  import opened Repositorios

  const EmpleadosIniciales: seq<Empleado> := [
    Empleado("1", "Carlos", "Rodríguez", "12345678", "cedula", "Ingeniero Civil", "3001234567",
             "carlos.rodriguez@constructoracsrsas.com", "2023-01-15", true, None),
    Empleado("2", "María", "González", "87654321", "cedula", "Arquitecta", "3009876543",
             "maria.gonzalez@constructoracsrsas.com", "2023-02-01", true, None),
    Empleado("3", "Luis", "Martínez", "11223344", "cedula", "Maestro de Obra", "3005566778",
             "luis.martinez@constructoracsrsas.com", "2022-11-10", true, None)
  ]

  const ClientesIniciales: seq<Cliente> := [
    Cliente("1", "Inmobiliaria Los Pinos S.A.S.", "nit", "900123456-7", "6012345678",
            "contacto@inmobiliarialospinos.com", "Calle 100 #15-20", "Bogotá", "Cundinamarca",
            "Ana Pérez", Some(true)),
    Cliente("2", "Constructora Norte Ltda.", "nit", "800987654-3", "6019876543",
            "proyectos@constructoranorte.com", "Carrera 7 #85-40", "Bogotá", "Cundinamarca",
            "Roberto Silva", Some(true))
  ]

  const ProyectosIniciales: seq<Proyecto> := [
    Proyecto("1", "Edificio Residencial Los Pinos",
             "Construcción de edificio residencial de 8 pisos con 32 apartamentos", "1",
             "Calle 127 #45-30", "Bogotá", "en_ejecucion", "2024-01-15", "2024-12-15", 75, "1", true),
    Proyecto("2", "Centro Comercial Plaza Norte", "Construcción de centro comercial de 3 niveles", "2",
             "Autopista Norte Km 15", "Bogotá", "en_ejecucion", "2024-03-01", "2025-06-30", 45, "2", true)
  ]

  const InventarioInicial: seq<Item> := [
    Item("1", "CEM001", "Cemento Portland", "Cemento Portland tipo I - Bulto 50kg", "Materiales",
         150, 50, "Bulto", "Bodega A - Estante 1", true),
    Item("2", "VAR001", "Varilla #4", "Varilla corrugada #4 - 12 metros", "Materiales",
         25, 30, "Unidad", "Patio de Varillas", true),
    Item("3", "LAD001", "Ladrillo Tolete", "Ladrillo tolete común", "Materiales",
         0, 1000, "Unidad", "Patio Principal", true)
  ]

  const ProveedoresIniciales: seq<Proveedor> := [
    Proveedor("1", "Cementos Argos S.A.", "890900274-5", "materiales", "6014567890", "ventas@argos.com",
              "Carrera 15 #93-50", "Bogotá", 5, "Pedro Ramírez", Some(true)),
    Proveedor("2", "Ferreterías Unidas S.A.S.", "900456789-2", "materiales", "6017654321",
              "comercial@ferreteriasunidas.com", "Calle 13 #68-45", "Bogotá", 4, "Sandra López", Some(true))
  ]

  const InspeccionesIniciales: seq<Inspeccion> := [
    Inspeccion("1", "1", "estructural", "2024-10-15", "Carlos Rodríguez", "Inspección de estructura piso 6",
               "aprobado", "Estructura cumple con especificaciones técnicas", None),
    Inspeccion("2", "2", "seguridad", "2024-10-16", "María González",
               "Inspección de medidas de seguridad industrial", "condicional",
               "Falta señalización en zona de excavación", Some("2024-10-20"))
  ]

  /** The seed identifiers are unique within each collection. */
  lemma SemillaIdsUnicos()
    ensures IdsUnicos(EmpleadosIniciales, IdEmpleado)
    ensures IdsUnicos(ClientesIniciales, IdCliente)
    ensures IdsUnicos(ProyectosIniciales, IdProyecto)
    ensures IdsUnicos(InventarioInicial, IdItem)
    ensures IdsUnicos(ProveedoresIniciales, IdProveedor)
    ensures IdsUnicos(InspeccionesIniciales, IdInspeccion)
  {
    IdsUnicosEmpleados();
    IdsUnicosClientes();
    IdsUnicosProyectos();
    IdsUnicosInventario();
    IdsUnicosProveedores();
    IdsUnicosInspecciones();
  }

  lemma IdsUnicosEmpleados()
    ensures IdsUnicos(EmpleadosIniciales, IdEmpleado)
  {
  }

  lemma IdsUnicosClientes()
    ensures IdsUnicos(ClientesIniciales, IdCliente)
  {
  }

  lemma IdsUnicosProyectos()
    ensures IdsUnicos(ProyectosIniciales, IdProyecto)
  {
  }

  lemma IdsUnicosInventario()
    ensures IdsUnicos(InventarioInicial, IdItem)
  {
  }

  lemma IdsUnicosProveedores()
    ensures IdsUnicos(ProveedoresIniciales, IdProveedor)
  {
  }

  lemma IdsUnicosInspecciones()
    ensures IdsUnicos(InspeccionesIniciales, IdInspeccion)
  {
  }

  /** Every weak reference in the seed names a seeded record: each
      project's client and responsible employee, each inspection's
      project. */
  lemma SemillaReferenciasResuelven()
    ensures forall i :: 0 <= i < |ProyectosIniciales| ==>
              && TieneId(ClientesIniciales, IdCliente, ProyectosIniciales[i].clienteId)
              && TieneId(EmpleadosIniciales, IdEmpleado, ProyectosIniciales[i].responsableId)
    ensures forall i :: 0 <= i < |InspeccionesIniciales| ==>
              TieneId(ProyectosIniciales, IdProyecto, InspeccionesIniciales[i].proyectoId)
  {
    assert IdCliente(ClientesIniciales[0]) == "1" && IdCliente(ClientesIniciales[1]) == "2";
    assert IdEmpleado(EmpleadosIniciales[0]) == "1" && IdEmpleado(EmpleadosIniciales[1]) == "2";
    assert IdProyecto(ProyectosIniciales[0]) == "1" && IdProyecto(ProyectosIniciales[1]) == "2";
  }

  /** Seed supplier ratings are valid star counts. */
  lemma SemillaCalificaciones()
    ensures forall i :: 0 <= i < |ProveedoresIniciales| ==> 0 <= ProveedoresIniciales[i].calificacion <= 5
  {
  }

  /** The seed employees carry no document list, which the document
      operations read as an empty one. */
  lemma SemillaSinDocumentos()
    ensures forall i :: 0 <= i < |EmpleadosIniciales| ==>
              EmpleadosIniciales[i].documentos.None? && DocumentosDe(EmpleadosIniciales[i]) == []
  {
  }

  // ---------------------------------------------------------------------
  // initializeData

  /** The serialised seed collections, one per key. */
  datatype TextosSemilla = TextosSemilla(
    empleados: string,
    clientes: string,
    proyectos: string,
    inventario: string,
    proveedores: string,
    inspecciones: string)

  /** `if (!localStorage.getItem(clave)) localStorage.setItem(clave, texto)`. */
  function EscribirSiVacio(st: Almacenamiento, clave: string, texto: string): (r: Almacenamiento)
    ensures Presente(st, clave) ==> r == st
    ensures !Presente(st, clave) ==> clave in r && r[clave] == texto
    ensures forall k :: k != clave ==> (k in r <==> k in st) && (k in st ==> r[k] == st[k])
  {
    if Presente(st, clave) then st else st[clave := texto]
  }

  predicate EsClaveSemilla(k: string) {
    k == ClaveEmpleados || k == ClaveClientes || k == ClaveProyectos ||
    k == ClaveInventario || k == ClaveProveedores || k == ClaveInspecciones
  }

  /** The text seeded under a key. */
  function TextoDe(t: TextosSemilla, k: string): string
    requires EsClaveSemilla(k)
  {
    if k == ClaveEmpleados then t.empleados
    else if k == ClaveClientes then t.clientes
    else if k == ClaveProyectos then t.proyectos
    else if k == ClaveInventario then t.inventario
    else if k == ClaveProveedores then t.proveedores
    else t.inspecciones
  }

  /** The six keys in the order `initializeData` visits them. */
  const OrdenSemilla: seq<string> :=
    [ClaveEmpleados, ClaveClientes, ClaveProyectos, ClaveInventario, ClaveProveedores, ClaveInspecciones]

  /** One `EscribirSiVacio` per key of `ks`, in order, each key with its
      seed text. A present entry survives; an absent or empty one under
      a listed key ends up with its text; unlisted keys are untouched. */
  function EscribirSemillas(st: Almacenamiento, ks: seq<string>, t: TextosSemilla)
    : (r: Almacenamiento)
    requires forall i :: 0 <= i < |ks| ==> EsClaveSemilla(ks[i])
    ensures forall k :: Presente(st, k) ==> k in r && r[k] == st[k]
    ensures forall k :: k in ks && !Presente(st, k) ==> k in r && r[k] == TextoDe(t, k)
    ensures forall k :: k !in ks ==> (k in r <==> k in st) && (k in st ==> r[k] == st[k])
    decreases |ks|
  {
    if ks == [] then st
    else
      var st' := EscribirSiVacio(st, ks[0], TextoDe(t, ks[0]));
      var r := EscribirSemillas(st', ks[1..], t);
      assert forall k :: k in ks && k != ks[0] ==> k in ks[1..];
      r
  }

  /** `initializeData`: the six keys in the order the application writes
      them. An entry that holds something is never overwritten; an
      absent or empty one receives its seed text; other keys are left
      alone. */
  function InicializarDatos(st: Almacenamiento, t: TextosSemilla): (r: Almacenamiento)
    ensures forall k :: Presente(st, k) ==> k in r && r[k] == st[k]
    ensures forall k :: EsClaveSemilla(k) && !Presente(st, k) ==> k in r && r[k] == TextoDe(t, k)
    ensures forall k :: !EsClaveSemilla(k) ==> (k in r <==> k in st) && (k in st ==> r[k] == st[k])
  {
    assert forall k :: EsClaveSemilla(k) <==> k in OrdenSemilla;
    EscribirSemillas(st, OrdenSemilla, t)
  }

  /** A second call leaves storage as the first one left it. */
  lemma InicializarDatosIdempotente(st: Almacenamiento, t: TextosSemilla)
    ensures InicializarDatos(InicializarDatos(st, t), t) == InicializarDatos(st, t)
  {
    var a := InicializarDatos(st, t);
    var b := InicializarDatos(a, t);
    assert forall k :: k in b <==> k in a;
    forall k | k in a
      ensures b[k] == a[k]
    {
      if EsClaveSemilla(k) && !Presente(a, k) {
        assert !Presente(st, k);
      }
    }
  }

  /** With non-empty seed texts (a serialised array never is empty),
      every one of the six keys holds something afterwards, so a hook
      mounted later reads it instead of its initial value. */
  lemma InicializarDatosCompleto(st: Almacenamiento, t: TextosSemilla)
    requires t.empleados != "" && t.clientes != "" && t.proyectos != ""
    requires t.inventario != "" && t.proveedores != "" && t.inspecciones != ""
    ensures forall k :: EsClaveSemilla(k) ==> Presente(InicializarDatos(st, t), k)
  {
  }
}
