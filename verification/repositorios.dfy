/** The six entity hooks built on the storage hook (`useEmpleados`,
    `useProyectos`, `useInventario`, `useClientes`, `useProveedores`,
    `useControlCalidad`). Each operation is the updater it hands to the
    storage hook's setter: a function from the current collection to the
    next one. Identifiers come from the clock in the application and are
    a parameter here; nothing checks that they are fresh. */
module Repositorios {
  import opened Tipos
  import opened Coleccion
  import opened Entidades

  /** The storage keys the hooks are bound to. */
  const ClaveEmpleados := "empleados"
  const ClaveProyectos := "proyectos"
  const ClaveInventario := "inventario"
  const ClaveClientes := "clientes"
  const ClaveProveedores := "proveedores"
  const ClaveInspecciones := "inspecciones"

  // ---------------------------------------------------------------------
  // Empleados

  /** `agregarEmpleado`: one new record at the end, with the given id and
      an empty document list. */
  function AgregarEmpleado(es: seq<Empleado>, d: DatosEmpleado, id: string): (r: seq<Empleado>)
    ensures |r| == |es| + 1 && r[..|es|] == es
    ensures r[|es|].id == id && DatosDeEmpleado(r[|es|]) == d && r[|es|].documentos == Some([])
    ensures IdsUnicos(r, IdEmpleado) <==> IdsUnicos(es, IdEmpleado) && !TieneId(es, IdEmpleado, id)
  {
    AgregarIdsUnicos(es, IdEmpleado, NuevoEmpleado(d, id));
    es + [NuevoEmpleado(d, id)]
  }

  /** `actualizarEmpleado`: the records with that id merged with the
      patch, the others untouched; an unknown id changes nothing. */
  function ActualizarEmpleado(es: seq<Empleado>, id: string, p: ParcheEmpleado): (r: seq<Empleado>)
    ensures |r| == |es|
    ensures forall i :: 0 <= i < |es| && es[i].id != id ==> r[i] == es[i]
    ensures forall i :: 0 <= i < |es| && es[i].id == id ==> r[i] == FusionarEmpleado(es[i], p)
    ensures !TieneId(es, IdEmpleado, id) ==> r == es
  {
    ActualizarPorId(es, IdEmpleado, id, (e: Empleado) => FusionarEmpleado(e, p))
  }

  /** A patch without an `id` keeps every identifier, hence keeps them
      unique exactly when they were. */
  lemma ActualizarEmpleadoConservaIds(es: seq<Empleado>, id: string, p: ParcheEmpleado)
    requires p.id.None?
    ensures IdsUnicos(ActualizarEmpleado(es, id, p), IdEmpleado) <==> IdsUnicos(es, IdEmpleado)
  {
    ActualizarPorIdConservaIds(es, IdEmpleado, id, (e: Empleado) => FusionarEmpleado(e, p));
  }

  function DesactivarEmpleado(e: Empleado): Empleado {
    e.(activo := false)
  }

  /** `eliminarEmpleado`: a soft delete; the matching records become
      inactive and keep every other field. */
  function EliminarEmpleado(es: seq<Empleado>, id: string): (r: seq<Empleado>)
    ensures |r| == |es|
    ensures forall i :: 0 <= i < |es| && es[i].id != id ==> r[i] == es[i]
    ensures forall i :: 0 <= i < |es| && es[i].id == id ==> r[i] == es[i].(activo := false)
  {
    ActualizarPorId(es, IdEmpleado, id, DesactivarEmpleado)
  }

  /** Deleting twice is deleting once. */
  lemma EliminarEmpleadoIdempotente(es: seq<Empleado>, id: string)
    ensures EliminarEmpleado(EliminarEmpleado(es, id), id) == EliminarEmpleado(es, id)
  {
    ActualizarPorIdIdempotente(es, IdEmpleado, id, DesactivarEmpleado);
  }

  /** The soft delete is the update with the patch `{ activo: false }`. */
  lemma EliminarEmpleadoEsActualizar(es: seq<Empleado>, id: string)
    ensures EliminarEmpleado(es, id) == ActualizarEmpleado(es, id, ParcheEmpleadoVacio.(activo := Some(false)))
  {
    var a := EliminarEmpleado(es, id);
    var b := ActualizarEmpleado(es, id, ParcheEmpleadoVacio.(activo := Some(false)));
    assert forall i :: 0 <= i < |es| ==> a[i] == b[i];
  }

  /** An employee's documents; a record without the field has none. */
  function DocumentosDe(e: Empleado): seq<Documento> {
    e.documentos.GetOr([])
  }

  function ConDocumento(e: Empleado, doc: Documento): Empleado {
    e.(documentos := Some(DocumentosDe(e) + [doc]))
  }

  function SinDocumento(e: Empleado, docId: string): Empleado {
    e.(documentos := Some(QuitarPorId(DocumentosDe(e), IdDocumento, docId)))
  }

  /** `agregarDocumento`: the document, with the given id, at the end of
      each matching employee's list (a missing list counts as empty);
      other employees untouched; an unknown employee changes nothing. */
  function AgregarDocumento(es: seq<Empleado>, empleadoId: string, d: DatosDocumento, docId: string): (r: seq<Empleado>)
    ensures |r| == |es|
    ensures forall i :: 0 <= i < |es| && es[i].id != empleadoId ==> r[i] == es[i]
    ensures forall i :: 0 <= i < |es| && es[i].id == empleadoId ==>
              && r[i].documentos.Some?
              && r[i].documentos.value == DocumentosDe(es[i]) + [NuevoDocumento(d, docId)]
              && r[i] == es[i].(documentos := r[i].documentos)
    ensures !TieneId(es, IdEmpleado, empleadoId) ==> r == es
  {
    ActualizarPorId(es, IdEmpleado, empleadoId, (e: Empleado) => ConDocumento(e, NuevoDocumento(d, docId)))
  }

  /** `eliminarDocumento`: each matching employee loses every document
      with that id, the rest keep their order; other employees untouched. */
  function EliminarDocumento(es: seq<Empleado>, empleadoId: string, docId: string): (r: seq<Empleado>)
    ensures |r| == |es|
    ensures forall i :: 0 <= i < |es| && es[i].id != empleadoId ==> r[i] == es[i]
    ensures forall i :: 0 <= i < |es| && es[i].id == empleadoId ==>
              && r[i].documentos.Some?
              && EsSubsecuencia(r[i].documentos.value, DocumentosDe(es[i]))
              && !TieneId(r[i].documentos.value, IdDocumento, docId)
              && (forall j :: 0 <= j < |DocumentosDe(es[i])| && DocumentosDe(es[i])[j].id != docId ==>
                    DocumentosDe(es[i])[j] in r[i].documentos.value)
              && (forall j :: 0 <= j < |DocumentosDe(es[i])| ==>
                    multiset(r[i].documentos.value)[DocumentosDe(es[i])[j]]
                    == if DocumentosDe(es[i])[j].id != docId then multiset(DocumentosDe(es[i]))[DocumentosDe(es[i])[j]] else 0)
              && r[i] == es[i].(documentos := r[i].documentos)
  {
    ActualizarPorId(es, IdEmpleado, empleadoId, (e: Empleado) => SinDocumento(e, docId))
  }

  /** Removing the same document twice is removing it once. */
  lemma EliminarDocumentoIdempotente(es: seq<Empleado>, empleadoId: string, docId: string)
    ensures EliminarDocumento(EliminarDocumento(es, empleadoId, docId), empleadoId, docId)
            == EliminarDocumento(es, empleadoId, docId)
  {
    var a := EliminarDocumento(es, empleadoId, docId);
    var b := EliminarDocumento(a, empleadoId, docId);
    forall i | 0 <= i < |es|
      ensures b[i] == a[i]
    {
      if es[i].id == empleadoId {
        var ds := a[i].documentos.value;
        assert DocumentosDe(a[i]) == ds;
        assert QuitarPorId(ds, IdDocumento, docId) == ds;
      }
    }
  }

  /** Adding a document whose id the employee does not have yet and then
      removing it gives back the employee's list (made explicit when it
      was missing); nothing else changes. */
  lemma {:induction false} AgregarEliminarDocumento(es: seq<Empleado>, empleadoId: string,
                                                    d: DatosDocumento, docId: string)
    requires forall i :: 0 <= i < |es| && es[i].id == empleadoId ==>
               !TieneId(DocumentosDe(es[i]), IdDocumento, docId)
    ensures var r := EliminarDocumento(AgregarDocumento(es, empleadoId, d, docId), empleadoId, docId);
            && |r| == |es|
            && forall i :: 0 <= i < |es| ==>
                 r[i] == if es[i].id == empleadoId then es[i].(documentos := Some(DocumentosDe(es[i])))
                         else es[i]
  {
    var a := AgregarDocumento(es, empleadoId, d, docId);
    var r := EliminarDocumento(a, empleadoId, docId);
    forall i | 0 <= i < |es| && es[i].id == empleadoId
      ensures r[i] == es[i].(documentos := Some(DocumentosDe(es[i])))
    {
      var doc := NuevoDocumento(d, docId);
      QuitarPorIdAgregado(DocumentosDe(es[i]), IdDocumento, doc);
      assert DocumentosDe(a[i]) == DocumentosDe(es[i]) + [doc];
    }
  }

  // ---------------------------------------------------------------------
  // Proyectos

  /** `agregarProyecto`. */
  function AgregarProyecto(ps: seq<Proyecto>, d: DatosProyecto, id: string): (r: seq<Proyecto>)
    ensures |r| == |ps| + 1 && r[..|ps|] == ps
    ensures r[|ps|].id == id && DatosDeProyecto(r[|ps|]) == d
    ensures IdsUnicos(r, IdProyecto) <==> IdsUnicos(ps, IdProyecto) && !TieneId(ps, IdProyecto, id)
  {
    AgregarIdsUnicos(ps, IdProyecto, NuevoProyecto(d, id));
    ps + [NuevoProyecto(d, id)]
  }

  /** `actualizarProyecto`. */
  function ActualizarProyecto(ps: seq<Proyecto>, id: string, p: ParcheProyecto): (r: seq<Proyecto>)
    ensures |r| == |ps|
    ensures forall i :: 0 <= i < |ps| && ps[i].id != id ==> r[i] == ps[i]
    ensures forall i :: 0 <= i < |ps| && ps[i].id == id ==> r[i] == FusionarProyecto(ps[i], p)
    ensures !TieneId(ps, IdProyecto, id) ==> r == ps
  {
    ActualizarPorId(ps, IdProyecto, id, (x: Proyecto) => FusionarProyecto(x, p))
  }

  function DesactivarProyecto(x: Proyecto): Proyecto {
    x.(activo := false)
  }

  /** `eliminarProyecto`: soft delete. */
  function EliminarProyecto(ps: seq<Proyecto>, id: string): (r: seq<Proyecto>)
    ensures |r| == |ps|
    ensures forall i :: 0 <= i < |ps| && ps[i].id != id ==> r[i] == ps[i]
    ensures forall i :: 0 <= i < |ps| && ps[i].id == id ==> r[i] == ps[i].(activo := false)
  {
    ActualizarPorId(ps, IdProyecto, id, DesactivarProyecto)
  }

  lemma EliminarProyectoIdempotente(ps: seq<Proyecto>, id: string)
    ensures EliminarProyecto(EliminarProyecto(ps, id), id) == EliminarProyecto(ps, id)
  {
    ActualizarPorIdIdempotente(ps, IdProyecto, id, DesactivarProyecto);
  }

  lemma EliminarProyectoEsActualizar(ps: seq<Proyecto>, id: string)
    ensures EliminarProyecto(ps, id) == ActualizarProyecto(ps, id, ParcheProyectoVacio.(activo := Some(false)))
  {
    var a := EliminarProyecto(ps, id);
    var b := ActualizarProyecto(ps, id, ParcheProyectoVacio.(activo := Some(false)));
    assert forall i :: 0 <= i < |ps| ==> a[i] == b[i];
  }

  // ---------------------------------------------------------------------
  // Inventario

  /** `agregarItem`. */
  function AgregarItem(xs: seq<Item>, d: DatosItem, id: string): (r: seq<Item>)
    ensures |r| == |xs| + 1 && r[..|xs|] == xs
    ensures r[|xs|].id == id && DatosDeItem(r[|xs|]) == d
    ensures IdsUnicos(r, IdItem) <==> IdsUnicos(xs, IdItem) && !TieneId(xs, IdItem, id)
  {
    AgregarIdsUnicos(xs, IdItem, NuevoItem(d, id));
    xs + [NuevoItem(d, id)]
  }

  /** `actualizarItem`. */
  function ActualizarItem(xs: seq<Item>, id: string, p: ParcheItem): (r: seq<Item>)
    ensures |r| == |xs|
    ensures forall i :: 0 <= i < |xs| && xs[i].id != id ==> r[i] == xs[i]
    ensures forall i :: 0 <= i < |xs| && xs[i].id == id ==> r[i] == FusionarItem(xs[i], p)
    ensures !TieneId(xs, IdItem, id) ==> r == xs
  {
    ActualizarPorId(xs, IdItem, id, (x: Item) => FusionarItem(x, p))
  }

  function DesactivarItem(x: Item): Item {
    x.(activo := false)
  }

  /** `eliminarItem`: soft delete. */
  function EliminarItem(xs: seq<Item>, id: string): (r: seq<Item>)
    ensures |r| == |xs|
    ensures forall i :: 0 <= i < |xs| && xs[i].id != id ==> r[i] == xs[i]
    ensures forall i :: 0 <= i < |xs| && xs[i].id == id ==> r[i] == xs[i].(activo := false)
  {
    ActualizarPorId(xs, IdItem, id, DesactivarItem)
  }

  lemma EliminarItemIdempotente(xs: seq<Item>, id: string)
    ensures EliminarItem(EliminarItem(xs, id), id) == EliminarItem(xs, id)
  {
    ActualizarPorIdIdempotente(xs, IdItem, id, DesactivarItem);
  }

  lemma EliminarItemEsActualizar(xs: seq<Item>, id: string)
    ensures EliminarItem(xs, id) == ActualizarItem(xs, id, ParcheItemVacio.(activo := Some(false)))
  {
    var a := EliminarItem(xs, id);
    var b := ActualizarItem(xs, id, ParcheItemVacio.(activo := Some(false)));
    assert forall i :: 0 <= i < |xs| ==> a[i] == b[i];
  }

  // ---------------------------------------------------------------------
  // Clientes

  /** `agregarCliente`. */
  function AgregarCliente(cs: seq<Cliente>, d: DatosCliente, id: string): (r: seq<Cliente>)
    ensures |r| == |cs| + 1 && r[..|cs|] == cs
    ensures r[|cs|].id == id && DatosDeCliente(r[|cs|]) == d
    ensures IdsUnicos(r, IdCliente) <==> IdsUnicos(cs, IdCliente) && !TieneId(cs, IdCliente, id)
  {
    AgregarIdsUnicos(cs, IdCliente, NuevoCliente(d, id));
    cs + [NuevoCliente(d, id)]
  }

  /** `actualizarCliente`. */
  function ActualizarCliente(cs: seq<Cliente>, id: string, p: ParcheCliente): (r: seq<Cliente>)
    ensures |r| == |cs|
    ensures forall i :: 0 <= i < |cs| && cs[i].id != id ==> r[i] == cs[i]
    ensures forall i :: 0 <= i < |cs| && cs[i].id == id ==> r[i] == FusionarCliente(cs[i], p)
    ensures !TieneId(cs, IdCliente, id) ==> r == cs
  {
    ActualizarPorId(cs, IdCliente, id, (x: Cliente) => FusionarCliente(x, p))
  }

  function DesactivarCliente(x: Cliente): Cliente {
    x.(activo := Some(false))
  }

  /** `eliminarCliente`: soft delete; afterwards the field is present and
      false, even on a record that had none. */
  function EliminarCliente(cs: seq<Cliente>, id: string): (r: seq<Cliente>)
    ensures |r| == |cs|
    ensures forall i :: 0 <= i < |cs| && cs[i].id != id ==> r[i] == cs[i]
    ensures forall i :: 0 <= i < |cs| && cs[i].id == id ==> r[i] == cs[i].(activo := Some(false))
  {
    ActualizarPorId(cs, IdCliente, id, DesactivarCliente)
  }

  lemma EliminarClienteIdempotente(cs: seq<Cliente>, id: string)
    ensures EliminarCliente(EliminarCliente(cs, id), id) == EliminarCliente(cs, id)
  {
    ActualizarPorIdIdempotente(cs, IdCliente, id, DesactivarCliente);
  }

  lemma EliminarClienteEsActualizar(cs: seq<Cliente>, id: string)
    ensures EliminarCliente(cs, id) == ActualizarCliente(cs, id, ParcheClienteVacio.(activo := Some(false)))
  {
    var a := EliminarCliente(cs, id);
    var b := ActualizarCliente(cs, id, ParcheClienteVacio.(activo := Some(false)));
    assert forall i :: 0 <= i < |cs| ==> a[i] == b[i];
  }

  // ---------------------------------------------------------------------
  // Proveedores

  /** `agregarProveedor`. */
  function AgregarProveedor(ps: seq<Proveedor>, d: DatosProveedor, id: string): (r: seq<Proveedor>)
    ensures |r| == |ps| + 1 && r[..|ps|] == ps
    ensures r[|ps|].id == id && DatosDeProveedor(r[|ps|]) == d
    ensures IdsUnicos(r, IdProveedor) <==> IdsUnicos(ps, IdProveedor) && !TieneId(ps, IdProveedor, id)
  {
    AgregarIdsUnicos(ps, IdProveedor, NuevoProveedor(d, id));
    ps + [NuevoProveedor(d, id)]
  }

  /** `actualizarProveedor`. */
  function ActualizarProveedor(ps: seq<Proveedor>, id: string, p: ParcheProveedor): (r: seq<Proveedor>)
    ensures |r| == |ps|
    ensures forall i :: 0 <= i < |ps| && ps[i].id != id ==> r[i] == ps[i]
    ensures forall i :: 0 <= i < |ps| && ps[i].id == id ==> r[i] == FusionarProveedor(ps[i], p)
    ensures !TieneId(ps, IdProveedor, id) ==> r == ps
  {
    ActualizarPorId(ps, IdProveedor, id, (x: Proveedor) => FusionarProveedor(x, p))
  }

  function DesactivarProveedor(x: Proveedor): Proveedor {
    x.(activo := Some(false))
  }

  /** `eliminarProveedor`: soft delete. */
  function EliminarProveedor(ps: seq<Proveedor>, id: string): (r: seq<Proveedor>)
    ensures |r| == |ps|
    ensures forall i :: 0 <= i < |ps| && ps[i].id != id ==> r[i] == ps[i]
    ensures forall i :: 0 <= i < |ps| && ps[i].id == id ==> r[i] == ps[i].(activo := Some(false))
  {
    ActualizarPorId(ps, IdProveedor, id, DesactivarProveedor)
  }

  lemma EliminarProveedorIdempotente(ps: seq<Proveedor>, id: string)
    ensures EliminarProveedor(EliminarProveedor(ps, id), id) == EliminarProveedor(ps, id)
  {
    ActualizarPorIdIdempotente(ps, IdProveedor, id, DesactivarProveedor);
  }

  lemma EliminarProveedorEsActualizar(ps: seq<Proveedor>, id: string)
    ensures EliminarProveedor(ps, id) == ActualizarProveedor(ps, id, ParcheProveedorVacio.(activo := Some(false)))
  {
    var a := EliminarProveedor(ps, id);
    var b := ActualizarProveedor(ps, id, ParcheProveedorVacio.(activo := Some(false)));
    assert forall i :: 0 <= i < |ps| ==> a[i] == b[i];
  }

  // ---------------------------------------------------------------------
  // Inspecciones

  /** `agregarInspeccion`. */
  function AgregarInspeccion(xs: seq<Inspeccion>, d: DatosInspeccion, id: string): (r: seq<Inspeccion>)
    ensures |r| == |xs| + 1 && r[..|xs|] == xs
    ensures r[|xs|].id == id && DatosDeInspeccion(r[|xs|]) == d
    ensures IdsUnicos(r, IdInspeccion) <==> IdsUnicos(xs, IdInspeccion) && !TieneId(xs, IdInspeccion, id)
  {
    AgregarIdsUnicos(xs, IdInspeccion, NuevaInspeccion(d, id));
    xs + [NuevaInspeccion(d, id)]
  }

  /** `actualizarInspeccion`. */
  function ActualizarInspeccion(xs: seq<Inspeccion>, id: string, p: ParcheInspeccion): (r: seq<Inspeccion>)
    ensures |r| == |xs|
    ensures forall i :: 0 <= i < |xs| && xs[i].id != id ==> r[i] == xs[i]
    ensures forall i :: 0 <= i < |xs| && xs[i].id == id ==> r[i] == FusionarInspeccion(xs[i], p)
    ensures !TieneId(xs, IdInspeccion, id) ==> r == xs
  {
    ActualizarPorId(xs, IdInspeccion, id, (x: Inspeccion) => FusionarInspeccion(x, p))
  }

  /** `eliminarInspeccion`: a hard delete of every record with that id;
      the rest keep their order; an unknown id changes nothing. */
  function EliminarInspeccion(xs: seq<Inspeccion>, id: string): (r: seq<Inspeccion>)
    ensures EsSubsecuencia(r, xs)
    ensures !TieneId(r, IdInspeccion, id)
    ensures forall i :: 0 <= i < |xs| && xs[i].id != id ==> xs[i] in r
    ensures forall i :: 0 <= i < |xs| ==>
              multiset(r)[xs[i]] == if xs[i].id != id then multiset(xs)[xs[i]] else 0
    ensures !TieneId(xs, IdInspeccion, id) ==> r == xs
  {
    QuitarPorId(xs, IdInspeccion, id)
  }

  /** With unique identifiers, deleting a present inspection removes
      exactly one record. */
  lemma EliminarInspeccionUnica(xs: seq<Inspeccion>, id: string)
    requires IdsUnicos(xs, IdInspeccion) && TieneId(xs, IdInspeccion, id)
    ensures |EliminarInspeccion(xs, id)| == |xs| - 1
  {
    QuitarPorIdUnico(xs, IdInspeccion, id);
  }

  /** Adding an inspection under a fresh id and deleting it again gives
      the collection back. */
  lemma AgregarEliminarInspeccion(xs: seq<Inspeccion>, d: DatosInspeccion, id: string)
    requires !TieneId(xs, IdInspeccion, id)
    ensures EliminarInspeccion(AgregarInspeccion(xs, d, id), id) == xs
  {
    QuitarPorIdAgregado(xs, IdInspeccion, NuevaInspeccion(d, id));
  }
}
