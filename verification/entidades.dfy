/** The record types of the hooks file and the two shapes derived from
    each: the creation data (`Omit<T, 'id'>`, called `Datos...`) and the
    partial update (`Partial<T>`, called `Parche...`, one `Option` per
    field, `None` meaning the key is absent). The merge `{ ...r, ...p }`
    is `Fusionar...`: a field present in the patch wins, an absent one
    keeps the record's value.

    Enumerated fields (`estado`, `resultado`, `tipo`, `tipoDocumento`)
    are strings, as the pages treat them. Money fields (`salario`,
    `presupuestoInicial`, `presupuestoActual`, `precioUnitario`) are
    floating point and not part of this model. */
module Entidades {
  import opened Tipos

  datatype Documento = Documento(
    id: string,
    tipo: string,
    nombre: string,
    archivo: string,     // base64 data URL, opaque here
    fechaSubida: string,
    tamano: int,         // bytes
    tipoArchivo: string) // MIME type

  /** `Omit<DocumentoEmpleado, 'id'>`. */
  datatype DatosDocumento = DatosDocumento(
    tipo: string,
    nombre: string,
    archivo: string,
    fechaSubida: string,
    tamano: int,
    tipoArchivo: string)

  function IdDocumento(d: Documento): string { d.id }

  /** `{ ...d, id }`. */
  function NuevoDocumento(d: DatosDocumento, id: string): (x: Documento)
    ensures x.id == id
    ensures DatosDocumento(x.tipo, x.nombre, x.archivo, x.fechaSubida, x.tamano, x.tipoArchivo) == d
  {
    Documento(id, d.tipo, d.nombre, d.archivo, d.fechaSubida, d.tamano, d.tipoArchivo)
  }

  // ---------------------------------------------------------------------
  // Empleado

  /** `documentos` is optional: the seed employees have no such field. */
  datatype Empleado = Empleado(
    id: string,
    nombre: string,
    apellido: string,
    documento: string,
    tipoDocumento: string,
    cargo: string,
    telefono: string,
    email: string,
    fechaIngreso: string,
    activo: bool,
    documentos: Option<seq<Documento>>)

  /** `Omit<Empleado, 'id' | 'documentos'>`. */
  datatype DatosEmpleado = DatosEmpleado(
    nombre: string,
    apellido: string,
    documento: string,
    tipoDocumento: string,
    cargo: string,
    telefono: string,
    email: string,
    fechaIngreso: string,
    activo: bool)

  datatype ParcheEmpleado = ParcheEmpleado(
    id: Option<string>,
    nombre: Option<string>,
    apellido: Option<string>,
    documento: Option<string>,
    tipoDocumento: Option<string>,
    cargo: Option<string>,
    telefono: Option<string>,
    email: Option<string>,
    fechaIngreso: Option<string>,
    activo: Option<bool>,
    documentos: Option<seq<Documento>>)

  function IdEmpleado(e: Empleado): string { e.id }

  /** The creation data a record carries. */
  function DatosDeEmpleado(e: Empleado): DatosEmpleado {
    DatosEmpleado(e.nombre, e.apellido, e.documento, e.tipoDocumento, e.cargo,
                  e.telefono, e.email, e.fechaIngreso, e.activo)
  }

  /** `{ ...d, id, documentos: [] }`. */
  function NuevoEmpleado(d: DatosEmpleado, id: string): (e: Empleado)
    ensures e.id == id && e.documentos == Some([])
    ensures DatosDeEmpleado(e) == d
  {
    Empleado(id, d.nombre, d.apellido, d.documento, d.tipoDocumento, d.cargo,
             d.telefono, d.email, d.fechaIngreso, d.activo, Some([]))
  }

  /** The creation data used as an update: every data field present. */
  function ParcheDeEmpleado(d: DatosEmpleado): ParcheEmpleado {
    ParcheEmpleado(None, Some(d.nombre), Some(d.apellido), Some(d.documento),
                   Some(d.tipoDocumento), Some(d.cargo), Some(d.telefono),
                   Some(d.email), Some(d.fechaIngreso), Some(d.activo), None)
  }

  const ParcheEmpleadoVacio := ParcheEmpleado(None, None, None, None, None, None, None, None, None, None, None)

  /** `{ ...e, ...p }`: every key the patch leaves out keeps the
      record's value, every key it carries overrides it. */
  function FusionarEmpleado(e: Empleado, p: ParcheEmpleado): (r: Empleado)
    ensures p == ParcheEmpleadoVacio ==> r == e
    // a key the patch leaves out keeps the record's value
    ensures
            && (p.id.None? ==> r.id == e.id)
            && (p.nombre.None? ==> r.nombre == e.nombre)
            && (p.apellido.None? ==> r.apellido == e.apellido)
            && (p.documento.None? ==> r.documento == e.documento)
            && (p.tipoDocumento.None? ==> r.tipoDocumento == e.tipoDocumento)
            && (p.cargo.None? ==> r.cargo == e.cargo)
            && (p.telefono.None? ==> r.telefono == e.telefono)
            && (p.email.None? ==> r.email == e.email)
            && (p.fechaIngreso.None? ==> r.fechaIngreso == e.fechaIngreso)
            && (p.activo.None? ==> r.activo == e.activo)
            && (p.documentos.None? ==> r.documentos == e.documentos)
    // a key the patch carries overrides it
    ensures
            && (p.id.Some? ==> r.id == p.id.value)
            && (p.nombre.Some? ==> r.nombre == p.nombre.value)
            && (p.apellido.Some? ==> r.apellido == p.apellido.value)
            && (p.documento.Some? ==> r.documento == p.documento.value)
            && (p.tipoDocumento.Some? ==> r.tipoDocumento == p.tipoDocumento.value)
            && (p.cargo.Some? ==> r.cargo == p.cargo.value)
            && (p.telefono.Some? ==> r.telefono == p.telefono.value)
            && (p.email.Some? ==> r.email == p.email.value)
            && (p.fechaIngreso.Some? ==> r.fechaIngreso == p.fechaIngreso.value)
            && (p.activo.Some? ==> r.activo == p.activo.value)
            && (p.documentos.Some? ==> r.documentos == p.documentos)
  {
    Empleado(p.id.GetOr(e.id), p.nombre.GetOr(e.nombre), p.apellido.GetOr(e.apellido),
             p.documento.GetOr(e.documento), p.tipoDocumento.GetOr(e.tipoDocumento),
             p.cargo.GetOr(e.cargo), p.telefono.GetOr(e.telefono), p.email.GetOr(e.email),
             p.fechaIngreso.GetOr(e.fechaIngreso), p.activo.GetOr(e.activo),
             if p.documentos.Some? then p.documentos else e.documentos)
  }

  /** Merging the same patch a second time changes nothing more. */
  lemma FusionarEmpleadoIdempotente(e: Empleado, p: ParcheEmpleado)
    ensures FusionarEmpleado(FusionarEmpleado(e, p), p) == FusionarEmpleado(e, p)
  {
  }

  /** Updating with creation data replaces every data field and keeps the
      identifier and the document list. */
  lemma FusionarEmpleadoConDatos(e: Empleado, d: DatosEmpleado)
    ensures FusionarEmpleado(e, ParcheDeEmpleado(d)) == NuevoEmpleado(d, e.id).(documentos := e.documentos)
  {
  }

  // ---------------------------------------------------------------------
  // Proyecto

  datatype Proyecto = Proyecto(
    id: string,
    nombre: string,
    descripcion: string,
    clienteId: string,       // weak reference to a Cliente
    direccion: string,
    ciudad: string,
    estado: string,
    fechaInicio: string,
    fechaFinEstimada: string,
    porcentajeAvance: int,
    responsableId: string,   // weak reference to an Empleado
    activo: bool)

  datatype DatosProyecto = DatosProyecto(
    nombre: string,
    descripcion: string,
    clienteId: string,
    direccion: string,
    ciudad: string,
    estado: string,
    fechaInicio: string,
    fechaFinEstimada: string,
    porcentajeAvance: int,
    responsableId: string,
    activo: bool)

  datatype ParcheProyecto = ParcheProyecto(
    id: Option<string>,
    nombre: Option<string>,
    descripcion: Option<string>,
    clienteId: Option<string>,
    direccion: Option<string>,
    ciudad: Option<string>,
    estado: Option<string>,
    fechaInicio: Option<string>,
    fechaFinEstimada: Option<string>,
    porcentajeAvance: Option<int>,
    responsableId: Option<string>,
    activo: Option<bool>)

  function IdProyecto(p: Proyecto): string { p.id }

  function DatosDeProyecto(p: Proyecto): DatosProyecto {
    DatosProyecto(p.nombre, p.descripcion, p.clienteId, p.direccion, p.ciudad, p.estado,
                  p.fechaInicio, p.fechaFinEstimada, p.porcentajeAvance, p.responsableId, p.activo)
  }

  /** `{ ...d, id }`. */
  function NuevoProyecto(d: DatosProyecto, id: string): (p: Proyecto)
    ensures p.id == id && DatosDeProyecto(p) == d
  {
    Proyecto(id, d.nombre, d.descripcion, d.clienteId, d.direccion, d.ciudad, d.estado,
             d.fechaInicio, d.fechaFinEstimada, d.porcentajeAvance, d.responsableId, d.activo)
  }

  function ParcheDeProyecto(d: DatosProyecto): ParcheProyecto {
    ParcheProyecto(None, Some(d.nombre), Some(d.descripcion), Some(d.clienteId), Some(d.direccion),
                   Some(d.ciudad), Some(d.estado), Some(d.fechaInicio), Some(d.fechaFinEstimada),
                   Some(d.porcentajeAvance), Some(d.responsableId), Some(d.activo))
  }

  const ParcheProyectoVacio := ParcheProyecto(None, None, None, None, None, None, None, None, None, None, None, None)

  function FusionarProyecto(x: Proyecto, p: ParcheProyecto): (r: Proyecto)
    ensures p == ParcheProyectoVacio ==> r == x
    // a key the patch leaves out keeps the record's value
    ensures
            && (p.id.None? ==> r.id == x.id)
            && (p.nombre.None? ==> r.nombre == x.nombre)
            && (p.descripcion.None? ==> r.descripcion == x.descripcion)
            && (p.clienteId.None? ==> r.clienteId == x.clienteId)
            && (p.direccion.None? ==> r.direccion == x.direccion)
            && (p.ciudad.None? ==> r.ciudad == x.ciudad)
            && (p.estado.None? ==> r.estado == x.estado)
            && (p.fechaInicio.None? ==> r.fechaInicio == x.fechaInicio)
            && (p.fechaFinEstimada.None? ==> r.fechaFinEstimada == x.fechaFinEstimada)
            && (p.porcentajeAvance.None? ==> r.porcentajeAvance == x.porcentajeAvance)
            && (p.responsableId.None? ==> r.responsableId == x.responsableId)
            && (p.activo.None? ==> r.activo == x.activo)
    // a key the patch carries overrides it
    ensures
            && (p.id.Some? ==> r.id == p.id.value)
            && (p.nombre.Some? ==> r.nombre == p.nombre.value)
            && (p.descripcion.Some? ==> r.descripcion == p.descripcion.value)
            && (p.clienteId.Some? ==> r.clienteId == p.clienteId.value)
            && (p.direccion.Some? ==> r.direccion == p.direccion.value)
            && (p.ciudad.Some? ==> r.ciudad == p.ciudad.value)
            && (p.estado.Some? ==> r.estado == p.estado.value)
            && (p.fechaInicio.Some? ==> r.fechaInicio == p.fechaInicio.value)
            && (p.fechaFinEstimada.Some? ==> r.fechaFinEstimada == p.fechaFinEstimada.value)
            && (p.porcentajeAvance.Some? ==> r.porcentajeAvance == p.porcentajeAvance.value)
            && (p.responsableId.Some? ==> r.responsableId == p.responsableId.value)
            && (p.activo.Some? ==> r.activo == p.activo.value)
  {
    Proyecto(p.id.GetOr(x.id), p.nombre.GetOr(x.nombre), p.descripcion.GetOr(x.descripcion),
             p.clienteId.GetOr(x.clienteId), p.direccion.GetOr(x.direccion), p.ciudad.GetOr(x.ciudad),
             p.estado.GetOr(x.estado), p.fechaInicio.GetOr(x.fechaInicio),
             p.fechaFinEstimada.GetOr(x.fechaFinEstimada), p.porcentajeAvance.GetOr(x.porcentajeAvance),
             p.responsableId.GetOr(x.responsableId), p.activo.GetOr(x.activo))
  }

  /** Merging the same patch a second time changes nothing more. */
  lemma FusionarProyectoIdempotente(x: Proyecto, p: ParcheProyecto)
    ensures FusionarProyecto(FusionarProyecto(x, p), p) == FusionarProyecto(x, p)
  {
  }

  lemma FusionarProyectoConDatos(x: Proyecto, d: DatosProyecto)
    ensures FusionarProyecto(x, ParcheDeProyecto(d)) == NuevoProyecto(d, x.id)
  {
  }

  // ---------------------------------------------------------------------
  // ItemInventario

  datatype Item = Item(
    id: string,
    codigo: string,
    nombre: string,
    descripcion: string,
    categoria: string,
    stockActual: int,
    stockMinimo: int,
    unidad: string,
    ubicacion: string,
    activo: bool)

  datatype DatosItem = DatosItem(
    codigo: string,
    nombre: string,
    descripcion: string,
    categoria: string,
    stockActual: int,
    stockMinimo: int,
    unidad: string,
    ubicacion: string,
    activo: bool)

  datatype ParcheItem = ParcheItem(
    id: Option<string>,
    codigo: Option<string>,
    nombre: Option<string>,
    descripcion: Option<string>,
    categoria: Option<string>,
    stockActual: Option<int>,
    stockMinimo: Option<int>,
    unidad: Option<string>,
    ubicacion: Option<string>,
    activo: Option<bool>)

  function IdItem(x: Item): string { x.id }

  function DatosDeItem(x: Item): DatosItem {
    DatosItem(x.codigo, x.nombre, x.descripcion, x.categoria, x.stockActual, x.stockMinimo,
              x.unidad, x.ubicacion, x.activo)
  }

  function NuevoItem(d: DatosItem, id: string): (x: Item)
    ensures x.id == id && DatosDeItem(x) == d
  {
    Item(id, d.codigo, d.nombre, d.descripcion, d.categoria, d.stockActual, d.stockMinimo,
         d.unidad, d.ubicacion, d.activo)
  }

  function ParcheDeItem(d: DatosItem): ParcheItem {
    ParcheItem(None, Some(d.codigo), Some(d.nombre), Some(d.descripcion), Some(d.categoria),
               Some(d.stockActual), Some(d.stockMinimo), Some(d.unidad), Some(d.ubicacion),
               Some(d.activo))
  }

  const ParcheItemVacio := ParcheItem(None, None, None, None, None, None, None, None, None, None)

  function FusionarItem(x: Item, p: ParcheItem): (r: Item)
    ensures p == ParcheItemVacio ==> r == x
    // a key the patch leaves out keeps the record's value
    ensures
            && (p.id.None? ==> r.id == x.id)
            && (p.codigo.None? ==> r.codigo == x.codigo)
            && (p.nombre.None? ==> r.nombre == x.nombre)
            && (p.descripcion.None? ==> r.descripcion == x.descripcion)
            && (p.categoria.None? ==> r.categoria == x.categoria)
            && (p.stockActual.None? ==> r.stockActual == x.stockActual)
            && (p.stockMinimo.None? ==> r.stockMinimo == x.stockMinimo)
            && (p.unidad.None? ==> r.unidad == x.unidad)
            && (p.ubicacion.None? ==> r.ubicacion == x.ubicacion)
            && (p.activo.None? ==> r.activo == x.activo)
    // a key the patch carries overrides it
    ensures
            && (p.id.Some? ==> r.id == p.id.value)
            && (p.codigo.Some? ==> r.codigo == p.codigo.value)
            && (p.nombre.Some? ==> r.nombre == p.nombre.value)
            && (p.descripcion.Some? ==> r.descripcion == p.descripcion.value)
            && (p.categoria.Some? ==> r.categoria == p.categoria.value)
            && (p.stockActual.Some? ==> r.stockActual == p.stockActual.value)
            && (p.stockMinimo.Some? ==> r.stockMinimo == p.stockMinimo.value)
            && (p.unidad.Some? ==> r.unidad == p.unidad.value)
            && (p.ubicacion.Some? ==> r.ubicacion == p.ubicacion.value)
            && (p.activo.Some? ==> r.activo == p.activo.value)
  {
    Item(p.id.GetOr(x.id), p.codigo.GetOr(x.codigo), p.nombre.GetOr(x.nombre),
         p.descripcion.GetOr(x.descripcion), p.categoria.GetOr(x.categoria),
         p.stockActual.GetOr(x.stockActual), p.stockMinimo.GetOr(x.stockMinimo),
         p.unidad.GetOr(x.unidad), p.ubicacion.GetOr(x.ubicacion), p.activo.GetOr(x.activo))
  }

  /** Merging the same patch a second time changes nothing more. */
  lemma FusionarItemIdempotente(x: Item, p: ParcheItem)
    ensures FusionarItem(FusionarItem(x, p), p) == FusionarItem(x, p)
  {
  }

  lemma FusionarItemConDatos(x: Item, d: DatosItem)
    ensures FusionarItem(x, ParcheDeItem(d)) == NuevoItem(d, x.id)
  {
  }

  // ---------------------------------------------------------------------
  // Cliente

  /** `activo` is optional: a client created from the blank form has none. */
  datatype Cliente = Cliente(
    id: string,
    nombre: string,
    tipoDocumento: string,
    numeroDocumento: string,
    telefono: string,
    email: string,
    direccion: string,
    ciudad: string,
    departamento: string,
    contactoPrincipal: string,
    activo: Option<bool>)

  datatype DatosCliente = DatosCliente(
    nombre: string,
    tipoDocumento: string,
    numeroDocumento: string,
    telefono: string,
    email: string,
    direccion: string,
    ciudad: string,
    departamento: string,
    contactoPrincipal: string,
    activo: Option<bool>)

  datatype ParcheCliente = ParcheCliente(
    id: Option<string>,
    nombre: Option<string>,
    tipoDocumento: Option<string>,
    numeroDocumento: Option<string>,
    telefono: Option<string>,
    email: Option<string>,
    direccion: Option<string>,
    ciudad: Option<string>,
    departamento: Option<string>,
    contactoPrincipal: Option<string>,
    activo: Option<bool>)

  function IdCliente(c: Cliente): string { c.id }

  function DatosDeCliente(c: Cliente): DatosCliente {
    DatosCliente(c.nombre, c.tipoDocumento, c.numeroDocumento, c.telefono, c.email, c.direccion,
                 c.ciudad, c.departamento, c.contactoPrincipal, c.activo)
  }

  function NuevoCliente(d: DatosCliente, id: string): (c: Cliente)
    ensures c.id == id && DatosDeCliente(c) == d
  {
    Cliente(id, d.nombre, d.tipoDocumento, d.numeroDocumento, d.telefono, d.email, d.direccion,
            d.ciudad, d.departamento, d.contactoPrincipal, d.activo)
  }

  const ParcheClienteVacio := ParcheCliente(None, None, None, None, None, None, None, None, None, None, None)

  function FusionarCliente(c: Cliente, p: ParcheCliente): (r: Cliente)
    ensures p == ParcheClienteVacio ==> r == c
    // a key the patch leaves out keeps the record's value
    ensures
            && (p.id.None? ==> r.id == c.id)
            && (p.nombre.None? ==> r.nombre == c.nombre)
            && (p.tipoDocumento.None? ==> r.tipoDocumento == c.tipoDocumento)
            && (p.numeroDocumento.None? ==> r.numeroDocumento == c.numeroDocumento)
            && (p.telefono.None? ==> r.telefono == c.telefono)
            && (p.email.None? ==> r.email == c.email)
            && (p.direccion.None? ==> r.direccion == c.direccion)
            && (p.ciudad.None? ==> r.ciudad == c.ciudad)
            && (p.departamento.None? ==> r.departamento == c.departamento)
            && (p.contactoPrincipal.None? ==> r.contactoPrincipal == c.contactoPrincipal)
            && (p.activo.None? ==> r.activo == c.activo)
    // a key the patch carries overrides it
    ensures
            && (p.id.Some? ==> r.id == p.id.value)
            && (p.nombre.Some? ==> r.nombre == p.nombre.value)
            && (p.tipoDocumento.Some? ==> r.tipoDocumento == p.tipoDocumento.value)
            && (p.numeroDocumento.Some? ==> r.numeroDocumento == p.numeroDocumento.value)
            && (p.telefono.Some? ==> r.telefono == p.telefono.value)
            && (p.email.Some? ==> r.email == p.email.value)
            && (p.direccion.Some? ==> r.direccion == p.direccion.value)
            && (p.ciudad.Some? ==> r.ciudad == p.ciudad.value)
            && (p.departamento.Some? ==> r.departamento == p.departamento.value)
            && (p.contactoPrincipal.Some? ==> r.contactoPrincipal == p.contactoPrincipal.value)
            && (p.activo.Some? ==> r.activo == p.activo)
  {
    Cliente(p.id.GetOr(c.id), p.nombre.GetOr(c.nombre), p.tipoDocumento.GetOr(c.tipoDocumento),
            p.numeroDocumento.GetOr(c.numeroDocumento), p.telefono.GetOr(c.telefono),
            p.email.GetOr(c.email), p.direccion.GetOr(c.direccion), p.ciudad.GetOr(c.ciudad),
            p.departamento.GetOr(c.departamento), p.contactoPrincipal.GetOr(c.contactoPrincipal),
            if p.activo.Some? then p.activo else c.activo)
  }

  /** Merging the same patch a second time changes nothing more. */
  lemma FusionarClienteIdempotente(c: Cliente, p: ParcheCliente)
    ensures FusionarCliente(FusionarCliente(c, p), p) == FusionarCliente(c, p)
  {
  }

  // ---------------------------------------------------------------------
  // Proveedor

  datatype Proveedor = Proveedor(
    id: string,
    nombre: string,
    nit: string,
    tipo: string,
    telefono: string,
    email: string,
    direccion: string,
    ciudad: string,
    calificacion: int,
    contactoPrincipal: string,
    activo: Option<bool>)

  datatype DatosProveedor = DatosProveedor(
    nombre: string,
    nit: string,
    tipo: string,
    telefono: string,
    email: string,
    direccion: string,
    ciudad: string,
    calificacion: int,
    contactoPrincipal: string,
    activo: Option<bool>)

  datatype ParcheProveedor = ParcheProveedor(
    id: Option<string>,
    nombre: Option<string>,
    nit: Option<string>,
    tipo: Option<string>,
    telefono: Option<string>,
    email: Option<string>,
    direccion: Option<string>,
    ciudad: Option<string>,
    calificacion: Option<int>,
    contactoPrincipal: Option<string>,
    activo: Option<bool>)

  function IdProveedor(p: Proveedor): string { p.id }

  function DatosDeProveedor(p: Proveedor): DatosProveedor {
    DatosProveedor(p.nombre, p.nit, p.tipo, p.telefono, p.email, p.direccion, p.ciudad,
                   p.calificacion, p.contactoPrincipal, p.activo)
  }

  function NuevoProveedor(d: DatosProveedor, id: string): (p: Proveedor)
    ensures p.id == id && DatosDeProveedor(p) == d
  {
    Proveedor(id, d.nombre, d.nit, d.tipo, d.telefono, d.email, d.direccion, d.ciudad,
              d.calificacion, d.contactoPrincipal, d.activo)
  }

  const ParcheProveedorVacio := ParcheProveedor(None, None, None, None, None, None, None, None, None, None, None)

  function FusionarProveedor(x: Proveedor, p: ParcheProveedor): (r: Proveedor)
    ensures p == ParcheProveedorVacio ==> r == x
    // a key the patch leaves out keeps the record's value
    ensures
            && (p.id.None? ==> r.id == x.id)
            && (p.nombre.None? ==> r.nombre == x.nombre)
            && (p.nit.None? ==> r.nit == x.nit)
            && (p.tipo.None? ==> r.tipo == x.tipo)
            && (p.telefono.None? ==> r.telefono == x.telefono)
            && (p.email.None? ==> r.email == x.email)
            && (p.direccion.None? ==> r.direccion == x.direccion)
            && (p.ciudad.None? ==> r.ciudad == x.ciudad)
            && (p.calificacion.None? ==> r.calificacion == x.calificacion)
            && (p.contactoPrincipal.None? ==> r.contactoPrincipal == x.contactoPrincipal)
            && (p.activo.None? ==> r.activo == x.activo)
    // a key the patch carries overrides it
    ensures
            && (p.id.Some? ==> r.id == p.id.value)
            && (p.nombre.Some? ==> r.nombre == p.nombre.value)
            && (p.nit.Some? ==> r.nit == p.nit.value)
            && (p.tipo.Some? ==> r.tipo == p.tipo.value)
            && (p.telefono.Some? ==> r.telefono == p.telefono.value)
            && (p.email.Some? ==> r.email == p.email.value)
            && (p.direccion.Some? ==> r.direccion == p.direccion.value)
            && (p.ciudad.Some? ==> r.ciudad == p.ciudad.value)
            && (p.calificacion.Some? ==> r.calificacion == p.calificacion.value)
            && (p.contactoPrincipal.Some? ==> r.contactoPrincipal == p.contactoPrincipal.value)
            && (p.activo.Some? ==> r.activo == p.activo)
  {
    Proveedor(p.id.GetOr(x.id), p.nombre.GetOr(x.nombre), p.nit.GetOr(x.nit), p.tipo.GetOr(x.tipo),
              p.telefono.GetOr(x.telefono), p.email.GetOr(x.email), p.direccion.GetOr(x.direccion),
              p.ciudad.GetOr(x.ciudad), p.calificacion.GetOr(x.calificacion),
              p.contactoPrincipal.GetOr(x.contactoPrincipal),
              if p.activo.Some? then p.activo else x.activo)
  }

  /** Merging the same patch a second time changes nothing more. */
  lemma FusionarProveedorIdempotente(x: Proveedor, p: ParcheProveedor)
    ensures FusionarProveedor(FusionarProveedor(x, p), p) == FusionarProveedor(x, p)
  {
  }

  // ---------------------------------------------------------------------
  // InspeccionCalidad (no `activo` field)

  datatype Inspeccion = Inspeccion(
    id: string,
    proyectoId: string,      // weak reference to a Proyecto
    tipo: string,
    fecha: string,
    inspector: string,
    descripcion: string,
    resultado: string,
    observaciones: string,
    fechaSeguimiento: Option<string>)

  datatype DatosInspeccion = DatosInspeccion(
    proyectoId: string,
    tipo: string,
    fecha: string,
    inspector: string,
    descripcion: string,
    resultado: string,
    observaciones: string,
    fechaSeguimiento: Option<string>)

  datatype ParcheInspeccion = ParcheInspeccion(
    id: Option<string>,
    proyectoId: Option<string>,
    tipo: Option<string>,
    fecha: Option<string>,
    inspector: Option<string>,
    descripcion: Option<string>,
    resultado: Option<string>,
    observaciones: Option<string>,
    fechaSeguimiento: Option<string>)

  function IdInspeccion(x: Inspeccion): string { x.id }

  function DatosDeInspeccion(x: Inspeccion): DatosInspeccion {
    DatosInspeccion(x.proyectoId, x.tipo, x.fecha, x.inspector, x.descripcion, x.resultado,
                    x.observaciones, x.fechaSeguimiento)
  }

  function NuevaInspeccion(d: DatosInspeccion, id: string): (x: Inspeccion)
    ensures x.id == id && DatosDeInspeccion(x) == d
  {
    Inspeccion(id, d.proyectoId, d.tipo, d.fecha, d.inspector, d.descripcion, d.resultado,
               d.observaciones, d.fechaSeguimiento)
  }

  /** A present `fechaSeguimiento` in the data is a present key in the
      patch; an absent one is an absent key. */
  function ParcheDeInspeccion(d: DatosInspeccion): ParcheInspeccion {
    ParcheInspeccion(None, Some(d.proyectoId), Some(d.tipo), Some(d.fecha), Some(d.inspector),
                     Some(d.descripcion), Some(d.resultado), Some(d.observaciones),
                     d.fechaSeguimiento)
  }

  const ParcheInspeccionVacio := ParcheInspeccion(None, None, None, None, None, None, None, None, None)

  function FusionarInspeccion(x: Inspeccion, p: ParcheInspeccion): (r: Inspeccion)
    ensures p == ParcheInspeccionVacio ==> r == x
    // a key the patch leaves out keeps the record's value
    ensures
            && (p.id.None? ==> r.id == x.id)
            && (p.proyectoId.None? ==> r.proyectoId == x.proyectoId)
            && (p.tipo.None? ==> r.tipo == x.tipo)
            && (p.fecha.None? ==> r.fecha == x.fecha)
            && (p.inspector.None? ==> r.inspector == x.inspector)
            && (p.descripcion.None? ==> r.descripcion == x.descripcion)
            && (p.resultado.None? ==> r.resultado == x.resultado)
            && (p.observaciones.None? ==> r.observaciones == x.observaciones)
            && (p.fechaSeguimiento.None? ==> r.fechaSeguimiento == x.fechaSeguimiento)
    // a key the patch carries overrides it
    ensures
            && (p.id.Some? ==> r.id == p.id.value)
            && (p.proyectoId.Some? ==> r.proyectoId == p.proyectoId.value)
            && (p.tipo.Some? ==> r.tipo == p.tipo.value)
            && (p.fecha.Some? ==> r.fecha == p.fecha.value)
            && (p.inspector.Some? ==> r.inspector == p.inspector.value)
            && (p.descripcion.Some? ==> r.descripcion == p.descripcion.value)
            && (p.resultado.Some? ==> r.resultado == p.resultado.value)
            && (p.observaciones.Some? ==> r.observaciones == p.observaciones.value)
            && (p.fechaSeguimiento.Some? ==> r.fechaSeguimiento == p.fechaSeguimiento)
  {
    Inspeccion(p.id.GetOr(x.id), p.proyectoId.GetOr(x.proyectoId), p.tipo.GetOr(x.tipo),
               p.fecha.GetOr(x.fecha), p.inspector.GetOr(x.inspector),
               p.descripcion.GetOr(x.descripcion), p.resultado.GetOr(x.resultado),
               p.observaciones.GetOr(x.observaciones),
               if p.fechaSeguimiento.Some? then p.fechaSeguimiento else x.fechaSeguimiento)
  }

  /** Merging the same patch a second time changes nothing more. */
  lemma FusionarInspeccionIdempotente(x: Inspeccion, p: ParcheInspeccion)
    ensures FusionarInspeccion(FusionarInspeccion(x, p), p) == FusionarInspeccion(x, p)
  {
  }

  /** Updating with creation data that carries a `fechaSeguimiento`
      replaces every data field and keeps the identifier. */
  lemma FusionarInspeccionConDatos(x: Inspeccion, d: DatosInspeccion)
    requires d.fechaSeguimiento.Some?
    ensures FusionarInspeccion(x, ParcheDeInspeccion(d)) == NuevaInspeccion(d, x.id)
  {
  }
}
