/** The human-resources page: the employee form, the document upload
    guard, the filtered list, the per-type document tabs, the position
    list and the document total. */
module RecursosHumanos {
  import opened Tipos
  import opened Texto
  import opened Coleccion
  import opened Entidades
  import opened Repositorios
  import opened Indicadores

  // ---------------------------------------------------------------------
  // Form

  /** The employee form; the document type starts as "cedula". */
  datatype FormularioEmpleado = FormularioEmpleado(
    nombre: string,
    apellido: string,
    documento: string,
    tipoDocumento: string,
    cargo: string,
    telefono: string,
    email: string,
    fechaIngreso: string)

  /** `handleSubmit`: rejected unless first name, last name, document
      number and position are all filled; the data is always active. */
  function EnviarEmpleado(f: FormularioEmpleado): (r: Result<DatosEmpleado, string>)
    ensures r.Err? <==> f.nombre == "" || f.apellido == "" || f.documento == "" || f.cargo == ""
    ensures r.Err? ==> r.error == MensajeCamposObligatorios
    ensures r.Ok? ==> r.value.activo
    ensures r.Ok? ==> r.value.nombre == f.nombre && r.value.apellido == f.apellido && r.value.documento == f.documento
    ensures r.Ok? ==> r.value.tipoDocumento == f.tipoDocumento && r.value.cargo == f.cargo && r.value.telefono == f.telefono
    ensures r.Ok? ==> r.value.email == f.email && r.value.fechaIngreso == f.fechaIngreso
  {
    if f.nombre == "" || f.apellido == "" || f.documento == "" || f.cargo == "" then
      Err(MensajeCamposObligatorios)
    else
      Ok(DatosEmpleado(f.nombre, f.apellido, f.documento, f.tipoDocumento, f.cargo, f.telefono,
                       f.email, f.fechaIngreso, true))
  }

  /** `handleEdit`: the record copied into the form, so that submitting
      it unchanged succeeds for a record with its required fields and
      gives back the record's data. */
  function FormularioDeEmpleado(e: Empleado): (f: FormularioEmpleado)
    ensures f.nombre == e.nombre && f.apellido == e.apellido && f.documento == e.documento
    ensures f.tipoDocumento == e.tipoDocumento && f.cargo == e.cargo && f.telefono == e.telefono
    ensures f.email == e.email && f.fechaIngreso == e.fechaIngreso
    ensures EnviarEmpleado(f).Ok? <==> e.nombre != "" && e.apellido != "" && e.documento != "" && e.cargo != ""
    ensures EnviarEmpleado(f).Ok? ==> EnviarEmpleado(f).value == DatosDeEmpleado(e).(activo := true)
  {
    FormularioEmpleado(e.nombre, e.apellido, e.documento, e.tipoDocumento, e.cargo, e.telefono,
                       e.email, e.fechaIngreso)
  }

  /** Opening an employee for editing and saving unchanged leaves the
      record as it was, documents included, except that it becomes
      active. */
  lemma EditarEmpleadoSinCambios(e: Empleado)
    requires e.nombre != "" && e.apellido != "" && e.documento != "" && e.cargo != ""
    ensures EnviarEmpleado(FormularioDeEmpleado(e)) == Ok(DatosDeEmpleado(e).(activo := true))
    ensures FusionarEmpleado(e, ParcheDeEmpleado(EnviarEmpleado(FormularioDeEmpleado(e)).value)) == e.(activo := true)
  {
  }

  // ---------------------------------------------------------------------
  // Upload

  /** The chosen file: name, size in bytes, MIME type. */
  datatype Archivo = Archivo(nombre: string, tamano: int, tipo: string)

  /** 5 MiB. */
  const TamanoMaximo := 5 * 1024 * 1024

  const TiposPermitidos: seq<string> := [
    "application/pdf", "image/jpeg", "image/png", "image/jpg", "application/msword",
    "application/vnd.openxmlformats-officedocument.wordprocessingml.document"
  ]

  const MensajeDemasiadoGrande := "El archivo es demasiado grande. Máximo 5MB permitido."
  const MensajeTipoNoPermitido := "Tipo de archivo no permitido. Solo PDF, imágenes y documentos Word."

  /** `handleFileUpload` for document type `tipo`: nothing happens without
      a file or a selected employee; a file over 5 MiB is rejected, then
      one whose type is not whitelisted; otherwise the document (content
      and upload time given) is added to the selected employee. */
  function SubirDocumento(es: seq<Empleado>, archivo: Option<Archivo>, seleccionado: Option<Empleado>,
                          tipo: string, contenido: string, fecha: string, docId: string)
    : (r: Result<seq<Empleado>, string>)
    ensures archivo.None? || seleccionado.None? ==> r == Ok(es)
    ensures archivo.Some? && seleccionado.Some? ==>
              (r.Err? <==> archivo.value.tamano > TamanoMaximo || archivo.value.tipo !in TiposPermitidos)
    ensures archivo.Some? && seleccionado.Some? && archivo.value.tamano > TamanoMaximo ==>
              r == Err(MensajeDemasiadoGrande)
    ensures r.Ok? && r.value != es ==>
              archivo.Some? && archivo.value.tamano <= TamanoMaximo && archivo.value.tipo in TiposPermitidos
    ensures r.Ok? && archivo.Some? && seleccionado.Some? ==>
              r.value == AgregarDocumento(es, seleccionado.value.id,
                           DatosDocumento(tipo, archivo.value.nombre, contenido, fecha,
                                          archivo.value.tamano, archivo.value.tipo), docId)
  {
    if archivo.None? || seleccionado.None? then Ok(es)
    else if archivo.value.tamano > TamanoMaximo then Err(MensajeDemasiadoGrande)
    else if archivo.value.tipo !in TiposPermitidos then Err(MensajeTipoNoPermitido)
    else
      var a := archivo.value;
      Ok(AgregarDocumento(es, seleccionado.value.id,
                          DatosDocumento(tipo, a.nombre, contenido, fecha, a.tamano, a.tipo), docId))
  }

  /** The limit is inclusive: a PDF of exactly 5 MiB is stored, one byte
      more is refused. */
  lemma LimiteDeTamano(es: seq<Empleado>, e: Empleado, tipo: string, contenido: string, fecha: string,
                       docId: string, nombre: string)
    ensures SubirDocumento(es, Some(Archivo(nombre, 5242880, "application/pdf")), Some(e),
                           tipo, contenido, fecha, docId).Ok?
    ensures SubirDocumento(es, Some(Archivo(nombre, 5242881, "application/pdf")), Some(e),
                           tipo, contenido, fecha, docId) == Err(MensajeDemasiadoGrande)
  {
    assert TiposPermitidos[0] == "application/pdf";
  }

  // ---------------------------------------------------------------------
  // Filtered list and positions

  datatype FiltroEmpleados = FiltroEmpleados(termino: string, cargo: string)

  /** Name, last name and e-mail are searched ignoring case; the document
      number is searched exactly as typed. */
  predicate CoincideEmpleado(e: Empleado, termino: string) {
    Coincide(e.nombre, termino) || Coincide(e.apellido, termino) ||
    Contiene(e.documento, termino) || Coincide(e.email, termino)
  }

  predicate CumpleFiltroEmpleado(f: FiltroEmpleados, e: Empleado) {
    CoincideEmpleado(e, f.termino) && (f.cargo == "todos" || e.cargo == f.cargo)
  }

  predicate ActivoYCumpleEmpleado(f: FiltroEmpleados, e: Empleado) {
    e.activo && CumpleFiltroEmpleado(f, e)
  }

  /** `empleadosFiltrados`: the active employees matching the term and
      the position selector, in collection order. */
  function EmpleadosFiltrados(es: seq<Empleado>, f: FiltroEmpleados): (r: seq<Empleado>)
    ensures EsSubsecuencia(r, es)
    ensures forall i :: 0 <= i < |r| ==> r[i].activo && CumpleFiltroEmpleado(f, r[i])
    ensures forall i :: 0 <= i < |es| && es[i].activo && CumpleFiltroEmpleado(f, es[i]) ==> es[i] in r
    ensures forall i :: 0 <= i < |es| ==>
              multiset(r)[es[i]] == if ActivoYCumpleEmpleado(f, es[i]) then multiset(es)[es[i]] else 0
  {
    var q := (e: Empleado) => CumpleFiltroEmpleado(f, e);
    var pq := (e: Empleado) => ActivoYCumpleEmpleado(f, e);
    FiltrarFiltrar(es, EmpleadoActivo, q, pq);
    FiltrarMultiplicidad(es, pq);
    Filtrar(Filtrar(es, EmpleadoActivo), q)
  }

  /** With an empty search and the position selector on "todos" the page
      lists every active employee, in collection order. */
  lemma {:induction false} EmpleadosSinFiltro(es: seq<Empleado>)
    ensures EmpleadosFiltrados(es, FiltroEmpleados("", "todos")) == Filtrar(es, EmpleadoActivo)
  {
    var f := FiltroEmpleados("", "todos");
    var act := Filtrar(es, EmpleadoActivo);
    forall i | 0 <= i < |act|
      ensures CumpleFiltroEmpleado(f, act[i])
    {
      TerminoVacioCoincide(act[i].nombre);
    }
    FiltrarTodos(act, (e: Empleado) => CumpleFiltroEmpleado(f, e));
  }

  /** The document number is compared with case: a lower-case term does
      not find an upper-case document number that the other fields'
      case-insensitive test would find. */
  lemma DocumentoDistingueMayusculas()
    ensures Coincide("CE1", "ce") && !Contiene("CE1", "ce")
  {
    assert Minusculas("CE1") == "ce1";
    assert Minusculas("ce") == "ce";
    assert EmpiezaCon("ce1", "ce");
    assert !EmpiezaCon("CE1", "ce");
    assert !EmpiezaCon("E1", "ce");
    assert !Contiene("1", "ce");
  }

  function CargoDe(e: Empleado): string {
    e.cargo
  }

  /** `cargosUnicos`: each position of an active employee exactly once,
      and nothing else. */
  function CargosUnicos(es: seq<Empleado>): (cs: seq<string>)
    ensures Distintos(cs)
    ensures forall i :: 0 <= i < |cs| ==> exists j :: 0 <= j < |es| && es[j].activo && es[j].cargo == cs[i]
    ensures forall j :: 0 <= j < |es| && es[j].activo ==> es[j].cargo in cs
  {
    ValoresDistintosDe(es, EmpleadoActivo, CargoDe);
    SinRepetir(Mapear(Filtrar(es, EmpleadoActivo), CargoDe))
  }

  // ---------------------------------------------------------------------
  // Documents

  /** The tabs of the document dialog, by value. */
  const TiposDocumento: seq<string> :=
    ["arl", "eps", "caja_compensacion", "pensiones", "cuenta_bancaria", "contrato", "cedula", "anexos"]

  lemma TiposDocumentoDistintos()
    ensures Distintos(TiposDocumento)
  {
    var t := TiposDocumento;
    assert forall i :: 0 <= i < |t| ==> |t[i]| == [3, 3, 17, 9, 15, 8, 6, 6][i];
    assert forall i :: 0 <= i < |t| ==> t[i][0] == ['a', 'e', 'c', 'p', 'c', 'c', 'c', 'a'][i];
  }

  function TipoDe(d: Documento): string {
    d.tipo
  }

  /** `getDocumentsByType`: the selected employee's documents of that
      type, in order; none without a selection or without a list. */
  function DocumentosPorTipo(seleccionado: Option<Empleado>, tipo: string): (ds: seq<Documento>)
    ensures seleccionado.None? ==> ds == []
    ensures seleccionado.Some? ==>
              && EsSubsecuencia(ds, DocumentosDe(seleccionado.value))
              && |ds| == ContarClave(DocumentosDe(seleccionado.value), TipoDe, tipo)
              && (forall i :: 0 <= i < |ds| ==> ds[i].tipo == tipo)
  {
    if seleccionado.None? then []
    else FiltrarClave(DocumentosDe(seleccionado.value), TipoDe, tipo)
  }

  /** When every document has one of the eight listed types, the tabs
      together show each of the employee's documents exactly once. */
  lemma {:induction false} PestanasCubrenDocumentos(e: Empleado)
    requires forall i :: 0 <= i < |DocumentosDe(e)| ==> DocumentosDe(e)[i].tipo in TiposDocumento
    ensures Suma(ConteosPorClave(DocumentosDe(e), TipoDe, TiposDocumento)) == |DocumentosDe(e)|
  {
    TiposDocumentoDistintos();
    var ds := DocumentosDe(e);
    assert forall i :: 0 <= i < |ds| ==> TipoDe(ds[i]) in TiposDocumento;
    SumaConteosPorClave(ds, TipoDe, TiposDocumento);
  }

  function NumeroDocumentos(e: Empleado): nat {
    |DocumentosDe(e)|
  }

  /** The document total over active employees; a missing list counts
      as none. It is the sum, over the active employees in order, of
      their list lengths. */
  function TotalDocumentos(es: seq<Empleado>): (n: nat)
    ensures n == Suma(Mapear(Filtrar(es, EmpleadoActivo), NumeroDocumentos))
    ensures (forall i :: 0 <= i < |es| ==> !es[i].activo || DocumentosDe(es[i]) == []) ==> n == 0
  {
    if es == [] then 0
    else
      var resto := Filtrar(es[1..], EmpleadoActivo);
      if es[0].activo then
        assert Filtrar(es, EmpleadoActivo) == [es[0]] + resto;
        var m := Mapear([es[0]] + resto, NumeroDocumentos);
        assert m[1..] == Mapear(resto, NumeroDocumentos);
        |DocumentosDe(es[0])| + TotalDocumentos(es[1..])
      else
        assert Filtrar(es, EmpleadoActivo) == resto;
        TotalDocumentos(es[1..])
  }

  predicate ActivoConId(e: Empleado, k: string) {
    e.activo && e.id == k
  }

  /** Adding a document raises the total by the number of active
      employees with that id: by one when ids are unique and the
      employee is active, by none when it is inactive or unknown. */
  lemma {:induction false} AgregarDocumentoTotal(es: seq<Empleado>, empleadoId: string, d: DatosDocumento,
                                                 docId: string)
    ensures TotalDocumentos(AgregarDocumento(es, empleadoId, d, docId))
            == TotalDocumentos(es) + |Filtrar(es, (e: Empleado) => ActivoConId(e, empleadoId))|
  {
    if es != [] {
      var r := AgregarDocumento(es, empleadoId, d, docId);
      var r' := AgregarDocumento(es[1..], empleadoId, d, docId);
      assert r[1..] == r';
      AgregarDocumentoTotal(es[1..], empleadoId, d, docId);
    }
  }
}
