# Constructora CSR — model of the record store and the management pages

This project is a Dafny model of the core of a construction company's
management dashboard. The dashboard is a TypeScript/React single-page
application. Every collection it keeps lives in the browser's
`localStorage`:

- employees, each with a list of uploaded documents;
- projects;
- inventory items;
- clients;
- suppliers;
- quality inspections.

The model covers:

- the generic storage hook and its cross-component synchronisation;
- the per-entity hooks: add with a fresh id, update by partial merge, soft
  or hard delete, and add or remove an employee document;
- the seed data and the "write only if empty" initialisation;
- the pure logic of the pages Inventarios, Dashboard, Index, Proyectos,
  RecursosHumanos, ClientesProveedores and ControlCalidad: form
  validation, record building, the search and selector filters, badges,
  counters, key figures, alerts, name lookups, the upload guard and the
  star rating.

Modules, in dependency order:

| module | file | contents |
|---|---|---|
| `Tipos` | tipos.dfy | `Option`, `Result`, the shared validation message |
| `Texto` | texto.dfy | ASCII lower-casing, `includes`, `parseInt` and `toString` of integers |
| `Coleccion` | coleccion.dfy | `filter`, `map`, `find`, "unique by id", counting, de-duplication |
| `Almacen` | almacen.dfy | the `useLocalStorage` hook: read, write, broadcast, listeners |
| `Entidades` | entidades.dfy | records, their `Omit<T,'id'>` data and `Partial<T>` patches, the spread merge |
| `Repositorios` | repositorios.dfy | the six entity hooks |
| `Semilla` | semilla.dfy | the seed collections and `initializeData` |
| `Indicadores` | indicadores.dfy | the "active" predicates and the key figures shared by Dashboard and Index |
| `Inventarios` | inventarios.dfy | the inventory page |
| `Tablero` | tablero.dfy | the dashboard's alert list and featured projects |
| `Inicio` | inicio.dfy | the home page's inventory card |
| `Proyectos` | proyectos.dfy | the projects page |
| `RecursosHumanos` | recursos_humanos.dfy | the human-resources page |
| `ClientesProveedores` | clientes_proveedores.dfy | the clients and suppliers page |
| `ControlCalidad` | control_calidad.dfy | the quality-control page |

Modelling choices:

- **Storage and JSON.** Storage is a `map<string, string>`. JSON parsing
  and serialisation are function parameters. Parsing returns an `Option`,
  so a parse failure takes the hook's error path.
- **Fresh ids.** Ids come from `Date.now()` in the source. In the model
  the caller passes them in.
- **Optional keys.** `fechaSeguimiento?` is declared optional and is an
  `Option`. The interfaces declare `documentos` on employees and `activo`
  on clients and suppliers as required (src/hooks/useLocalStorage.ts:27,
  72 and 86). At run time they can still be missing: the seed employees
  carry no document list, and the blank client and supplier forms carry
  no `activo`. Those three keys are `Option`s too, so the missing case is
  part of the model.
- **Truthiness.** A JavaScript truthiness test on an optional boolean is
  `== Some(true)`.
- **`parseInt`.** `parseInt(s)` without a radix is modelled concretely.
  It skips leading whitespace: every WhiteSpace and LineTerminator code
  point of ECMAScript, including the Unicode space separators and the
  byte order mark. Then it reads an optional sign. After a `0x` or `0X`
  prefix it reads the longest run of hexadecimal digits; otherwise the
  longest run of decimal digits. `NaN`, from an empty run, is `None`.
  `parseInt(s) || 0` turns both `NaN` and `0` into 0.
- **Case folding.** `toLowerCase` folds ASCII letters only.
- **Forms.** A form is a record of strings. Submitting one yields either
  the validation message or the record data the page hands to its hook.

## Model

| member | source | states |
|---|---|---|
| Texto.Minusculas | src/pages/Inventarios.tsx:44-48 | lower-casing keeps the length, leaves no upper-case letter and keeps every other character |
| Texto.MinusculasIdempotente | src/pages/Inventarios.tsx:44-48 | lower-casing a lower-cased string changes nothing, so the search term and a field can both be folded |
| Texto.ContieneSiiSubcadena | src/pages/Inventarios.tsx:44-48 | the executable `includes` holds exactly when the term occurs at some offset of the field |
| Texto.TerminoVacioCoincide | src/pages/Inventarios.tsx:44-48 | an empty search term matches every field, so an empty search box filters nothing |
| Texto.CoincideIgnoraMayusculas | src/pages/Inventarios.tsx:44-48 | the case-insensitive search gives the same answer for a term and for its lower-cased form |
| Texto.SinEspacios | src/pages/Inventarios.tsx:78-79 | `parseInt` skips exactly the leading run of whitespace: everything dropped is whitespace, and the rest is a suffix of the input that does not start with whitespace |
| Texto.ParseInt | src/pages/Inventarios.tsx:78-79 | `parseInt` gives `NaN` exactly when no digit follows the whitespace and the optional sign, a hexadecimal digit being required after a `0x` prefix; a non-zero result is negative exactly when a minus sign was read |
| Texto.ParseIntHexadecimal | src/pages/Inventarios.tsx:78-79 | a no-break space is skipped and `-0x1f` reads as -31 |
| Texto.ParseIntPrefijo | src/pages/Inventarios.tsx:78-79 | reading stops at the first non-digit: `12px` reads as 12 |
| Texto.ParseIntPrefijoVacio | src/pages/Inventarios.tsx:78-79 | a `0x` prefix with no digit after it is `NaN` |
| Texto.ParseIntSignoSolo | src/pages/Inventarios.tsx:78-79 | a sign with no digit after it is `NaN` |
| Texto.ParseIntDecimal | src/pages/Inventarios.tsx:78-79 | for all inputs: leading whitespace, an optional `+` or `-`, a run of decimal digits without a `0x` prefix (leading zeros allowed) and any tail not starting with a digit read as the signed value of the digits |
| Texto.EnteroOCero | src/pages/Inventarios.tsx:78-79 | `parseInt(s) \|\| 0` is the parsed number, or 0 for `NaN`, so a blank or whitespace-only field reads as 0 |
| Texto.Coincide | src/pages/Inventarios.tsx:44-48 | the search test holds exactly when the lower-cased term occurs at some offset of the lower-cased field; an empty term always matches |
| Texto.Digitos | src/pages/Inventarios.tsx:109-110 | the decimal text of a natural number is a non-empty digit string whose value is that number, starting with `0` only for zero |
| Texto.Mostrar | src/pages/Inventarios.tsx:109-110 | `toString` of an integer never starts with whitespace, starts with a minus sign exactly for a negative number, and then holds the canonical digits of its magnitude |
| Texto.MostrarEnPartes | src/pages/Inventarios.tsx:109-110 | `parseInt` sees in such a text no whitespace, then the digits after the optional minus sign, and no hexadecimal prefix |
| Texto.MostrarSeLee | src/pages/Inventarios.tsx:78-110 | the text of any integer parses as a number, and as that integer when it is safe |
| Texto.ParseIntMostrar | src/pages/Inventarios.tsx:78-110 | parsing the `toString` of a safe integer gives the integer back, also through the `\|\| 0` default |
| Coleccion.Filtrar | src/pages/Inventarios.tsx:40 | `filter` keeps exactly the elements that satisfy the test, in their original order |
| Coleccion.FiltrarMultiplicidad | src/pages/Inventarios.tsx:40 | `filter` keeps every copy of an element that passes and no copy of one that fails |
| Coleccion.FiltrarTodos | src/pages/ControlCalidad.tsx:51-59 | a filter that every element passes returns the whole list |
| Coleccion.FiltrarFiltrar | src/pages/Proyectos.tsx:45-66 | filtering the active list and then by the search equals one filter by the conjunction |
| Coleccion.ContarDisjuntos | src/pages/Dashboard.tsx:72-74 | two disjoint filters count together what their disjunction counts |
| Coleccion.ContarMonotono | src/pages/Dashboard.tsx:61-62 | a stronger filter never counts more than a weaker one |
| Coleccion.FiltrarNinguno | src/pages/Dashboard.tsx:72-73 | a filter that no element passes returns the empty list |
| Coleccion.ConteosPorClave | src/pages/Proyectos.tsx:414-415 | one counter per listed value, each counting the elements whose key equals that value |
| Coleccion.SumaConteosPorClave | src/pages/Proyectos.tsx:414-415 | for distinct values the counters add up to the number of elements whose key is listed, and to all elements when every key is listed |
| Coleccion.SumaConteosCubre | src/pages/ControlCalidad.tsx:331-366 | when every key is one of the distinct values, the counters add up to the number of elements |
| Coleccion.Reemplazar | src/hooks/useLocalStorage.ts:165-169 | `map` with a conditional keeps the length, transforms exactly the touched elements and leaves the rest unchanged |
| Coleccion.Mapear | src/pages/RecursosHumanos.tsx:44 | `map` applies the function at every position |
| Coleccion.AgregarIdsUnicos | src/hooks/useLocalStorage.ts:149-157 | appending keeps ids unique exactly when they were unique and the new id is unused |
| Coleccion.ActualizarPorId | src/hooks/useLocalStorage.ts:159-163 | update by id changes exactly the records with that id and is the identity for an unknown id |
| Coleccion.ActualizarPorIdIdempotente | src/hooks/useLocalStorage.ts:159-163 | repeating an update with an idempotent, id-preserving change has no further effect |
| Coleccion.ActualizarPorIdConservaIds | src/hooks/useLocalStorage.ts:159-163 | an update that does not change ids keeps every id and keeps ids unique in both directions |
| Coleccion.QuitarPorId | src/hooks/useLocalStorage.ts:353-355 | a hard delete keeps, in order, exactly the records with a different id, every copy of each, and is the identity for an unknown id |
| Coleccion.QuitarPorIdUnico | src/hooks/useLocalStorage.ts:353-355 | with unique ids, deleting a present id removes exactly one record |
| Coleccion.QuitarPorIdAgregado | src/hooks/useLocalStorage.ts:338-355 | deleting a record just appended under a fresh id restores the list |
| Coleccion.FiltrarConcat | src/pages/ClientesProveedores.tsx:54-55 | filtering distributes over concatenation |
| Coleccion.Buscar | src/pages/Proyectos.tsx:154 | the index `find` stops at is the first one that passes, or the length when none passes |
| Coleccion.Encontrar | src/pages/Proyectos.tsx:154 | `find` gives nothing exactly when no element passes, otherwise the first element that passes |
| Coleccion.EncontrarFiltrar | src/pages/ControlCalidad.tsx:434 | `find` over a filtered list equals `find` by the conjunction over the whole list |
| Coleccion.SinRepetir | src/pages/RecursosHumanos.tsx:44 | the `Set` de-duplication holds every element of the input, only those, each once |
| Almacen.Leer | src/hooks/useLocalStorage.ts:103-111 | the initial read gives the default for a missing, empty or unparsable entry, and the parsed value for an entry that is present and parses |
| Almacen.Montar | src/hooks/useLocalStorage.ts:103-111 | mounting a component leaves storage alone and adds one listener whose state is the initial read |
| Almacen.Desmontar | src/hooks/useLocalStorage.ts:136-139 | unmounting removes exactly that listener and keeps the others in order |
| Almacen.Notificar | src/hooks/useLocalStorage.ts:129-134 | the update event sets every listener on that key to the new value and no other listener |
| Almacen.Guardar | src/hooks/useLocalStorage.ts:113-126 | a failed serialisation changes only the writer's own state; a successful one writes storage and broadcasts to the key's listeners |
| Almacen.GuardarSincroniza | src/hooks/useLocalStorage.ts:113-140 | after a successful write every listener on the key, and any later reader, sees the value written |
| Entidades.NuevoDocumento | src/hooks/useLocalStorage.ts:172-175 | a new document carries the given id and exactly the given data |
| Entidades.NuevoEmpleado | src/hooks/useLocalStorage.ts:149-154 | a new employee carries the given id and data and starts with an empty document list |
| Entidades.FusionarEmpleado | src/hooks/useLocalStorage.ts:159-163 | the spread merge keeps every field the patch leaves out and takes every field the patch carries; an empty patch changes nothing |
| Entidades.FusionarEmpleadoIdempotente | src/hooks/useLocalStorage.ts:159-163 | merging the same patch twice equals merging it once |
| Entidades.FusionarEmpleadoConDatos | src/hooks/useLocalStorage.ts:159-163 | merging full form data replaces every data field and keeps the id and the documents |
| Entidades.NuevoProyecto | src/hooks/useLocalStorage.ts:210-217 | a new project carries the given id and exactly the given data |
| Entidades.FusionarProyecto | src/hooks/useLocalStorage.ts:219-223 | the spread merge keeps every field the patch leaves out and takes every field the patch carries; an empty patch changes nothing |
| Entidades.FusionarProyectoIdempotente | src/hooks/useLocalStorage.ts:219-223 | merging the same patch twice equals merging it once |
| Entidades.FusionarProyectoConDatos | src/hooks/useLocalStorage.ts:219-223 | merging full data gives the record rebuilt from that data under the old id |
| Entidades.NuevoItem | src/hooks/useLocalStorage.ts:242-249 | a new item carries the given id and exactly the given data |
| Entidades.FusionarItem | src/hooks/useLocalStorage.ts:251-255 | the spread merge keeps every field the patch leaves out and takes every field the patch carries; an empty patch changes nothing |
| Entidades.FusionarItemIdempotente | src/hooks/useLocalStorage.ts:251-255 | merging the same patch twice equals merging it once |
| Entidades.FusionarItemConDatos | src/hooks/useLocalStorage.ts:251-255 | merging full data gives the record rebuilt from that data under the old id |
| Entidades.NuevoCliente | src/hooks/useLocalStorage.ts:274-281 | a new client carries the given id and exactly the given data |
| Entidades.FusionarCliente | src/hooks/useLocalStorage.ts:283-287 | the spread merge keeps every field the patch leaves out and takes every field the patch carries; an empty patch changes nothing |
| Entidades.FusionarClienteIdempotente | src/hooks/useLocalStorage.ts:283-287 | merging the same patch twice equals merging it once |
| Entidades.NuevoProveedor | src/hooks/useLocalStorage.ts:306-313 | a new supplier carries the given id and exactly the given data |
| Entidades.FusionarProveedor | src/hooks/useLocalStorage.ts:315-319 | the spread merge keeps every field the patch leaves out and takes every field the patch carries; an empty patch changes nothing |
| Entidades.FusionarProveedorIdempotente | src/hooks/useLocalStorage.ts:315-319 | merging the same patch twice equals merging it once |
| Entidades.NuevaInspeccion | src/hooks/useLocalStorage.ts:338-345 | a new inspection carries the given id and exactly the given data |
| Entidades.FusionarInspeccion | src/hooks/useLocalStorage.ts:347-351 | the spread merge keeps every field the patch leaves out and takes every field the patch carries; an empty patch changes nothing |
| Entidades.FusionarInspeccionIdempotente | src/hooks/useLocalStorage.ts:347-351 | merging the same patch twice equals merging it once |
| Entidades.FusionarInspeccionConDatos | src/hooks/useLocalStorage.ts:347-351 | merging data with a follow-up date gives the record rebuilt from that data under the old id |
| Repositorios.AgregarEmpleado | src/hooks/useLocalStorage.ts:149-157 | adding appends one employee with the new id, the data and no documents; ids stay unique exactly when the new id is unused |
| Repositorios.ActualizarEmpleado | src/hooks/useLocalStorage.ts:159-163 | only employees with that id are merged with the patch; an unknown id changes nothing |
| Repositorios.ActualizarEmpleadoConservaIds | src/hooks/useLocalStorage.ts:159-163 | a patch without an id keeps ids unique exactly when they were |
| Repositorios.EliminarEmpleado | src/hooks/useLocalStorage.ts:165-169 | the soft delete only clears `activo` on that id and keeps every record |
| Repositorios.EliminarEmpleadoIdempotente | src/hooks/useLocalStorage.ts:165-169 | deleting twice equals deleting once |
| Repositorios.EliminarEmpleadoEsActualizar | src/hooks/useLocalStorage.ts:159-169 | the soft delete is the update with the patch `activo: false` |
| Repositorios.AgregarDocumento | src/hooks/useLocalStorage.ts:171-185 | the new document is appended to the list of each employee with that id, a missing list counting as empty, and nothing else changes |
| Repositorios.EliminarDocumento | src/hooks/useLocalStorage.ts:187-195 | each employee with that id keeps, in order, exactly its documents with another id, every copy of each, and nothing else changes |
| Repositorios.EliminarDocumentoIdempotente | src/hooks/useLocalStorage.ts:187-195 | removing a document twice equals removing it once |
| Repositorios.AgregarEliminarDocumento | src/hooks/useLocalStorage.ts:171-195 | removing a document just added under an unused id restores each list, a missing one becoming empty |
| Repositorios.AgregarProyecto | src/hooks/useLocalStorage.ts:210-217 | adding appends one project with the new id and the data; ids stay unique exactly when the new id is unused |
| Repositorios.ActualizarProyecto | src/hooks/useLocalStorage.ts:219-223 | only projects with that id are merged with the patch; an unknown id changes nothing |
| Repositorios.EliminarProyecto | src/hooks/useLocalStorage.ts:225-229 | the soft delete only clears `activo` on that id and keeps every record |
| Repositorios.EliminarProyectoIdempotente | src/hooks/useLocalStorage.ts:225-229 | deleting twice equals deleting once |
| Repositorios.EliminarProyectoEsActualizar | src/hooks/useLocalStorage.ts:219-229 | the soft delete is the update with the patch `activo: false` |
| Repositorios.AgregarItem | src/hooks/useLocalStorage.ts:242-249 | adding appends one item with the new id and the data; ids stay unique exactly when the new id is unused |
| Repositorios.ActualizarItem | src/hooks/useLocalStorage.ts:251-255 | only items with that id are merged with the patch; an unknown id changes nothing |
| Repositorios.EliminarItem | src/hooks/useLocalStorage.ts:257-261 | the soft delete only clears `activo` on that id and keeps every record |
| Repositorios.EliminarItemIdempotente | src/hooks/useLocalStorage.ts:257-261 | deleting twice equals deleting once |
| Repositorios.EliminarItemEsActualizar | src/hooks/useLocalStorage.ts:251-261 | the soft delete is the update with the patch `activo: false` |
| Repositorios.AgregarCliente | src/hooks/useLocalStorage.ts:274-281 | adding appends one client with the new id and the data; ids stay unique exactly when the new id is unused |
| Repositorios.ActualizarCliente | src/hooks/useLocalStorage.ts:283-287 | only clients with that id are merged with the patch; an unknown id changes nothing |
| Repositorios.EliminarCliente | src/hooks/useLocalStorage.ts:289-293 | the soft delete only sets `activo` to false on that id and keeps every record |
| Repositorios.EliminarClienteIdempotente | src/hooks/useLocalStorage.ts:289-293 | deleting twice equals deleting once |
| Repositorios.EliminarClienteEsActualizar | src/hooks/useLocalStorage.ts:283-293 | the soft delete is the update with the patch `activo: false` |
| Repositorios.AgregarProveedor | src/hooks/useLocalStorage.ts:306-313 | adding appends one supplier with the new id and the data; ids stay unique exactly when the new id is unused |
| Repositorios.ActualizarProveedor | src/hooks/useLocalStorage.ts:315-319 | only suppliers with that id are merged with the patch; an unknown id changes nothing |
| Repositorios.EliminarProveedor | src/hooks/useLocalStorage.ts:321-325 | the soft delete only sets `activo` to false on that id and keeps every record |
| Repositorios.EliminarProveedorIdempotente | src/hooks/useLocalStorage.ts:321-325 | deleting twice equals deleting once |
| Repositorios.EliminarProveedorEsActualizar | src/hooks/useLocalStorage.ts:315-325 | the soft delete is the update with the patch `activo: false` |
| Repositorios.AgregarInspeccion | src/hooks/useLocalStorage.ts:338-345 | adding appends one inspection with the new id and the data; ids stay unique exactly when the new id is unused |
| Repositorios.ActualizarInspeccion | src/hooks/useLocalStorage.ts:347-351 | only inspections with that id are merged with the patch; an unknown id changes nothing |
| Repositorios.EliminarInspeccion | src/hooks/useLocalStorage.ts:353-355 | the hard delete leaves no record with that id and keeps, in order, every record with another id, every copy of each |
| Repositorios.EliminarInspeccionUnica | src/hooks/useLocalStorage.ts:353-355 | with unique ids, deleting a present inspection shortens the list by one |
| Repositorios.AgregarEliminarInspeccion | src/hooks/useLocalStorage.ts:338-355 | deleting an inspection just added under a fresh id restores the list |
| Semilla.SemillaIdsUnicos | src/utils/seedData.ts:12-217 | every seed collection has unique ids |
| Semilla.IdsUnicosEmpleados | src/utils/seedData.ts:12-53 | the seed employees have unique ids |
| Semilla.IdsUnicosClientes | src/utils/seedData.ts:55-83 | the seed clients have unique ids |
| Semilla.IdsUnicosProyectos | src/utils/seedData.ts:85-119 | the seed projects have unique ids |
| Semilla.IdsUnicosInventario | src/utils/seedData.ts:121-162 | the seed items have unique ids |
| Semilla.IdsUnicosProveedores | src/utils/seedData.ts:164-192 | the seed suppliers have unique ids |
| Semilla.IdsUnicosInspecciones | src/utils/seedData.ts:194-217 | the seed inspections have unique ids |
| Semilla.SemillaReferenciasResuelven | src/utils/seedData.ts:85-217 | every client, responsible employee and inspected project named in the seed exists in the seed |
| Semilla.SemillaCalificaciones | src/utils/seedData.ts:164-192 | every seed supplier's rating lies in the range 0 to 5 offered by the form |
| Semilla.SemillaSinDocumentos | src/utils/seedData.ts:12-53 | every seed employee starts with an empty document list |
| Semilla.EscribirSiVacio | src/utils/seedData.ts:219-244 | a key with a non-empty entry is left alone; a missing or empty key gets the text; no other key changes |
| Semilla.EscribirSemillas | src/utils/seedData.ts:219-244 | writing several seed keys keeps non-empty entries, fills the listed keys that are empty and touches nothing else |
| Semilla.InicializarDatos | src/utils/seedData.ts:219-244 | `initializeData` keeps every non-empty entry, fills each of the six keys that is empty with its seed and touches no other key |
| Semilla.InicializarDatosIdempotente | src/utils/seedData.ts:219-244 | running the initialisation twice equals running it once |
| Semilla.InicializarDatosCompleto | src/utils/seedData.ts:219-244 | after the initialisation, with non-empty seed texts, all six keys hold data |
| Indicadores.CalcularKpis | src/pages/Dashboard.tsx:61-74 | each figure counts its own filter: active records per entity, all inspections, active projects in execution, approved inspections, pending ones (conditional or rejected), low and depleted active items as on the inventory page; running projects never exceed active ones, approved plus pending never exceed the total and make it up when every result is known |
| Indicadores.Redondeo | src/pages/Dashboard.tsx:69 | the integer rounding lies within half a point of the exact percentage, never exceeds 100 and is 100 when all are approved |
| Indicadores.PorcentajeAprobacion | src/pages/Dashboard.tsx:69 | the approval rate is 0 without inspections, at most 100, the approved share rounded half up, and 100 when every inspection is approved |
| Inventarios.InventarioActivo | src/pages/Inventarios.tsx:40 | the active inventory holds exactly the active items, in order, each with all its copies |
| Inventarios.InsigniaStock | src/pages/Inventarios.tsx:143-151 | the badge is "depleted" exactly at zero stock, "normal" exactly above the minimum, and "low" exactly for the low-stock filter when the stock is not negative |
| Inventarios.CumpleStock | src/pages/Inventarios.tsx:52-59 | "todos" or any unknown selector lets every item through; "agotado" selects exactly the items badged depleted, "normal" those badged normal when the minimum is not negative, "bajo" those badged low when the stock is not negative |
| Inventarios.FiltrosStockExclusivos | src/pages/Inventarios.tsx:53-59 | for non-negative stock and minimum the three stock filters split the items and agree with the badge |
| Inventarios.AgotadoConMinimoNegativo | src/pages/Inventarios.tsx:53-59 | with a negative minimum a depleted item passes both the "depleted" and the "normal" filter |
| Inventarios.StockNegativoSinFiltro | src/pages/Inventarios.tsx:53-59 | a negative stock at or below its minimum is badged "low" yet passes none of the three stock filters |
| Inventarios.InsigniasSemilla | src/utils/seedData.ts:121-162 | the three seed items show the badges normal, low and depleted |
| Inventarios.InventarioFiltrado | src/pages/Inventarios.tsx:43-62 | the listed items are exactly the active ones matching the search, the category and the stock selector, in order, each with all its copies |
| Inventarios.FiltroSoloBusqueda | src/pages/Inventarios.tsx:50-59 | with both selectors on "todos" only the search term decides |
| Inventarios.SinFiltroMuestraActivos | src/pages/Inventarios.tsx:40-62 | with no search and both selectors on "todos" the page lists the whole active inventory |
| Inventarios.CalcularEstadisticas | src/pages/Inventarios.tsx:153-160 | total, low and depleted count the active items of each kind; low and depleted never exceed the total |
| Inventarios.CategoriasUnicas | src/pages/Inventarios.tsx:41 | the category list holds each active item's category exactly once and nothing else |
| Inventarios.EnviarItem | src/pages/Inventarios.tsx:64-100 | rejected exactly when code, name or category is empty; otherwise active data whose six text fields are the form's and whose stocks are parsed, an unparsable one read as 0 |
| Inventarios.FormularioDeItem | src/pages/Inventarios.tsx:102-116 | the edit form shows the item's text fields, and both stock texts parse as numbers, the item's own ones when they are safe integers |
| Inventarios.EditarItemSinCambios | src/pages/Inventarios.tsx:64-116 | opening an item with safe stock numbers for editing and saving it unchanged gives back the item, made active |
| Tablero.Alertas | src/pages/Dashboard.tsx:80-92 | the alert list is never empty and has at most three entries |
| Tablero.AlertasCorrectas | src/pages/Dashboard.tsx:80-92 | warning, error and info appear exactly when their counts are positive, in that order; the success entry appears exactly when none does and then alone; each message carries its count |
| Tablero.ProyectosDestacados | src/pages/Dashboard.tsx:174 | the featured list is the first five running active projects, or all of them when there are fewer |
| Inicio.TarjetaInventario | src/pages/Index.tsx:149-166 | the card is shown exactly when some active item is low or depleted, with one line per positive count |
| Inicio.TarjetaSiiAlertasDeInventario | src/pages/Index.tsx:149-166 | the home card is shown exactly when the dashboard lists a stock warning or error, and its lines are those alerts' messages in the same order |
| Proyectos.EnviarProyecto | src/pages/Proyectos.tsx:68-104 | rejected exactly when name, client or responsible employee is missing; otherwise active data carrying every text field of the form, with the progress parsed, an unparsable one read as 0 |
| Proyectos.FormularioDeProyecto | src/pages/Proyectos.tsx:106-123 | the edit form shows the project's text fields, and the progress text parses as a number, the project's own one when it is a safe integer |
| Proyectos.EditarProyectoSinCambios | src/pages/Proyectos.tsx:68-123 | opening a project with a safe progress number for editing and saving it unchanged gives back the project, made active |
| Proyectos.ValoresEstadoDistintos | src/pages/Proyectos.tsx:49-55 | the five state values are pairwise distinct |
| Proyectos.InfoDeEstado | src/pages/Proyectos.tsx:153-155 | a listed state gets its own entry; any other value falls back to the first entry |
| Proyectos.NombreCliente | src/pages/Proyectos.tsx:157-160 | the name of the first active client with that id, or the placeholder exactly when there is none |
| Proyectos.NombreEmpleado | src/pages/Proyectos.tsx:162-165 | "first last" of the first active employee with that id, or the placeholder exactly when there is none |
| Proyectos.ClienteEliminadoNoEncontrado | src/pages/Proyectos.tsx:157-160 | after a client's soft delete its projects show "Cliente no encontrado" |
| Proyectos.EmpleadoEliminadoNoEncontrado | src/pages/Proyectos.tsx:162-165 | after an employee's soft delete the projects show "Empleado no encontrado" |
| Proyectos.ClienteAgregadoEncontrado | src/pages/Proyectos.tsx:157-160 | a client just added active under an unused id is found by that id |
| Proyectos.ProyectosFiltrados | src/pages/Proyectos.tsx:57-66 | the listed projects are exactly the active ones matching the search and the state selector, in order, each with all its copies |
| Proyectos.TodosLosEstados | src/pages/Proyectos.tsx:63 | the "todos" selector leaves the search term as the only test |
| Proyectos.ConteoPorEstado | src/pages/Proyectos.tsx:414-415 | one counter per listed state, in display order, each counting the active projects in that state |
| Proyectos.ConteosSumanActivos | src/pages/Proyectos.tsx:414-415 | when every active project is in a listed state the counters add up to the number of active projects |
| RecursosHumanos.EnviarEmpleado | src/pages/RecursosHumanos.tsx:69-103 | rejected exactly when first name, last name, document number or position is empty; otherwise active data carrying every field of the form |
| RecursosHumanos.FormularioDeEmpleado | src/pages/RecursosHumanos.tsx:105-118 | the edit form shows the employee's fields; submitting it unchanged succeeds exactly when the required ones are filled, and then gives back the employee's data, made active |
| RecursosHumanos.EditarEmpleadoSinCambios | src/pages/RecursosHumanos.tsx:69-118 | opening an employee for editing and saving unchanged gives back the employee, documents included, made active |
| RecursosHumanos.SubirDocumento | src/pages/RecursosHumanos.tsx:136-175 | nothing happens without a file or a selected employee; the upload fails exactly for a file over 5 MiB, checked first, or of a type not on the list; otherwise the document goes to the selected employee |
| RecursosHumanos.LimiteDeTamano | src/pages/RecursosHumanos.tsx:141-148 | a file of exactly 5 MiB is accepted and one byte more is refused |
| RecursosHumanos.EmpleadosFiltrados | src/pages/RecursosHumanos.tsx:43-56 | the listed employees are exactly the active ones matching the search and the position selector, in order, each with all its copies |
| RecursosHumanos.EmpleadosSinFiltro | src/pages/RecursosHumanos.tsx:43-56 | with no search and the position selector on "todos" the page lists exactly the active employees, in order |
| RecursosHumanos.DocumentoDistingueMayusculas | src/pages/RecursosHumanos.tsx:47-51 | the document number is searched with case: a lower-case term misses an upper-case number that the other fields would find |
| RecursosHumanos.CargosUnicos | src/pages/RecursosHumanos.tsx:44 | the position list holds each active employee's position exactly once and nothing else |
| RecursosHumanos.TiposDocumentoDistintos | src/pages/RecursosHumanos.tsx:58-67 | the eight document types are pairwise distinct |
| RecursosHumanos.DocumentosPorTipo | src/pages/RecursosHumanos.tsx:266-269 | a tab shows, in order, exactly the selected employee's documents of that type, and nothing without a selection |
| RecursosHumanos.PestanasCubrenDocumentos | src/pages/RecursosHumanos.tsx:266-269 | when every document has a listed type, the tabs together show each document exactly once |
| RecursosHumanos.TotalDocumentos | src/pages/RecursosHumanos.tsx:514 | the total is the sum of the document-list lengths of the active employees, a missing list counting as none; it is 0 when no active employee has a document |
| RecursosHumanos.AgregarDocumentoTotal | src/pages/RecursosHumanos.tsx:514 | adding a document raises the document total by the number of active employees with that id |
| ClientesProveedores.EnviarCliente | src/pages/ClientesProveedores.tsx:79-106 | rejected exactly when name or document number is empty; editing merges the form into the records with that id, adding appends one record under the new id |
| ClientesProveedores.ClientesFiltrados | src/pages/ClientesProveedores.tsx:54-62 | the listed clients are exactly the active ones matching the search, in order, each with all its copies |
| ClientesProveedores.AltaDesdeFormularioVacioInvisible | src/pages/ClientesProveedores.tsx:79-106 | a client added from the blank form has no `activo` key, so it is stored but appears in neither the active nor the filtered list |
| ClientesProveedores.EditarClienteSinCambios | src/pages/ClientesProveedores.tsx:79-112 | opening a client for editing and saving unchanged leaves the collection as it was |
| ClientesProveedores.FormularioDeCliente | src/pages/ClientesProveedores.tsx:108-112 | the edit form carries the client's id and `activo` key, and merging it back into the client gives the client |
| ClientesProveedores.FormularioDeClienteIdentidad | src/pages/ClientesProveedores.tsx:108-112 | merging the form filled from a client back into that client gives the client |
| ClientesProveedores.EnviarProveedor | src/pages/ClientesProveedores.tsx:140-167 | rejected exactly when name or tax id is empty; editing merges the form into the records with that id, adding appends one record under the new id |
| ClientesProveedores.ProveedoresFiltrados | src/pages/ClientesProveedores.tsx:63-67 | the listed suppliers are exactly the active ones matching the search, in order, each with all its copies |
| ClientesProveedores.AltaProveedorDesdeFormularioVacioInvisible | src/pages/ClientesProveedores.tsx:140-167 | a supplier added from the blank form has no `activo` key, so it is stored but appears in neither the active nor the filtered list |
| ClientesProveedores.EditarProveedorSinCambios | src/pages/ClientesProveedores.tsx:140-173 | opening a supplier for editing and saving unchanged leaves the collection as it was |
| ClientesProveedores.FormularioDeProveedor | src/pages/ClientesProveedores.tsx:169-173 | the edit form carries the supplier's id and `activo` key, and merging it back into the supplier gives the supplier |
| ClientesProveedores.FormularioDeProveedorIdentidad | src/pages/ClientesProveedores.tsx:169-173 | merging the form filled from a supplier back into that supplier gives the supplier |
| ClientesProveedores.OpcionesSeLeen | src/pages/ClientesProveedores.tsx:599-607 | the text of each rating option parses back to that option |
| ClientesProveedores.ElegirCalificacion | src/pages/ClientesProveedores.tsx:600 | choosing the text of a rating option stores that option; any other text stores a number exactly when `parseInt` reads one |
| ClientesProveedores.CalificacionesElegibles | src/pages/ClientesProveedores.tsx:599-606 | the rating selector offers 0 to 5, and each option's text parses back to its number |
| ClientesProveedores.Estrellas | src/pages/ClientesProveedores.tsx:200-207 | always five stars; star i is filled exactly when i is below the rating |
| ClientesProveedores.EstrellasLlenas | src/pages/ClientesProveedores.tsx:200-207 | the number of filled stars is the rating clamped to 0 to 5 |
| ControlCalidad.DatosDeFormularioInspeccion | src/pages/ControlCalidad.tsx:61-93 | the submitted data always carries the follow-up date, possibly empty |
| ControlCalidad.EnviarInspeccion | src/pages/ControlCalidad.tsx:61-93 | rejected exactly when a required field is empty; editing rebuilds the records with that id from the form under their id, adding appends one record under the new id |
| ControlCalidad.FormularioDeInspeccion | src/pages/ControlCalidad.tsx:95-108 | the edit form shows the inspection's fields, a missing follow-up date as empty text, and is complete exactly when the inspection has every required field |
| ControlCalidad.EditarInspeccionSinCambios | src/pages/ControlCalidad.tsx:61-108 | saving an inspection opened for editing unchanged succeeds; it leaves the record as it was, except that a missing follow-up date becomes an empty one |
| ControlCalidad.InspeccionesFiltradas | src/pages/ControlCalidad.tsx:51-59 | the listed inspections are exactly those matching the search and the result selector, in order, each with all its copies, with no activity test |
| ControlCalidad.SinFiltroMuestraTodas | src/pages/ControlCalidad.tsx:51-59 | with no search and the selector on "todos" every inspection is listed |
| ControlCalidad.ResultadosDistintos | src/pages/ControlCalidad.tsx:44-49 | the three result values are pairwise distinct |
| ControlCalidad.CalcularResumen | src/pages/ControlCalidad.tsx:331-366 | the counters count all, approved, conditional and rejected inspections; approved agrees with the dashboard, and conditional plus rejected is the dashboard's pending count |
| ControlCalidad.ResumenYTablero | src/pages/ControlCalidad.tsx:331-366 | on the same inspections the page's approved counter is the dashboard's approved figure (Dashboard.tsx:68), conditional plus rejected is its pending figure (Dashboard.tsx:74), and the totals agree |
| ControlCalidad.ResumenSumaTotal | src/pages/ControlCalidad.tsx:331-366 | when every result is one of the three values, the three counters add up to the total |
| ControlCalidad.ConteosCubrenTodas | src/pages/ControlCalidad.tsx:331-366 | when every result is one of the three values, the per-result counts add up to the number of inspections |
| ControlCalidad.ConteosDelResumen | src/pages/ControlCalidad.tsx:331-366 | the approved, conditional and rejected counters are the per-result counts in display order |
| ControlCalidad.NombreONd | src/pages/ControlCalidad.tsx:434 | the cell shows "N/D" exactly when there is no project or its name is empty or "N/D", and otherwise the name |
| ControlCalidad.NombreProyectoTabla | src/pages/ControlCalidad.tsx:434 | the table looks the project up among active projects only |
| ControlCalidad.NombreProyectoReporte | src/pages/ControlCalidad.tsx:170 | the report shows "N/D" for an id no project has, and otherwise the name of the first project with that id, active or not |
| ControlCalidad.TablaYReporteTrasEliminar | src/pages/ControlCalidad.tsx:170-434 | after a project's soft delete the table shows "N/D" while the printed report still shows its name |
| ControlCalidad.TablaYReporteCoinciden | src/pages/ControlCalidad.tsx:170-434 | for an active project with a unique id, the table and the report show the same name |

## Left out

- Money fields (`salario`, `presupuestoInicial`, `presupuestoActual`, `precioUnitario`) and every sum over them: JavaScript floating point is not modelled, and neither is `parseFloat`.
- Indicadores.PorcentajeAprobacion: `Math.round` of a double is modelled as exact rational rounding, half up. The double-precision error of the source is not modelled.
- Numbers are unbounded integers, not doubles. Stock, progress and ratings are exact at any size.
- Texto.ParseInt: the value read is exact for a digit run of any length. JavaScript rounds a run beyond 2^53 to the nearest double, so the model does not promise that rounding.
- Texto.ParseIntMostrar: the round trip is stated for safe integers, at most `Number.MAX_SAFE_INTEGER` in magnitude. `Inventarios.EditarItemSinCambios` and `Proyectos.EditarProyectoSinCambios` carry the same bound.
- Texto.Digitos: always writes plain decimal digits. `toString` switches to exponent form (`1e+21`) from 10^21 on, which is not modelled.
- Texto.Mostrar: same as `Texto.Digitos` for magnitudes of 10^21 and more.
- Texto.Minusculas: only ASCII letters are folded; `toLowerCase` on accented or other non-ASCII letters is not modelled.
- JSON parsing and serialisation are function parameters, not a JSON model. An exception from `localStorage.setItem` is the `None` result of the serialiser.
- `Date.now()` ids, upload timestamps and the `FileReader` base64 content are parameters. Id freshness is a precondition where it matters.
- React effect scheduling, the stale `storedValue` captured by a setter and the order of `setState` against listeners are not modelled. A write is one atomic step over the store and its listeners.
- The dashboard's and home page's refresh timers, the last-update clock and the toasts are left out: they only re-render.
- The `window.confirm` dialogs before a delete are left out: the model's delete is the confirmed branch.
- Printing, HTML report generation, document download and the JSX layout are left out: they are presentation only. The report's project-name lookup is kept, as `ControlCalidad.NombreProyectoReporte`.
- Inventarios.FiltrosStockExclusivos: requires non-negative stock and minimum. The source does not enforce this, and `AgotadoConMinimoNegativo` and `StockNegativoSinFiltro` state what happens otherwise.
- `estado`, `resultado`, `tipo` and `categoria` stay strings, not enumerations, because the source accepts and displays any value.
- `ClientesProveedores.EnviarCliente` and `ClientesProveedores.EnviarProveedor` model the form that the page passes whole as the patch, including its `id` and `activo` keys when present.
