# Registro de obras urbanas — a verified model

This project models the core of a small registry of urban public works. The
registry is a SQLite database behind a peewee ORM:

- seven lookup tables of (id, text) rows: Etapas, Entornos, Tipos_obras,
  Areas_Responsables, Comunas, Tipos_contrataciones and Financiamientos;
- Barrios, whose rows reference a Comuna;
- Empresas_licitadoras, the companies;
- Obras, whose work records reference all of the tables above.

The model covers four parts of that core:

- **Lookup resolution.** `pedir_y_validar_o_crear` is the interactive
  get-or-create: it finds the typed value, or creates it with the user's
  consent, and the Barrio case also asks for its Comuna. `pedir_si_no` and
  the other re-prompting readers belong here too. The batch
  `get_or_create` calls of the ORM complete this part.
- **The bulk loader `cargar_datos`.** It runs the amount parser
  `parse_monto`, the integer conversion `convertir_a_int` and the row
  loop. A row that raises is skipped. The lookup rows it created before
  raising stay.
- **The lifecycle methods of the `Obra` model object.** These are
  `nuevo_proyecto`, `iniciar_contratacion`, `adjudicar_obra`,
  `iniciar_obra`, `actualizar_porcentaje_avance`, `incrementar_plazo`,
  `incrementar_mano_obra`, `finalizar_obra` and `rescindir_obra`.
- **The indicator report `Obtener_indicadores`.** It builds:
  - the listings of the area and type tables;
  - work counts grouped by stage;
  - counts and amount sums grouped by type;
  - the barrios of comunas 1, 2 and 3;
  - the number of works at stage id 3 with a term of at most 24;
  - the total amount.

The whole database is the value `Tablas.Base`. The one database the program
works on is the class `Tablas.Store`, whose tables its methods reassign in
place. Each operation has two forms:

- a function on `Base`, about which the lemmas speak;
- a method on the `Store`, or on the `ModeloObra.Obra` object, whose
  `ensures` ties the new state to that function.

The interactive loops that ask again "forever" take their answers as a
finite sequence. Running out of answers yields None (or `completo ==
false`) and changes nothing that the last accepted answer would not have
changed.

Ids are row numbers. SQLite gives an INTEGER PRIMARY KEY the next row
number, and nothing is ever deleted, so row `i` of a table has id `i + 1`.
`Base.Valid()` states the database invariant:

- ids are row numbers;
- lookup texts are unique;
- a barrio is unique by name and comuna, and its comuna exists;
- company names are unique;
- every reference of a work record names an existing row.

Every operation is proved to preserve `Valid()`.

Files and modules:

- `wrappers.dfy` (`Wrappers`): the `Option` type.
- `texto.dfy` (`Texto`): Python's `strip`, `lower` and `replace`, `int()`
  and `float()` on text.
- `tablas.dfy` (`Tablas`): the schema, the invariant, get-or-create, and
  the `Store`.
- `pedidos.dfy` (`Pedidos`): `pedir_si_no`, the `pedir_*` readers, and
  `pedir_y_validar_o_crear`.
- `obras.dfy` (`Obras`): the lifecycle transitions as functions.
- `modelo_obra.dfy` (`ModeloObra`): the `Obra` class.
- `carga.dfy` (`Carga`): `cargar_datos`.
- `indicadores.dfy` (`Indicadores`): `Obtener_indicadores`.

Three behaviours of the code that its names do not suggest:

- The "finished within 24" indicator compares the stage id with the
  literal 3 (`Obra.Etapa == 3`). It does not look for the stage named
  "Finalizada", which `finalizar_obra` may have created under any id.
- A progress cell that `float()` rejects makes the loader skip the row.
- The term column `Plazo` is parsed with `parse_monto`, exactly like the
  amount.

## Model

| member | source | states |
|---|---|---|
| Texto.StripSpec | gestionar_obras.py:18 | `strip()` keeps exactly the slice between the leading and the trailing characters Python's `isspace` accepts (ASCII 9-13 and 28-31, the space, and the Unicode spaces and separators), and that slice neither starts nor ends with one |
| Texto.StripIdempotent | gestionar_obras.py:63 | stripping twice is stripping once |
| Texto.Lower | gestionar_obras.py:63 | `lower()` keeps the length and lowers every character on its own (ASCII capitals and 'Í') |
| Texto.CountReplace | gestionar_obras.py:206 | `replace(a, t)` removes every `a`, adds one copy of `t` per `a`, and touches no other character |
| Texto.ReplaceConcat | gestionar_obras.py:206 | `replace` works piece by piece over a concatenation |
| Texto.ParseIntShowInt | gestionar_obras.py:47 | `int(str(n)) == n` for every integer |
| Texto.ParseFloatShowNat | gestionar_obras.py:39 | `float` reads every natural number written in decimal as that number |
| Texto.ParseFloatDecimal | gestionar_obras.py:39 | `float` reads digits, '.', digits as that decimal number |
| Texto.ParseFloatSinDigitos | gestionar_obras.py:208-210 | `float` rejects every text without a digit |
| Tablas.Primero | gestionar_obras.py:19 | `get_or_none` without ORDER BY finds the first row, in rowid order, that satisfies the condition, and None exactly when no row does |
| Tablas.Buscar | gestionar_obras.py:19 | a lookup by text finds a row holding that text, or None exactly when no row holds it |
| Tablas.Base.BuscarEmpresa | modelo_orm.py:154 | the company lookup finds a company of that name, or None exactly when there is none |
| Tablas.Base.BuscarBarrio | gestionar_obras.py:19 | the barrio lookup of the dialog matches on the name alone, in any comuna |
| Tablas.GetOrCreateSpec | gestionar_obras.py:219-231 | get-or-create keeps the database valid, only grows it, touches only its table, and returns the id of a row holding exactly the text |
| Tablas.GetOrCreateCasos | gestionar_obras.py:219-231 | get-or-create changes nothing when the text exists, and appends exactly one row when it does not |
| Tablas.GetOrCreateIdempotent | modelo_orm.py:226-244 | get-or-create twice with the same text is get-or-create once |
| Tablas.ConTablaValida | gestionar_obras.py:29 | creating a lookup row with a new text keeps the whole database valid |
| Tablas.GetOrCreateEmpresaSpec | gestionar_obras.py:237-240 | the company get-or-create keys on the name only; an existing company is returned unchanged; a new one carries the default cuit; the database stays valid |
| Tablas.GetOrCreateEmpresaTwice | gestionar_obras.py:237-240 | loading a company name twice creates at most one company, and the second cuit is ignored |
| Tablas.GetOrCreateBarrioSpec | gestionar_obras.py:229 | the barrio get-or-create keys on the name and the comuna, keeps the database valid, and returns a barrio with that name in that comuna |
| Tablas.CrearBarrioValido | gestionar_obras.py:29 | a new barrio with a new (name, comuna) pair and an existing comuna keeps the database valid |
| Tablas.Store.GetOrCreate | gestionar_obras.py:219-231 | on the live database, the new tables and the id are those of the get-or-create function |
| Tablas.Store.GetOrCreateBarrio | gestionar_obras.py:229 | the same, for Barrio |
| Tablas.Store.GetOrCreateEmpresa | gestionar_obras.py:237-240 | the same, for the company with its default cuit |
| Tablas.Store.Agregar | gestionar_obras.py:29 | `create` appends one row with the next id |
| Tablas.Store.InsertarObra | gestionar_obras.py:243-272 | `Obra.create` appends exactly that record and returns its id |
| Tablas.Store.Guardar | modelo_orm.py:120 | `save()` overwrites row `id` and nothing else |
| Pedidos.SiNo | gestionar_obras.py:61-69 | an accepted yes/no answer is always "SI" or "NO" |
| Pedidos.SiNoCases | gestionar_obras.py:63-69 | "SI" exactly for a stripped, lowered "si"/"sí", "NO" exactly for "no", and a re-prompt otherwise |
| Pedidos.SiNoCanonical | gestionar_obras.py:64-67 | the canonical answers read back as themselves |
| Pedidos.SiNoEjemplos | gestionar_obras.py:63-67 | " Sí " reads as "SI", "No" as "NO", and "s" is rejected |
| Pedidos.LeidoNinguno | gestionar_obras.py:36-49 | a re-prompting reader gives nothing exactly when no answer is accepted |
| Pedidos.LeidoAlguno | gestionar_obras.py:36-49 | a value read is what the parser gave for one of the answers |
| Pedidos.LeidoPrimero | gestionar_obras.py:36-49 | the first accepted answer decides, and later answers are never read |
| Pedidos.Pedir | gestionar_obras.py:36-69 | the re-prompt loop of `pedir_float`, `pedir_int`, `pedir_fecha` and `pedir_si_no` returns the value of the first accepted answer |
| Pedidos.PedirSiNoCanonico | gestionar_obras.py:61-69 | `pedir_si_no` returns only "SI" or "NO" |
| Pedidos.Interactivo | gestionar_obras.py:12-33 | the dialog touches neither the Obras, Empresas nor Barrios table |
| Pedidos.RondaValida | gestionar_obras.py:18-31 | one round keeps the database valid, touches only its table, and returns a row holding the stripped value typed |
| Pedidos.RondaExistente | gestionar_obras.py:18-22 | a value already present is returned and nothing is created |
| Pedidos.RondaNueva | gestionar_obras.py:23-33 | a missing value creates exactly one row on a yes answer, and nothing on any other answer |
| Pedidos.InteractivoSpec | gestionar_obras.py:13-33 | the dialog's outcome is one round's outcome on the database as it was; with no row returned, nothing changes |
| Pedidos.InteractivoNinguna | gestionar_obras.py:13-33 | the dialog yields nothing exactly when every round yields nothing |
| Pedidos.InteractivoPrimera | gestionar_obras.py:13-22 | the first round that yields a row decides the dialog |
| Pedidos.InteractivoValido | gestionar_obras.py:12-33 | the dialog keeps the database valid and touches only its table |
| Pedidos.InteractivoTexto | gestionar_obras.py:12-33 | a row the dialog returns holds a stripped value typed in one of the rounds |
| Pedidos.InteractivoExistente | gestionar_obras.py:18-22 | when the first value exists, the dialog returns it and changes nothing |
| Pedidos.InteractivoSinConsentimiento | gestionar_obras.py:24-33 | without a yes answer, no row is ever created |
| Pedidos.InteractivoUnPaso | gestionar_obras.py:13-33 | a round that yields nothing changes nothing and the dialog starts over |
| Pedidos.PedirRonda | gestionar_obras.py:14-31 | one round on the live database is the round function |
| Pedidos.PedirYValidarOCrear | gestionar_obras.py:12-33 | the loop on the live database is the dialog function |
| Pedidos.RondaBarrioValida | gestionar_obras.py:26-31 | a barrio round keeps the database valid, changes only Barrios and Comunas, and returns a barrio with the typed name |
| Pedidos.RondaBarrioNueva | gestionar_obras.py:26-31 | a created barrio is exactly one new last row, with a new name and the comuna the comuna dialog returned |
| Pedidos.InteractivoBarrioSpec | gestionar_obras.py:291-295 | the barrio dialog's outcome is that of the first round that does not ask again, or nothing at all |
| Pedidos.InteractivoBarrioValido | gestionar_obras.py:291-295 | the barrio dialog keeps the database valid and changes only Barrios and Comunas |
| Pedidos.InteractivoBarrioNueva | gestionar_obras.py:291-295 | the barrio dialog creates at most one barrio, and its name is new |
| Pedidos.CerrarRondaBarrio | gestionar_obras.py:26-31 | the end of a barrio round on the live database is the round function |
| Pedidos.PedirBarrio | gestionar_obras.py:291-295 | the barrio dialog on the live database keeps it valid and is the dialog function |
| Obras.Adaptar | modelo_orm.py:133-138 | the amount column keeps the number when the stripped text reads as one, and the text itself otherwise |
| Obras.IdEmpresa | modelo_orm.py:154 | the company id found, or None exactly when no company has that name |
| Obras.PrimeraEmpresa | modelo_orm.py:148-159 | the first name typed that, stripped, names a company decides; None exactly when none does |
| Obras.GuardadoValido | modelo_orm.py:120 | saving a record with valid references keeps the database valid |
| Obras.ConEtapaSpec | modelo_orm.py:226-244 | a stage transition changes only the stage; the stage names an Etapa row with exactly that text; only Etapa can grow, by get-or-create |
| Obras.ConEtapaIdempotente | modelo_orm.py:108-120 | setting the same stage twice is setting it once, and Etapa does not grow again |
| Obras.RescisionTrasFinalizar | gestionar_obras.py:342-346 | `finalizar_obra` then `rescindir_obra` leaves the stage at "Rescisión", because no transition checks the stage |
| Obras.IniciarContratacionValida | modelo_orm.py:124-140 | the contracting step keeps the database valid and may add a row only to Tipos_contrataciones |
| Obras.IniciarContratacionSpec | modelo_orm.py:124-140 | only the three contracting fields change; on completion the type holds a value typed and the amount and number are the stripped texts; it fails only when no round yields a type, and then nothing changes |
| Obras.AdjudicarObraValida | modelo_orm.py:144-165 | the award never adds or changes a company or any other table |
| Obras.AdjudicarObraSpec | modelo_orm.py:144-165 | only the company and file number change; on completion the company is one named by a stripped name typed |
| Obras.AdjudicarObraCompleta | modelo_orm.py:148-159 | the award completes exactly when some stripped name typed names an existing company |
| Obras.PrimeraEmpresaNombre | modelo_orm.py:153-157 | the company chosen is the row named by one of the names typed |
| Obras.IniciarObraValida | modelo_orm.py:169-188 | starting the work keeps the database valid and may add a row only to Financiamientos |
| Obras.IniciarObraSpec | modelo_orm.py:169-188 | only its five fields change; on completion: highlighted is "SI"/"NO", the dates are dates typed, the funding holds a value typed, and the headcount is an integer typed |
| Obras.ActualizarPorcentajeAvanceSpec | modelo_orm.py:192-199 | only the progress changes, and no table; it completes exactly when an answer reads as a number, which becomes the progress |
| Obras.IncrementarPlazoSpec | modelo_orm.py:203-211 | only the term changes, replaced (not increased) by a number typed; it completes exactly when an answer reads as a number |
| Obras.IncrementarManoObraSpec | modelo_orm.py:215-222 | only the headcount changes, replaced by an integer typed; it completes exactly when an answer reads as an integer |
| Obras.IncrementarPlazoIdempotente | modelo_orm.py:208-210 | giving the same term twice is giving it once |
| Obras.IncrementarManoObraIdempotente | modelo_orm.py:219-221 | giving the same headcount twice is giving it once |
| ModeloObra.Obra.Guardar | modelo_orm.py:120 | `self.save()` writes the object's values over its row |
| ModeloObra.Obra.PonerEtapa | modelo_orm.py:230-234 | the object and the database after a stage transition are those of the stage function |
| ModeloObra.Obra.NuevoProyecto | modelo_orm.py:108-120 | `nuevo_proyecto` is the stage transition to "Proyecto" |
| ModeloObra.Obra.FinalizarObra | modelo_orm.py:226-234 | `finalizar_obra` is the stage transition to "Finalizada" |
| ModeloObra.Obra.RescindirObra | modelo_orm.py:236-244 | `rescindir_obra` is the stage transition to "Rescisión" |
| ModeloObra.Obra.IniciarContratacion | modelo_orm.py:124-140 | the object and the database afterwards are those of the contracting function |
| ModeloObra.Obra.AdjudicarObra | modelo_orm.py:144-165 | the same, for the award |
| ModeloObra.Obra.IniciarObra | modelo_orm.py:169-188 | the same, for the start of the work |
| ModeloObra.Obra.ActualizarPorcentajeAvance | modelo_orm.py:192-199 | the same, for the progress |
| ModeloObra.Obra.IncrementarPlazo | modelo_orm.py:203-211 | the same, for the term |
| ModeloObra.Obra.IncrementarManoObra | modelo_orm.py:215-222 | the same, for the headcount |
| ModeloObra.ElegirEmpresa | modelo_orm.py:148-159 | the search loop finds the company the first matching name names, reading the database only |
| Carga.NormalizarSpec | gestionar_obras.py:206 | the clean-up leaves no '$', ' ' or ','; as many '.' as there were ','; every other character as often as before |
| Carga.NormalizarArgentino | gestionar_obras.py:206 | "$" + thousands "." + decimal "," becomes the `float` notation |
| Carga.ParseMontoSpec | gestionar_obras.py:202-210 | a whole amount written in plain digits, as an integer cell prints, reads as itself |
| Carga.ParseMontoArgentino | gestionar_obras.py:202-210 | "$1.234,56" and every amount of that shape reads as its decimal number |
| Carga.ParseMontoSinDigitos | gestionar_obras.py:202-210 | a text without digits ("invalid") is 0.0, and so is a missing cell |
| Carga.ConvertirAIntSpec | gestionar_obras.py:190-194 | `convertir_a_int` reads back every integer Python writes, and gives 0 on a rejected text |
| Carga.Resolver | gestionar_obras.py:219-228 | a run of lookups gives one id per lookup |
| Carga.ResolverValida | gestionar_obras.py:219-228 | the lookups keep the database valid and only grow the lookup tables |
| Carga.ResolverFalla | gestionar_obras.py:219-228 | a run of lookups fails exactly when some key is missing |
| Carga.ResolverIds | gestionar_obras.py:219-228 | each id a run of lookups returns names a row holding its key |
| Carga.ClasificarSpec | gestionar_obras.py:219-228 | a row's six lookups fail exactly when entorno, etapa, area or comuna is missing; each id names a row holding the cell, or "No especificado" for a blank type of work or of contract |
| Carga.ConFilaInserta | gestionar_obras.py:217-274 | whether a row is inserted depends only on the row |
| Carga.ReferenciasSpec | gestionar_obras.py:219-240 | the reference stage keeps the database valid; it fails exactly when one of the five keys is missing, and otherwise gives the right lookup, barrio, funding and company ids |
| Carga.CompletarSpec | gestionar_obras.py:229-240 | the barrio is in the row's comuna, the funding holds the cell or "No especificado", and the company holds the name or "Empresa Desconocida"; a company it creates holds the cuit cell or "00-00000000-0" |
| Carga.CompletarCuit | gestionar_obras.py:234-239 | a company the row creates is the one its references name, and it holds the cuit cell or "00-00000000-0" |
| Carga.ReferenciasCuit | gestionar_obras.py:219-240 | when the reference stage succeeds it leaves Obras alone, and a company it creates holds the cuit cell or "00-00000000-0" |
| Carga.ConFilaCuit | gestionar_obras.py:234-266 | when a row inserts a record and creates a company, the record's company is that one, holding the cuit cell, or "00-00000000-0" for a blank cell |
| Carga.NuevaObraInsertada | gestionar_obras.py:243-272 | the record built is the row's scalar columns with right references |
| Carga.ConFilaSpec | gestionar_obras.py:217-277 | one row keeps the database valid; it appends exactly one described record iff the row is valid, and leaves Obras alone otherwise |
| Carga.InsertarValida | gestionar_obras.py:243-272 | inserting the record keeps the database valid |
| Carga.CargarSpec | gestionar_obras.py:215-279 | the loader keeps the database valid and only grows it; the count is the number of records inserted and of valid rows; the new records carry, in order, the valid rows' scalar columns |
| Carga.CargarFilaInvalida | gestionar_obras.py:276-277 | a failing row leaves Obras alone and the count unchanged, while earlier rows stay |
| Carga.ValoresPorDefecto | gestionar_obras.py:221-266 | blank type, contract and funding become "No especificado"; a blank company becomes "Empresa Desconocida"; a blank headcount becomes 0 (the blank-cuit default holds only for a company the row creates; `Carga.ConFilaCuit` states it) |
| Carga.ResolverEn | gestionar_obras.py:219-228 | the lookup loop on the live database is the lookup function |
| Carga.ReferenciasEn | gestionar_obras.py:219-240 | the reference stage on the live database is the reference function |
| Carga.CargarFila | gestionar_obras.py:217-277 | one iteration on the live database is the row function |
| Carga.CargarDatosEn | gestionar_obras.py:186-279 | `cargar_datos` on the live database is the loader function; a missing DataFrame inserts nothing |
| Indicadores.Entre | gestionar_obras.py:155-160 | the join keeps exactly the records whose reference lies in the range |
| Indicadores.SumaSql | gestionar_obras.py:167 | SQL `SUM` is NULL exactly when every amount is NULL, and is otherwise the sum |
| Indicadores.EntreTodas | gestionar_obras.py:157-158 | with valid references, the inner join keeps exactly the records with a non-NULL reference |
| Indicadores.EntreSepara | gestionar_obras.py:155-171 | widening the id range by one id adds exactly that group's count and amount |
| Indicadores.MontoPartido | gestionar_obras.py:178-180 | the total amount is the typed records' amount plus the untyped records' amount |
| Indicadores.ObrasPorEtapa | gestionar_obras.py:155-160 | one row per stage with at least one record, carrying its description and its exact count, and no row for an unused stage |
| Indicadores.ObrasPorTipo | gestionar_obras.py:161-171 | one row per type with at least one record, carrying its exact count and SQL sum |
| Indicadores.TotalEtapasEntre | gestionar_obras.py:155-160 | the stage counts add up to the records that reference a stage |
| Indicadores.TotalTiposEntre | gestionar_obras.py:161-171 | the type counts add up to the typed records, and the type sums add up to their amount |
| Indicadores.Finalizadas24Cuenta | gestionar_obras.py:175-177 | the count is exactly the number of records with stage id 3 and a term of at most 24 |
| Indicadores.Barrios123 | gestionar_obras.py:172-174 | exactly the barrios of comuna 1, 2 or 3 are listed |
| Indicadores.MontoTotal | gestionar_obras.py:178-180 | the total is the sum of all amounts, and 0 on an empty table |
| Indicadores.IndicadoresSpec | gestionar_obras.py:150-183 | on a valid database: stage counts cover every staged record; type counts cover every typed record; type sums plus untyped amounts make the total; the 24-month count is exact; an empty table totals 0 |

## Left out

- Reading the CSV with pandas and filtering its columns (`extraer_datos`).
  The loader receives rows whose cells are text or None. pandas' type
  inference is not modelled: every cell arrives as text.
- Carga.ManoDeObra: pandas reads a headcount column as float64 when any
  of its cells is blank, so a cell holds 12.0 and `int()` gives 12. Here
  cells are text, and a whole headcount printed as "12.0" is rejected by
  `int` and loads as 0.
- Connecting to SQLite and creating the tables. The database is an
  in-memory value. The `Store` constructor starts from empty tables.
- Console output: every `print`, and the option listing of
  `pedir_y_validar_o_crear`. The "Enter para…" pauses of `nueva_obra` are
  left out too, and so is the report printing of `main`.
- `nueva_obra` as one sequence. Its dialogs are modelled by
  `Pedidos.PedirYValidarOCrear`, `Pedidos.PedirBarrio` and
  `Pedidos.Pedir`. Its transitions are the `ModeloObra.Obra` methods. Its
  closing pair of transitions is `Obras.RescisionTrasFinalizar`. The
  `Obra.create` of its first part is not a separate member.
- Date parsing (`strptime`, `pd.to_datetime`). Dates reach the model
  already parsed, as `Option<Fecha>`.
- The unused `convertir_a_float`, and the stray class-level `print` in
  `Obra`.
- Concurrency and transactions. The program is single-threaded and
  autocommits; each step here is atomic.
- Texto.ParseFloat: numbers are exact reals, not IEEE doubles. It accepts
  only an optional sign and decimal digits with at most one '.'. Exponents,
  "inf", "nan" and '_' separators, which Python's `float` also accepts,
  are rejected here.
- Texto.ParseInt: only ASCII digits. Python's `int` also accepts other
  Unicode digits and '_' separators.
- Texto.LowerChar: lowers only ASCII capitals and 'Í', the only
  characters that can spell a yes/no answer. Any other character is left
  as it is.
- Indicadores.Importe: a text amount (one `iniciar_contratacion` stored
  without converting it) adds 0 to a sum. SQLite would add the numeric
  prefix of the text.
- Indicadores.ObrasPorEtapa: the groups are listed in the order of the
  stage ids. The SQL query has no ORDER BY, so SQLite's order is not
  promised.
- Indicadores.ObrasPorTipo: the groups are listed in the order of the
  type ids, for the same reason.
- Pedidos.Pedir: re-prompting forever becomes a finite sequence of
  answers. Running out of them yields None, where the program would wait
  for more input.
