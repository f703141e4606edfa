# Gestor de gastos: validation, record normalisation and list bookkeeping

This Dafny project models the client-side rules of a React personal-finance
application. Those rules sit between its forms and its lists:

- **List owner (`App`).** The legacy top-level screen keeps one list per entity (expenses,
  savings, investments, debts, cards, banks, monthly goals) plus a list of
  categories. Every handler replaces one list with a copy: an element appended under a fresh id,
  every element with an id replaced or updated, every element with an id
  filtered out, or a category added, overwritten or dropped by position.
  Updating a goal's progress recomputes its completion flag as
  `progreso >= cantidad`.
- **Legacy forms** (`FormularioGasto`, `FormularioAhorro`, `FormularioInversion`,
  `FormularioDeuda`, `PlanificacionMensual`, `GestionTarjetas`,
  `GestionBancos`, `GestionCategorias`). Each is a chain of early-return
  guards, then the record it emits, then a form reset. The card and bank managers,
  and the category manager, also have add/edit modes keyed by `editando`.
- **Remote-backed screens** (`GestionGastos`, `GestionFinanciera`). These have their own guard
  chains, call the data-access service, and change their lists only once the service has answered.
  Each handler is split at its `await`. The continuation rebuilds the list from the copy its
  closure captured when the submission began, not from the list as it stands when the answer
  arrives. Nothing disables the submit buttons, so two overlapping submissions both insert
  but only the later one's row is shown (`GestionGastos.EnvioDoble`, `GestionFinanciera.AltaBancoDoble`).
  Likewise, of two overlapping deletes the earlier card is shown again (`GestionFinanciera.BajasSolapadas`).
  The last answer to arrive wins.
- **Data-access service** (`SupabaseService`). This covers each `create*` call's pre-insert check,
  the row it sends with its `||` defaults, how its error messages are built,
  and `updateProgresoObjetivo`'s completion rule `progreso >= 100`.

Modelling choices:

- JavaScript numbers are `Num = NaN | Num(real)`. Truthiness, the NaN-false comparisons,
  `trim` and `includes` are written out in `Js`.
- `parseFloat`, `Number` and `toString` are function parameters.
- Ids, today's date and every backend outcome (probe, insert, delete) are parameters.
- React state slots are class fields. Handlers are methods, each proved
  against a pure function that also carries the properties.

What the proofs show:

- Every validator:
  - refuses exactly the inputs its guards name, in the guards' order (each refusal as an if-and-only-if);
  - emits only well-formed records;
  - has a partner lemma, which shows that every well-formed record is emitted by the form filled in from it.
- List bookkeeping keeps ids distinct and keeps goal flags coherent.
- Targeted updates leave every other element and every other list unchanged.

Facts about the source that the proofs bring out:

- The service's completion rule (`progreso >= 100`) and the list owner's
  (`progreso >= cantidad`) agree for every progress value exactly when the target is 100
  (`App.ReglasCoincidenConMetaCien`).
- A NaN price gets past the expense screen's guard but is refused by the service's own field check
  (`GestionGastos.ServicioRechazaValidado`).
- An insert error for an expense reaches the user with "Error al crear gasto: " twice in front
  (`SupabaseService.MensajeFalloGasto`).
- A new goal with a target of 0 or less starts not completed even though
  `0 >= cantidad` holds. For that reason, flag coherence (`App.ObjetivosCoherentes`) is stated
  only for goals whose target is not a number that is 0 or less.

## Model

| member | source | states |
|---|---|---|
| Js.NonEmpty | src/components/GestionGastos.tsx:89-90 | `s \|\| undefined`: absent exactly when the text is empty, otherwise the same text |
| Js.StringOrNull | src/services/supabaseService.ts:287-288 | `o \|\| null`: null exactly when absent or empty, otherwise the same non-empty text |
| Js.NumOrNull | src/services/supabaseService.ts:342 | `o \|\| null` on a number: null exactly when absent, 0 or NaN, otherwise the same non-zero value |
| Js.NumOr | src/components/GestionFinanciera.tsx:98 | `n \|\| 0`: a truthy number is kept, anything else gives the fallback |
| Js.TrimStart | src/components/GestionGastos.tsx:84 | drops exactly the leading white space: the result is a suffix, everything dropped is space, and it starts with a non-space |
| Js.TrimEnd | src/components/GestionGastos.tsx:84 | drops exactly the trailing white space: the result is a prefix, everything dropped is space, and it ends with a non-space |
| Js.TrimEmptyIffBlank | src/components/GestionCategorias.tsx:19 | `!s.trim()` holds exactly when every character is white space; otherwise the trimmed text starts and ends with a non-space and is no longer than `s` |
| Js.TrimIdempotent | src/components/FormularioDeuda.tsx:32 | trimming an already trimmed text changes nothing |
| Js.ContainsAt | src/components/GestionGastos.tsx:116 | an occurrence at any position makes `includes` true |
| Js.ContainsWitness | src/components/GestionGastos.tsx:116 | when `includes` is true, it yields a position where the text occurs |
| Js.ContainsInside | src/components/GestionGastos.tsx:116 | a text found in `b` is found in any text built around `b` |
| Js.ContainsPiece | src/components/GestionGastos.tsx:116 | each piece of a concatenation is found in it |
| Js.ContainsNeedsChar | src/components/GestionGastos.tsx:116 | `includes` needs every character of the searched text, so a missing character rules it out |
| Lists.IdsMember | src/App.tsx:76 | an id is in the list's id set exactly when some position carries it |
| Lists.UpdateById | src/App.tsx:124-134 | same length; each element with the id becomes `{ ...f(x), id }`, every other element stays in place |
| Lists.UpdateByIdKeepsIds | src/App.tsx:124-134 | updating by id keeps the set of ids, and keeps it duplicate-free |
| Lists.ReplaceByIdShape | src/App.tsx:75-77 | replacing by id keeps length, positions and ids; elements with the id become the new value under that id, others are unchanged |
| Lists.UpdateByIdNoMatch | src/App.tsx:91-93 | with no element carrying the id, the list is unchanged |
| Lists.RemoveById | src/App.tsx:79-81 | the length never grows; every survivor comes from the list and lacks the id; every element with another id survives |
| Lists.RemoveByIdConcat | src/App.tsx:95-97 | filtering distributes over concatenation, so the survivors keep their relative order |
| Lists.RemoveByIdNoMatch | src/App.tsx:95-97 | with no element carrying the id, the list is unchanged |
| Lists.RemoveByIdAt | src/App.tsx:137-139 | with distinct ids and the id at position k, the result is the list without position k, one shorter |
| Lists.RemoveByIdKeepsDistinct | src/App.tsx:137-139 | the id set loses exactly that id, and distinct ids stay distinct |
| Lists.AppendFreshKeepsDistinct | src/App.tsx:35-41 | appending under a fresh id keeps ids distinct and adds exactly that id |
| Lists.FilterIndexFrom | src/App.tsx:110 | the positional filter drops exactly the in-range position and otherwise returns the list |
| Lists.FilterIndexShape | src/App.tsx:109-111 | deleting an in-range position removes exactly that position (length − 1); any other index leaves the list as it was |
| Lists.AppendNewKeepsDistinct | src/App.tsx:99-101 | appending an absent entry keeps the list duplicate-free |
| Lists.OverwriteKeepsDistinct | src/App.tsx:103-107 | overwriting one position with a value found nowhere else keeps the list duplicate-free |
| Lists.FilterIndexKeepsDistinct | src/App.tsx:109-111 | deleting a position keeps the list duplicate-free |
| App.CategoriasInicialesUnicas | src/App.tsx:24-33 | the initial list is eight distinct categories, and its first entry is the expense form's preselected category |
| App.Crear | src/App.tsx:113-121 | a new goal keeps the given fields and starts with `completado = false` and `progreso = 0`, which is coherent unless its target is a number <= 0 |
| App.ConProgreso | src/App.tsx:124-134 | the updated goal has the new progress, its flag is `progreso >= cantidad` (false for a NaN target), and nothing else changes |
| App.ActualizarProgresoForma | src/App.tsx:123-135 | a progress update keeps the length, the ids and every other goal; each goal with the id gets the progress, the flag `progreso >= cantidad` and its old other fields |
| App.ReglaDelServicioDifiere | src/App.tsx:130 | against `updateProgresoObjetivo`: a target of 50 with progress 60 is completed here and not there; a target of 200 with progress 150 the other way round |
| App.ReglasCoincidenConMetaCien | src/App.tsx:130 | the two completion rules agree on every progress value exactly when the target is 100 |
| App.CoherenciaAlCrear | src/App.tsx:113-121 | adding a new goal keeps every goal's flag coherent with its progress |
| App.CoherenciaAlActualizar | src/App.tsx:123-135 | a progress update keeps every goal's flag coherent with its progress |
| App.CoherenciaAlEliminar | src/App.tsx:137-139 | deleting a goal keeps the remaining goals' flags coherent |
| App.EtiquetaTrasActualizar | src/App.tsx:123-135 | after an update against a positive target, the card shows "Completado" exactly when the progress reached it; otherwise it shows at most 100% and the progress input |
| App.Screen.constructor | src/App.tsx:17-33 | all lists empty, categories the eight defaults, and the invariant holds |
| App.Screen.NuevoGasto | src/App.tsx:35-41 | appends one expense under the fresh id at the end; every other list unchanged; invariant kept |
| App.Screen.NuevoAhorro | src/App.tsx:43-49 | appends one saving under the fresh id; nothing else changes |
| App.Screen.NuevaInversion | src/App.tsx:51-57 | appends one investment under the fresh id; nothing else changes |
| App.Screen.NuevaDeuda | src/App.tsx:59-65 | appends one debt under the fresh id; nothing else changes |
| App.Screen.NuevaTarjeta | src/App.tsx:67-73 | appends one card under the fresh id; nothing else changes |
| App.Screen.EditarTarjeta | src/App.tsx:75-77 | cards replaced by id; nothing else changes; ids stay distinct |
| App.Screen.EliminarTarjeta | src/App.tsx:79-81 | cards with the id filtered out; nothing else changes |
| App.Screen.NuevoBanco | src/App.tsx:83-89 | appends one bank under the fresh id; nothing else changes |
| App.Screen.EditarBanco | src/App.tsx:91-93 | banks replaced by id; nothing else changes |
| App.Screen.EliminarBanco | src/App.tsx:95-97 | banks with the id filtered out; nothing else changes |
| App.Screen.NuevaCategoria | src/App.tsx:99-101 | appends the category at the end; nothing else changes |
| App.Screen.EditarCategoria | src/App.tsx:103-107 | overwrites exactly position `index`, same length; nothing else changes |
| App.Screen.EliminarCategoria | src/App.tsx:109-111 | drops exactly position `index` (any other index: no change); nothing else changes |
| App.Screen.NuevoObjetivo | src/App.tsx:113-121 | appends the new goal (not completed, no progress) under the fresh id; flags stay coherent |
| App.Screen.ActualizarProgresoObjetivo | src/App.tsx:123-135 | goals updated by id with the new progress and flag; nothing else changes; ids and coherence kept |
| App.Screen.EliminarObjetivo | src/App.tsx:137-139 | goals with the id filtered out; nothing else changes |
| FormularioGasto.Validar | src/components/FormularioGasto.tsx:35-62 | empty amount or description refused (no trim, no positivity); card payment needs a card id and transfer a bank id; the expense has `tipo = gasto`, `Number(cantidad)`, the picked card id exactly under card payment and the picked bank id exactly under transfer, never both |
| FormularioGasto.ValidarAlcanzaTodo | src/components/FormularioGasto.tsx:53-62 | every well-formed expense is emitted by the form filled in from it |
| FormularioGasto.CambioDeTipoExigeReferencia | src/components/FormularioGasto.tsx:43-51 | after the payment selector clears both ids, card or transfer payment is refused until a reference is picked |
| FormularioGasto.Component.constructor | src/components/FormularioGasto.tsx:12-20 | the form starts at its defaults ('Alimentación', cash, empty ids) |
| FormularioGasto.Component.HandleSubmit | src/components/FormularioGasto.tsx:35-72 | emits the validated expense and resets the form on acceptance; on refusal nothing changes |
| FormularioGasto.Component.CambiarTipoPago | src/components/FormularioGasto.tsx:135 | sets the payment type and clears both ids |
| FormularioAhorro.Validar | src/components/FormularioAhorro.tsx:22-42 | empty amount or description refused; transfer needs a bank; the picked bank id exactly under transfer, none otherwise; `meta` is absent exactly when empty, else `Number(meta)` |
| FormularioAhorro.ValidarAlcanzaTodo | src/components/FormularioAhorro.tsx:35-42 | every well-formed saving is emitted by the form filled in from it |
| FormularioAhorro.Component.constructor | src/components/FormularioAhorro.tsx:11-18 | the form starts empty with cash selected |
| FormularioAhorro.Component.HandleSubmit | src/components/FormularioAhorro.tsx:22-51 | emits the validated saving and resets the form on acceptance; refusal changes nothing |
| FormularioAhorro.Component.CambiarTipoAhorro | src/components/FormularioAhorro.tsx:96 | sets the saving type and clears the bank id |
| FormularioInversion.Validar | src/components/FormularioInversion.tsx:30-57 | empty description or price refused; the bank check runs before the price parse; a NaN or non-positive price is refused; an emitted price is positive; the picked bank id exactly under transfer, none otherwise; the expected return is absent exactly when empty |
| FormularioInversion.PrecioNoPositivoNuncaSeEmite | src/components/FormularioInversion.tsx:43-47 | a price that parses to NaN or ≤ 0 is never emitted |
| FormularioInversion.ValidarAlcanzaTodo | src/components/FormularioInversion.tsx:49-57 | every well-formed investment is emitted by the form filled in from it |
| FormularioInversion.Component.constructor | src/components/FormularioInversion.tsx:11-19 | the form starts at 'acciones' and cash |
| FormularioInversion.Component.HandleSubmit | src/components/FormularioInversion.tsx:30-67 | emits the validated investment and resets to 'acciones'/cash on acceptance; refusal changes nothing |
| FormularioInversion.Component.CambiarTipoPago | src/components/FormularioInversion.tsx:129 | sets the payment method and clears the bank id |
| FormularioDeuda.Validar | src/components/FormularioDeuda.tsx:17-36 | blank description, empty price or empty due date refused; NaN or ≤ 0 price refused; the description is trimmed, the price positive, the date passed through, the interest absent exactly when empty |
| FormularioDeuda.ValidarAlcanzaTodo | src/components/FormularioDeuda.tsx:31-36 | every well-formed debt is emitted by the form holding its fields |
| FormularioDeuda.Component.constructor | src/components/FormularioDeuda.tsx:10-15 | the form starts empty |
| FormularioDeuda.Component.HandleSubmit | src/components/FormularioDeuda.tsx:17-44 | on acceptance the debt goes to `onAgregar` once and the form is cleared; refusal changes nothing |
| PlanificacionMensual.Validar | src/components/PlanificacionMensual.tsx:29-43 | empty description or target refused; month, year, type and description passed unchanged, target `Number(cantidad)` |
| PlanificacionMensual.ValidarAlcanzaTodo | src/components/PlanificacionMensual.tsx:32-43 | any goal with a description is emitted, whatever its target (no positivity check) |
| PlanificacionMensual.Round | src/components/PlanificacionMensual.tsx:224 | `Math.round` lands within half a unit of its argument |
| PlanificacionMensual.Mostrar | src/components/PlanificacionMensual.tsx:218-225 | "Completado" exactly for completed goals, otherwise the ratio rounded to within half a unit |
| PlanificacionMensual.Ancho | src/components/PlanificacionMensual.tsx:232 | the bar width never exceeds 100, equals 100 exactly when progress reaches the target, equals the ratio below it, and is not negative for non-negative progress |
| PlanificacionMensual.RatioReachesHundred | src/components/PlanificacionMensual.tsx:224 | the ratio reaches 100 exactly when progress reaches the target |
| PlanificacionMensual.PorcentajeAlLlegar | src/components/PlanificacionMensual.tsx:224 | progress equal to the target shows 100% |
| PlanificacionMensual.PorcentajeBajoLaMeta | src/components/PlanificacionMensual.tsx:224 | below the target the shown percentage is at most 100 |
| PlanificacionMensual.ProgresoEnviado | src/components/PlanificacionMensual.tsx:244-249 | a progress value is forwarded exactly when it is `>= 0` (so never NaN) |
| PlanificacionMensual.Component.constructor | src/components/PlanificacionMensual.tsx:14-21 | the form starts at the current month and year, hidden |
| PlanificacionMensual.Component.HandleSubmit | src/components/PlanificacionMensual.tsx:29-54 | on acceptance the goal is emitted, the form reset and hidden; refusal changes nothing |
| GestionTarjetas.Construir | src/components/GestionTarjetas.tsx:34-48 | refused exactly when one of the five fields is empty; otherwise name and bank verbatim, the three numbers through `Number` |
| GestionTarjetas.CargarConstruirIdaYVuelta | src/components/GestionTarjetas.tsx:63-70 | loading a card into the form and building it again gives back the same card, when `Number` reads back what `toString` wrote |
| GestionTarjetas.Component.constructor | src/components/GestionTarjetas.tsx:14-22 | hidden, not editing, empty form |
| GestionTarjetas.Component.HandleSubmit | src/components/GestionTarjetas.tsx:34-61 | refusal changes nothing and fires no callback; otherwise exactly one of `onEditar(editando, card)` (edit mode ends) and `onAgregar(card)` (form hidden), then the form is cleared |
| GestionTarjetas.Component.LimpiarFormulario | src/components/GestionTarjetas.tsx:24-32 | clears the form and nothing else |
| GestionTarjetas.Component.IniciarEdicion | src/components/GestionTarjetas.tsx:63-73 | loads the card, holds its id, shows the form |
| GestionTarjetas.Component.Cancelar | src/components/GestionTarjetas.tsx:150-154 | hides the form, leaves edit mode, clears the form |
| GestionTarjetas.EditarSinCambios | src/components/GestionTarjetas.tsx:50-73 | editing a card and saving it untouched calls `onEditar` with the same card under its own id |
| GestionBancos.Construir | src/components/GestionBancos.tsx:30-42 | refused exactly when name or type is empty; an empty account number becomes absent |
| GestionBancos.CargarConstruirIdaYVuelta | src/components/GestionBancos.tsx:57-65 | loading a bank and building it again gives it back exactly when its name and type are non-empty and its account number is not the empty text, which comes back absent |
| GestionBancos.Component.constructor | src/components/GestionBancos.tsx:14-20 | hidden, not editing, form `{'', 'ahorro', ''}` |
| GestionBancos.Component.HandleSubmit | src/components/GestionBancos.tsx:30-55 | refusal changes nothing; otherwise exactly one of `onEditar` (edit mode ends) and `onAgregar` (form hidden), then the form returns to `{'', 'ahorro', ''}` |
| GestionBancos.Component.LimpiarFormulario | src/components/GestionBancos.tsx:22-28 | resets the form and nothing else |
| GestionBancos.Component.IniciarEdicion | src/components/GestionBancos.tsx:57-65 | loads the bank (missing account number as ''), holds its id, shows the form |
| GestionBancos.Component.Cancelar | src/components/GestionBancos.tsx:121-124 | hides the form, leaves edit mode, resets the form |
| GestionCategorias.ValidarNueva | src/components/GestionCategorias.tsx:17-26 | a blank name is refused; then a name already listed (exact, untrimmed, case-sensitive); otherwise accepted |
| GestionCategorias.ValidarEdicion | src/components/GestionCategorias.tsx:33-41 | a blank draft is refused; otherwise a listed name other than the current entry is refused; an accepted draft appears at no other position except copies of the current entry |
| GestionCategorias.AgregarConservaUnicidad | src/components/GestionCategorias.tsx:23-27 | an accepted addition keeps a duplicate-free list duplicate-free |
| GestionCategorias.EditarConservaUnicidad | src/components/GestionCategorias.tsx:38-42 | an accepted rename keeps a duplicate-free list duplicate-free |
| GestionCategorias.Component.constructor | src/components/GestionCategorias.tsx:13-15 | empty draft, not editing, empty edit draft |
| GestionCategorias.Component.HandleSubmit | src/components/GestionCategorias.tsx:17-30 | on acceptance `onAgregar` gets the untrimmed text and the draft is cleared; refusal changes nothing |
| GestionCategorias.Component.HandleEditar | src/components/GestionCategorias.tsx:32-50 | a click on another entry enters edit mode with the draft set to that entry; a click on the edited entry commits an accepted draft (edit mode off, draft '') or changes nothing |
| GestionGastos.Validar | src/components/GestionGastos.tsx:53-91 | the five guards in order (blank description, empty or ≤ 0 price, blank category, card without card id, transfer without bank id) as if-and-only-ifs; the record has trimmed description and category and empty ids absent |
| GestionGastos.ValidarAlcanzaTodo | src/components/GestionGastos.tsx:83-91 | every well-formed record is produced by the draft filled in from it |
| GestionGastos.UnaSolaReferencia | src/components/GestionGastos.tsx:185-190 | from a draft kept coherent by the selector, the record carries exactly the reference its payment type calls for |
| GestionGastos.ServicioRechazaValidado | src/components/GestionGastos.tsx:63-66 | a record that passed the guards is refused by `createGasto`'s field check exactly when its price is NaN or its date empty |
| GestionGastos.Mensaje | src/components/GestionGastos.tsx:112 | the shown message is never empty and is the error's own message when it has one |
| GestionGastos.Respuesta | src/components/GestionGastos.tsx:95-119 | after the guards: registered exactly when the probe succeeds, the service's field check passes and the insert returns a row (that row); each failure's message, with a reload exactly when it contains 'conexión', which a failed probe always does |
| GestionGastos.Resultado | src/components/GestionGastos.tsx:53-119 | a guard refusal never reaches the service; a registered expense is the inserted row; a failure asks for a reload exactly when its message contains 'conexión', which it does whenever the probe failed, and not on a failed field check or missing row |
| GestionGastos.Component.constructor | src/components/GestionGastos.tsx:7-27 | empty list, default draft |
| GestionGastos.Component.Enviar | src/components/GestionGastos.tsx:55-95 | the part before the `await`: the guards' verdict, and when they pass a pending call holding the sent record and the list as it is now; nothing changes |
| GestionGastos.Component.Resolver | src/components/GestionGastos.tsx:97-119 | the continuation: a registered expense goes in front of the captured list (not the current one) and the draft is reset; a failure changes nothing |
| GestionGastos.Component.HandleSubmit | src/components/GestionGastos.tsx:53-119 | with no other submission in flight: a registered expense is prepended to the current list and the draft reset; refusal or failure leaves list and draft unchanged |
| GestionGastos.EnvioDoble | src/components/GestionGastos.tsx:95-97 | two overlapping submissions of the same draft both register, and the list ends as the second row in front of the original list, so the first row is not shown |
| GestionGastos.Component.CambiarTipoPago | src/components/GestionGastos.tsx:185-190 | sets the payment type and clears both ids |
| GestionGastos.Component.ElegirTarjeta | src/components/GestionGastos.tsx:199-204 | sets the card id (picker shown only under card payment) |
| GestionGastos.Component.ElegirBanco | src/components/GestionGastos.tsx:217-222 | sets the bank id (picker shown only under transfer) |
| GestionFinanciera.ValidarBanco | src/components/GestionFinanciera.tsx:44-60 | a blank name is refused; an empty or negative balance is refused (0 and NaN pass); the object carries the untrimmed name and the parsed balance |
| GestionFinanciera.SaldoCeroAceptado | src/components/GestionFinanciera.tsx:52-55 | a zero balance is accepted |
| GestionFinanciera.ValidarBancoAlcanzaTodo | src/components/GestionFinanciera.tsx:47-60 | every bank object the guards allow comes from some draft |
| GestionFinanciera.ValidarTarjeta | src/components/GestionFinanciera.tsx:71-101 | blank name, then no bank, then an empty or ≤ 0 limit, then a missing day refused, each as an if-and-only-if; the balance is the parsed value when truthy, else 0 |
| GestionFinanciera.SaldoNoDecideTarjeta | src/components/GestionFinanciera.tsx:74-98 | the balance field never decides acceptance |
| GestionFinanciera.ValidarTarjetaAlcanzaTodo | src/components/GestionFinanciera.tsx:74-101 | every card object the guards allow comes from some draft |
| GestionFinanciera.Component.constructor | src/components/GestionFinanciera.tsx:7-21 | empty lists and drafts |
| GestionFinanciera.BancoEnviado | src/components/GestionFinanciera.tsx:57-60 | the row inserted for an accepted bank is its name with empty last digits: the typed balance never reaches `createBanco`'s insert |
| GestionFinanciera.Component.EnviarBanco | src/components/GestionFinanciera.tsx:47-60 | before the `await`: the guards' verdict and, when they pass, the pending call with `{nombre}` as argument and the list as it is now; nothing changes |
| GestionFinanciera.Component.ResolverBanco | src/components/GestionFinanciera.tsx:57-68 | the continuation: `createBanco`'s result, a `null` row included, is appended to the captured list and the draft cleared; a thrown error changes nothing |
| GestionFinanciera.Component.HandleSubmitBanco | src/components/GestionFinanciera.tsx:44-69 | with no other submission in flight: the stored row is appended at the end, a `null` answer is appended as a `null` entry, the draft is cleared; a refusal or backend error changes nothing |
| GestionFinanciera.Component.EnviarTarjeta | src/components/GestionFinanciera.tsx:74-101 | before the `await`: the guards' verdict and the pending card with the list as it is now; nothing changes |
| GestionFinanciera.Component.ResolverTarjeta | src/components/GestionFinanciera.tsx:103-116 | the continuation: the returned card is appended to the captured list and the draft cleared; when the call threw nothing changes |
| GestionFinanciera.Component.HandleSubmitTarjeta | src/components/GestionFinanciera.tsx:71-117 | with no other submission in flight: a returned card is appended at the end and the draft cleared; otherwise nothing changes |
| GestionFinanciera.Component.EnviarBajaTarjeta | src/components/GestionFinanciera.tsx:119-121 | before the `await`: the id and the list as it is now |
| GestionFinanciera.Component.ResolverBajaTarjeta | src/components/GestionFinanciera.tsx:122-127 | the continuation: once the delete resolved, the list becomes the captured one without that id |
| GestionFinanciera.Component.HandleDeleteTarjeta | src/components/GestionFinanciera.tsx:119-128 | with no other call in flight: the cards with the id leave the list only once the delete resolved; no id is added |
| GestionFinanciera.AltaBancoDoble | src/components/GestionFinanciera.tsx:57-62 | two overlapping bank submissions both insert, and the list ends as the original plus the second row only |
| GestionFinanciera.BajasSolapadas | src/components/GestionFinanciera.tsx:121-122 | of two overlapping deletes of different cards, the first card is gone after its own continuation but is back in the list after the second |
| SupabaseService.Envolver | src/services/supabaseService.ts:210 | the rethrown message is the prefix followed by the message, or by 'Error desconocido' when it is empty |
| SupabaseService.SinEnvolver | src/services/supabaseService.ts:348-349 | the backend error is rethrown unchanged; a returned row, or null, is passed through |
| SupabaseService.FilaBanco | src/services/supabaseService.ts:67-70 | only the name and the last digits (default '') are sent |
| SupabaseService.CreateBanco | src/services/supabaseService.ts:64-80 | one insert, no check, error rethrown as is |
| SupabaseService.FilaTarjeta | src/services/supabaseService.ts:175-183 | `banco_id` is taken from `banco`; a missing, 0 or NaN balance is sent as 0; missing last digits as '' |
| SupabaseService.CreateTarjeta | src/services/supabaseService.ts:165-212 | no insert exactly when a day is falsy (0 included); each failure, backend errors included, carries the "Error al crear tarjeta: " prefix; success exactly when the insert returned a row |
| SupabaseService.FilaGasto | src/services/supabaseService.ts:281-289 | the fields as given; absent or empty ids become null |
| SupabaseService.CreateGasto | src/services/supabaseService.ts:264-316 | probe, then field check (falsy description, price, category or date), then insert; an insert happens exactly when both pass; each failure has its own message under the prefix |
| SupabaseService.MensajeFalloGasto | src/services/supabaseService.ts:300-314 | a backend error reaches the caller with its message, code, details and hint, behind the prefix written twice |
| SupabaseService.Piezas | src/services/supabaseService.ts:300 | each part of the composed message is found in it, and the message starts with the prefix twice |
| SupabaseService.SinConexionMencionaConexion | src/services/supabaseService.ts:269 | the probe-failure message contains 'conexión' |
| SupabaseService.FaltanCamposNoMencionaConexion | src/services/supabaseService.ts:276 | the field-check message does not contain 'conexión' |
| SupabaseService.SinRespuestaNoMencionaConexion | src/services/supabaseService.ts:304 | the missing-row message does not contain 'conexión' |
| SupabaseService.FilaAhorro | src/services/supabaseService.ts:337-344 | a 0, NaN or missing goal and an empty or missing bank are sent as null; the rest as given |
| SupabaseService.CreateAhorro | src/services/supabaseService.ts:334-350 | one insert, no check, error rethrown as is |
| SupabaseService.FilaInversion | src/services/supabaseService.ts:371-379 | a 0, NaN or missing expected return and an empty or missing bank are sent as null |
| SupabaseService.CreateInversion | src/services/supabaseService.ts:368-385 | one insert, no check, error rethrown as is |
| SupabaseService.FilaDeuda | src/services/supabaseService.ts:401-406 | a 0, NaN or missing interest is sent as null |
| SupabaseService.CreateDeuda | src/services/supabaseService.ts:398-412 | one insert, no check, error rethrown as is |
| SupabaseService.FilaObjetivo | src/services/supabaseService.ts:430-437 | a 0, NaN or missing progress is sent as null; the flag as given |
| SupabaseService.CreateObjetivoMensual | src/services/supabaseService.ts:427-443 | one insert, no check, error rethrown as is |
| SupabaseService.LlamadasSinComprobacion | src/services/supabaseService.ts:64-80 | `createBanco`, `createAhorro`, `createInversion`, `createDeuda` and `createObjetivoMensual` always insert, rethrow the backend's error unchanged and return the row or `null` as it came |
| SupabaseService.LlamadasConPrefijo | src/services/supabaseService.ts:165-212 | `createTarjeta` and `createGasto` turn a `null` row into an error and throw only texts starting with their own prefix |
| SupabaseService.UpdateProgresoObjetivo | src/services/supabaseService.ts:445-458 | the goal is marked completed exactly when its progress is a number >= 100, whatever its target |

## Left out

- Rendering, `toast` and `console` calls: the model returns which outcome (and, for `GestionGastos`, which message) a handler ended with instead.
- The Supabase client and its query builder: each backend answer (connection probe, insert, delete) is a parameter.
- `verificarConexion` is not modelled: its answer is the `conexionOk` parameter.
- The `get*`, `update*` and `delete*` service functions, and `cargarDatos` with its `Promise.all` and `loading` flag, fetch or write remote data and are I/O: they are not modelled.
- GestionGastos.Component.Resolver: returns the reload decision (`recarga`) but does not perform the reload that `cargarDatos` would do.
- GestionFinanciera.Component.ResolverTarjeta: the appended card is the service's answer, a parameter, not `SupabaseService.CreateTarjeta` applied to the validated card. This is because the form sends `banco_id` and text days while `createTarjeta` reads `banco` and numbers.
- GestionFinanciera.Component.ResolverBajaTarjeta: `deleteTarjeta`'s outcome is the flag `borrada`, because the delete call's internals are not modelled.
- The cross-file type drift between components, the types module and the service is not modelled. Each component is modelled on its own fields. Examples: the debt form's callback name, the `Movimiento` type missing from the types module, the card days' names, and `updateTarjeta`'s `fecha_corte`.
- `crypto.randomUUID` is not modelled: the id is a parameter, and `App.Screen` requires it to be fresh in its list.
- `Date` values are not modelled: dates are the text of the date input, and today's date is a parameter.
- `parseFloat`, `Number` and `toString` are abstract parameters: IEEE floating point, infinities and the exact parse rules are not modelled. Numbers are NaN or an exact real.
- PlanificacionMensual.Round takes `Math.round` as rounding half up over exact reals.
- PlanificacionMensual.Mostrar and PlanificacionMensual.Ancho require a positive target. The form does not guarantee one, and JavaScript's division by zero (Infinity or NaN) is not modelled.
- Js.IsSpace lists the ASCII white space, U+00A0, U+FEFF, U+2028 and U+2029, but not the other Unicode space separators that `trim` also removes.
- App.Screen.EditarCategoria requires an in-range index. A write past the end of a JavaScript array, which would extend it with holes, is not modelled. GestionCategorias only passes indexes of listed entries.
- `handleEliminar` in GestionCategorias only forwards the index to `onEliminar`. The deletion itself is App.Screen.EliminarCategoria.
- Plain text-field `onChange` handlers are not modelled: each sets one field of a draft. The payment and saving type selectors and the card and bank pickers are modelled.
- The day-of-month limits and `min="0"` on number inputs are HTML attributes, not handler rules, and are not modelled.
- Server-filled columns (`created_at`, `updated_at`) are not modelled: returned rows are the inserted fields plus an id.
- The module-load check for the Supabase environment variables is startup configuration and is not modelled.
- The dashboard and the connection-test screen are not modelled: they hold no logic of these kinds.
