# Family-planning field data prototype: a Dafny model of its core

This project models the logic inside a mobile-first React prototype for family-planning data. In it:

- community health auxiliaries tally, month by month, how many women were served with each contraceptive method;
- technical assistants validate those monthly records;
- managers and coordinators set goals and read the dashboards.

Almost all of the prototype is markup and hard-coded sample data. The logic lives in small handlers and helpers inside the screen components, and this model covers those handlers and helpers as they are written.

The code has no review lifecycle: it checks no transition rule, actor permission or terminal state, so any record can be given any status. It keeps no audit log, and its rankings are seeded numbers with no tie-break rule. The model follows the code in all of this.

The model has one Dafny module per source file, plus two shared modules:

- `Base` (`base.dfy`) holds the shared value types: `Option`, badge tones, traffic-light tiers, and the six-category breakdown `Detalle`.
- `JsObject` (`js_object.dfy`) models a plain JavaScript object with string keys. It is an ordered list of entries, because property order is observable through `Object.entries`. `Put` is the spread update `{ ...o, [k]: v }`.
- `App` (`app.dfy`) is the shell. It holds the `AppState` record and its three handlers: navigate, log in, log out. The React state holder is `App.Component`. Its methods are proved to produce exactly the pure transition functions, and the invariant `isAuthenticated <==> user != null` is proved for every reachable state.
- `BottomNavigation` (`bottom_navigation.dfy`) has the per-role item table, the highlight test and the click.
- `PantallaValidacion` (`pantalla_validacion.dfy`) is the validation list.
  - `Component` holds `registros`, the comment draft and the selected record.
  - `UpdateEstadoRegistro` rewrites the status and comment of the records with the given id.
  - The pending counter, the status badge and the toast verb go with it.
  - The code checks no transition rule, so none is modelled: every status can be set from every status.
- `RegistroDatos` (`registro_datos.dfy`) is the monthly tally form.
  - Its counters are clamped at zero.
  - It computes the total and the active-method count.
  - It groups methods by category, in order of first appearance.
  - Saving is refused when nothing was recorded.
- `ConfiguracionMetas` (`configuracion_metas.dfy`) is the goal configuration.
  - Goals are kept per method, and per community with two fields. Both are updated last-write-wins.
  - It holds the general settings and the annual total.
  - Numeric inputs use the `parseInt(...) || 0` fallback.
  - It also chooses the screen the back arrow returns to.
- `HistorialPersonal` (`historial_personal.dfy`) is the personal history.
  - The accumulated total covers every record.
  - The monthly average is `Math.round` of the mean over synchronised records, and 0 when there are none.
  - Records have a status badge, and edit buttons appear only on editable records.
- `DashboardAsistente` (`dashboard_asistente.dfy`) and `DashboardCoordinador` (`dashboard_coordinador.dfy`) hold the threshold colourings and the consistency of their seeded figures.

Integers in the source are JavaScript numbers; the model uses exact unbounded `int` (see "## Left out" for what that does not capture). `Math.round(s / n)` for `n > 0` is modelled exactly as `(2 * s + n) / (2 * n)`, with floor division. `Math.max(0, …)` is `AtLeastZero`.

Some seeded data does not agree with the code that displays it. These are data facts, not code defects:

- The assistant's "Registros Pendientes" card shows 3. The list below it has three records, but only two of them are pendiente (`DashboardAsistente.PendingCounterFacts`).
- The first community's dot is blue, while its coverage text is green (`DashboardAsistente.ComunidadesColours`).
- The two dashboards colour 'rechazado' differently: gray on the assistant's dashboard, red on the validation screen (`DashboardAsistente.RechazadoColouredDifferently`).

## Model

| member | source | states |
|---|---|---|
| App.DashboardForUserType | src/App.tsx:69-82 | each role's home dashboard is a dashboard owned by exactly that role |
| App.DashboardForUserTypeInjective | src/App.tsx:69-82 | distinct roles get distinct home dashboards, none of which is the login screen |
| App.Initial | src/App.tsx:43-47 | the initial state is logged out and consistent (no user, not authenticated) |
| App.Navigated | src/App.tsx:49-51 | navigating sets the screen and leaves user and authentication untouched |
| App.LoggedIn | src/App.tsx:53-59 | logging in stores the user, authenticates, and opens a dashboard owned by the user's role |
| App.LoggedOut | src/App.tsx:61-67 | logging out yields the initial state from any state |
| App.StepPreservesConsistent | src/App.tsx:49-67 | each handler preserves `isAuthenticated <==> user != null` |
| App.RunPreservesConsistent | src/App.tsx:49-67 | any sequence of handler calls preserves the invariant |
| App.ReachableConsistent | src/App.tsx:43-67 | every state reachable from the initial one satisfies the invariant |
| App.LogoutIdempotent | src/App.tsx:61-67 | logging out twice equals logging out once |
| App.LoginScreenKeepsUser | src/App.tsx:49-51 | navigating to the login screen keeps the user logged in |
| App.Component.constructor | src/App.tsx:43-47 | the state holder starts in the initial state |
| App.Component.NavigateToScreen | src/App.tsx:49-51 | the new state is `Navigated` of the old one |
| App.Component.LoginUser | src/App.tsx:53-59 | the new state is `LoggedIn(user)` |
| App.Component.Logout | src/App.tsx:61-67 | the new state is `LoggedOut` of the old one |
| BottomNavigation.NavItemsForUserType | src/components/bottom-navigation.tsx:29-58 | every role has four items and the first leads to that role's home dashboard |
| BottomNavigation.IsActive | src/components/bottom-navigation.tsx:71 | an item is highlighted iff it names the screen being shown |
| BottomNavigation.SharedIdsActiveTogether | src/components/bottom-navigation.tsx:71 | items with the same target are highlighted together |
| BottomNavigation.AsistenteHomeHighlightsTwoItems | src/components/bottom-navigation.tsx:38-44 | on the assistant's dashboard both the Dashboard and the Territorio items are highlighted |
| BottomNavigation.ClickNavigatesToItem | src/components/bottom-navigation.tsx:77 | after a click the clicked item is highlighted, and exactly the items leading to the same screen are |
| BottomNavigation.ScreenVisibilityByRole | src/components/bottom-navigation.tsx:31-58 | validation only for asistente, data entry only for auxiliar, configuration only for encargado and coordinador |
| PantallaValidacion.EstadoBadge | src/components/pantalla-validacion.tsx:101-109 | the four status codes map to yellow Pendiente, blue En Revisión, green Aprobado and red Rechazado; any other string to the pending style |
| PantallaValidacion.EstadoBadgeFallback | src/components/pantalla-validacion.tsx:101-109 | a string that is no status code, and no name every object inherits, gets the pending style |
| PantallaValidacion.EstadoBadgeDistinguishesStates | src/components/pantalla-validacion.tsx:101-109 | the four statuses have four different badges |
| PantallaValidacion.Accion | src/components/pantalla-validacion.tsx:118-119 | the toast verb is the status for aprobado and rechazado, "marcado para revisión" otherwise |
| PantallaValidacion.PendingCount | src/components/pantalla-validacion.tsx:284 | the number of records whose status is pendiente |
| PantallaValidacion.UpdateEstado | src/components/pantalla-validacion.tsx:112-116 | the updated list has the length of the old one |
| PantallaValidacion.UpdateEstadoFrame | src/components/pantalla-validacion.tsx:111-116 | records with the id take the new status and the draft as comment and keep every other field; other records are unchanged |
| PantallaValidacion.UpdateEstadoAbsentId | src/components/pantalla-validacion.tsx:112-116 | an id that is not present leaves the list unchanged |
| PantallaValidacion.AnyStatusReachable | src/components/pantalla-validacion.tsx:111-116 | any record can be given any status: the code has no transition guard |
| PantallaValidacion.HasComentarios | src/components/pantalla-validacion.tsx:324-328 | the "Tiene comentarios" line shows iff the record carries a non-empty comment |
| PantallaValidacion.NonEmptyDraftShowsComment | src/components/pantalla-validacion.tsx:111-116 | an update with a non-empty draft stores that draft as the comment, so the line shows |
| PantallaValidacion.EmptyDraftErasesComment | src/components/pantalla-validacion.tsx:111-116 | an empty draft overwrites an earlier comment |
| PantallaValidacion.DetailActions | src/components/pantalla-validacion.tsx:226-249 | the detail view offers approve, review and reject, and never pendiente, whatever the record's status |
| PantallaValidacion.ListActions | src/components/pantalla-validacion.tsx:226-358 | the list offers the three actions exactly for pendiente records, the same three the detail view offers for every record |
| PantallaValidacion.PendingCountAfterUpdate | src/components/pantalla-validacion.tsx:111-116 | the pending count changes by the records with the id that become or stop being pendiente |
| PantallaValidacion.UniqueIdCounts | src/components/pantalla-validacion.tsx:46-99 | with unique ids, an id names one record and counts as pending iff that record is |
| PantallaValidacion.AbsentIdCounts | src/components/pantalla-validacion.tsx:112-116 | an absent id counts no records |
| PantallaValidacion.ResolvingPendingLowersCount | src/components/pantalla-validacion.tsx:284 | moving a pendiente record to another status lowers the pending badge by exactly one |
| PantallaValidacion.NonPendingUpdateKeepsCount | src/components/pantalla-validacion.tsx:284 | updating a non-pendiente record to a non-pendiente status keeps the badge |
| PantallaValidacion.UpdateEstadoKeepsInvariants | src/components/pantalla-validacion.tsx:111-116 | updates keep ids unique and `usuarias` equal to the breakdown total |
| PantallaValidacion.SeedRegistrosFacts | src/components/pantalla-validacion.tsx:46-99 | the seeded records have unique ids, balanced breakdowns, and two pending |
| PantallaValidacion.Component.constructor | src/components/pantalla-validacion.tsx:44-99 | the screen starts with the seeded records, an empty draft and nothing selected |
| PantallaValidacion.Component.SelectRegistro | src/components/pantalla-validacion.tsx:44 | selecting a record changes only the selection |
| PantallaValidacion.Component.CloseDetalle | src/components/pantalla-validacion.tsx:44 | closing the detail clears only the selection |
| PantallaValidacion.Component.SetComentarios | src/components/pantalla-validacion.tsx:45 | typing changes only the draft |
| PantallaValidacion.Component.UpdateEstadoRegistro | src/components/pantalla-validacion.tsx:111-124 | the records become `UpdateEstado` with the old draft; the draft is cleared, the selection closed, the verb returned, and the invariants kept |
| RegistroDatos.AtLeastZero | src/components/registro-datos.tsx:69 | `Math.max(0, x)` is non-negative, at least `x`, and is `x` or 0 |
| RegistroDatos.CantidadUpdated | src/components/registro-datos.tsx:66-72 | the list keeps its length |
| RegistroDatos.CantidadUpdatedFrame | src/components/registro-datos.tsx:66-72 | methods with the id change only their count (plus one, or minus one clamped at zero); others are unchanged |
| RegistroDatos.UpdateKeepsNonNegative | src/components/registro-datos.tsx:66-72 | an update keeps every count non-negative |
| RegistroDatos.UpdateKeepsIds | src/components/registro-datos.tsx:66-72 | a press keeps every position's id, so unique ids stay unique |
| RegistroDatos.UpdateAbsentId | src/components/registro-datos.tsx:66-72 | a press for an id no method has changes nothing |
| RegistroDatos.ApplyAllKeepsNonNegative | src/components/registro-datos.tsx:39-72 | any sequence of button presses keeps every count non-negative |
| RegistroDatos.DecrementAtZeroIsNoOp | src/components/registro-datos.tsx:169-178 | lowering a method whose minus button is disabled changes nothing |
| RegistroDatos.MinusEnabled | src/components/registro-datos.tsx:174 | the minus button is enabled iff the count is not zero |
| RegistroDatos.TotalUsuarias | src/components/registro-datos.tsx:74-76 | `getTotalUsuarias`: the sum of the counts |
| RegistroDatos.TotalPointChange | src/components/registro-datos.tsx:74-76 | lists that differ in one count differ in total by that count's difference |
| RegistroDatos.TotalSameCounts | src/components/registro-datos.tsx:74-76 | lists with the same counts have the same total |
| RegistroDatos.TotalAfterUpdate | src/components/registro-datos.tsx:66-76 | with unique ids, increment adds one to the total and decrement subtracts one exactly when the count was positive |
| RegistroDatos.MetodosActivos | src/components/registro-datos.tsx:216 | the number of methods with a positive count |
| RegistroDatos.MetodosActivosBounds | src/components/registro-datos.tsx:216 | the active-method count is at most the total and at most the number of methods |
| RegistroDatos.TotalZeroIffAllZero | src/components/registro-datos.tsx:74-76 | with non-negative counts the total is non-negative, and 0 exactly when every count is 0 |
| RegistroDatos.HandleSaveRegistro | src/components/registro-datos.tsx:86-98 | saving is refused iff the total is 0; otherwise it reports the total and returns to the auxiliary's dashboard |
| RegistroDatos.SaveEnabled | src/components/registro-datos.tsx:231 | the save button is enabled iff the total is not zero |
| RegistroDatos.SaveRefusedIffNothingRecorded | src/components/registro-datos.tsx:228-232 | refusal happens exactly when every count is 0, and the button is enabled exactly when saving succeeds |
| RegistroDatos.FirstIndex | src/components/registro-datos.tsx:79 | the first position of a value in the category column |
| RegistroDatos.Distinct | src/components/registro-datos.tsx:79 | `[...new Set(xs)]`: each value once, kept at its first appearance |
| RegistroDatos.DistinctMembers | src/components/registro-datos.tsx:79 | `[...new Set(xs)]` has exactly the values of `xs` |
| RegistroDatos.DistinctNoDuplicates | src/components/registro-datos.tsx:79 | each category appears once |
| RegistroDatos.DistinctFirstAppearance | src/components/registro-datos.tsx:79 | categories come in order of first appearance |
| RegistroDatos.Filter | src/components/registro-datos.tsx:82 | the methods of one category, in list order |
| RegistroDatos.FilterMembers | src/components/registro-datos.tsx:82 | a group holds exactly the methods of its category |
| RegistroDatos.FilterConcat | src/components/registro-datos.tsx:82 | filtering keeps the original order |
| RegistroDatos.MetodosPorCategoria | src/components/registro-datos.tsx:78-84 | `getMetodosPorCategoria`: one group per distinct category, holding that category's methods |
| RegistroDatos.GruposWellFormed | src/components/registro-datos.tsx:78-84 | groups have distinct categories in first-appearance order, and each is non-empty and holds only its category |
| RegistroDatos.EveryMetodoInExactlyOneGrupo | src/components/registro-datos.tsx:78-84 | every method lies in exactly one group, the one of its category |
| RegistroDatos.InitialMetodosFacts | src/components/registro-datos.tsx:39-64 | the form starts with 13 methods, all counts zero, total zero |
| RegistroDatos.InitialIdColumn | src/components/registro-datos.tsx:39-64 | the id column of the seed, as listed |
| RegistroDatos.InitialUniqueIds | src/components/registro-datos.tsx:39-64 | the thirteen seeded methods have thirteen different ids |
| RegistroDatos.InitialCategoriaColumn | src/components/registro-datos.tsx:39-64 | the category column of the initial methods, in order |
| RegistroDatos.DistinctSnoc | src/components/registro-datos.tsx:79 | appending a value adds it to the distinct list iff it is new |
| RegistroDatos.InitialCategorias | src/components/registro-datos.tsx:39-84 | the initial methods form six groups |
| RegistroDatos.Component.constructor | src/components/registro-datos.tsx:39-64 | the form starts with the initial methods, non-negative counts and unique ids |
| RegistroDatos.SeedMetodos | src/components/registro-datos.tsx:39-64 | proof helper without a counterpart in the source: hands the seed list to the constructor with non-negative counts and unique ids |
| RegistroDatos.Component.UpdateCantidad | src/components/registro-datos.tsx:66-76 | the methods become `CantidadUpdated` of the old ones, keep non-negative counts and unique ids; a press on a listed method moves the total by +1, by -1, or (minus at zero) not at all, and a press on an unknown id changes nothing |
| JsObject.Get | src/components/configuracion-metas.tsx:63 | property access finds a value iff the key is present, and the value is stored under it |
| JsObject.Put | src/components/configuracion-metas.tsx:57 | the spread update keeps the size for an existing key and grows by one for a new key |
| JsObject.PutGet | src/components/configuracion-metas.tsx:57 | the written key reads back as the new value |
| JsObject.PutOther | src/components/configuracion-metas.tsx:57 | every other key reads as before |
| JsObject.PutKeys | src/components/configuracion-metas.tsx:57 | an existing key keeps its place in `Object.entries`; a new key goes last |
| JsObject.PutUniqueKeys | src/components/configuracion-metas.tsx:57 | the update creates no duplicate key |
| JsObject.PutEntries | src/components/configuracion-metas.tsx:57 | the result holds only old entries and the written one |
| JsObject.PutPut | src/components/configuracion-metas.tsx:56-58 | last write wins |
| JsObject.Sum | src/components/configuracion-metas.tsx:133 | the sum of the object's values, in property order |
| JsObject.SumAfterPut | src/components/configuracion-metas.tsx:133 | writing `v` at `k` changes the annual total by `v` minus the old value (0 for a new key) |
| JsObject.PutAbsentAppends | src/components/configuracion-metas.tsx:63 | writing an absent key appends exactly that entry |
| ConfiguracionMetas.CampoKey | src/components/configuracion-metas.tsx:60 | a community field is `poblacionMEF` or `meta` |
| ConfiguracionMetas.OrZero | src/components/configuracion-metas.tsx:122 | the `parseInt` fallback to 0 (also at lines 160, 169, 226 and 241) is 0 exactly for NaN and 0, and keeps every other number, negative ones included |
| ConfiguracionMetas.MetaPorComunidadUpdated | src/components/configuracion-metas.tsx:60-65 | the communities keep their order; a new community goes last |
| ConfiguracionMetas.MetaPorComunidadFrame | src/components/configuracion-metas.tsx:60-65 | the edited field reads back as the new value; the community's other field and all other communities are unchanged |
| ConfiguracionMetas.MetaPorComunidadAbsent | src/components/configuracion-metas.tsx:63 | editing an absent community creates it with that single field |
| ConfiguracionMetas.MetaPorComunidadKeepsWellFormed | src/components/configuracion-metas.tsx:60-65 | the edit keeps community names and field names unique |
| ConfiguracionMetas.InitialTotalMetaAnual | src/components/configuracion-metas.tsx:27-34 | the initial method goals total 2100, the figure in the change log, listed in declaration order |
| ConfiguracionMetas.Component.TotalMetaAnual | src/components/configuracion-metas.tsx:133 | the "Total Meta Anual" figure: the sum of the per-method goals (its change under an update is stated by `UpdateMetaPorMetodo`) |
| ConfiguracionMetas.ReturnScreen | src/components/configuracion-metas.tsx:71-74 | the coordinador's dashboard iff the user is a coordinador, the encargado's dashboard otherwise |
| ConfiguracionMetas.NavUserType | src/components/configuracion-metas.tsx:292 | the bottom bar uses the user's role when there is a user, and encargado when there is none |
| ConfiguracionMetas.ReturnScreenIsHomeOnlyForManagers | src/components/configuracion-metas.tsx:71-74 | the back arrow leads to the bar role's home exactly for encargado and coordinador |
| ConfiguracionMetas.Component.constructor | src/components/configuracion-metas.tsx:27-48 | the three pieces of state start at their seeded values |
| ConfiguracionMetas.Component.UpdateMetaPorMetodo | src/components/configuracion-metas.tsx:56-58 | only the method goal changes, by spread update, and the total moves by the difference |
| ConfiguracionMetas.Component.UpdateMetaPorComunidad | src/components/configuracion-metas.tsx:60-65 | only the community goals change, as `MetaPorComunidadUpdated` |
| ConfiguracionMetas.Component.SetAlertasCumplimiento | src/components/configuracion-metas.tsx:199-203 | the toggle changes only its own setting |
| ConfiguracionMetas.Component.SetNotificacionesSync | src/components/configuracion-metas.tsx:212-216 | the toggle changes only its own setting |
| ConfiguracionMetas.Component.SetUmbralCritico | src/components/configuracion-metas.tsx:222-229 | the critical threshold becomes `OrZero` of the input; nothing else changes |
| ConfiguracionMetas.Component.SetUmbralAlerta | src/components/configuracion-metas.tsx:237-244 | the alert threshold becomes `OrZero` of the input; nothing else changes |
| HistorialPersonal.EstadoBadge | src/components/historial-personal.tsx:121-128 | the three status codes map to green Sincronizado, yellow Pendiente and red Error; any other string to the pending style |
| HistorialPersonal.EstadoBadgeFallback | src/components/historial-personal.tsx:121-128 | a string that is no status code, and no name every object inherits, gets the pending style |
| HistorialPersonal.EstadoBadgeDistinguishesStates | src/components/historial-personal.tsx:121-128 | the three statuses have three different badges |
| HistorialPersonal.TotalUsuarias | src/components/historial-personal.tsx:130-132 | `getTotalAcumulado`: the sum of `totalUsuarias` over the records |
| HistorialPersonal.Synced | src/components/historial-personal.tsx:135 | the synchronised and the unsynchronised records together account for every record |
| HistorialPersonal.SyncedMembers | src/components/historial-personal.tsx:135 | the filter keeps exactly the synchronised records |
| HistorialPersonal.RoundDiv | src/components/historial-personal.tsx:137 | `Math.round(s / n)` is the integer nearest to `s / n`, with halves rounded up |
| HistorialPersonal.TotalAcumuladoSplits | src/components/historial-personal.tsx:130-132 | the accumulated total is the synchronised total plus the unsynchronised total |
| HistorialPersonal.SyncedIdempotent | src/components/historial-personal.tsx:135 | filtering twice equals filtering once |
| HistorialPersonal.PromedioMensual | src/components/historial-personal.tsx:134-138 | `getPromedioMensual`: 0 without synchronised records, else the rounded mean of their totals |
| HistorialPersonal.PromedioIgnoresUnsynced | src/components/historial-personal.tsx:134-138 | unsynchronised records do not affect the average |
| HistorialPersonal.TotalBounds | src/components/historial-personal.tsx:137 | totals in `[lo, hi]` sum to between `lo` and `hi` times the count |
| HistorialPersonal.RoundDivBounds | src/components/historial-personal.tsx:137 | rounding a mean of values in `[lo, hi]` stays in `[lo, hi]` |
| HistorialPersonal.PromedioWithinSyncedRange | src/components/historial-personal.tsx:134-138 | with a synchronised record, the average lies between the smallest and the largest synchronised totals |
| HistorialPersonal.PromedioWithoutSynced | src/components/historial-personal.tsx:134-136 | with no synchronised record, the average is 0 |
| HistorialPersonal.EditActions | src/components/historial-personal.tsx:331-341 | edit buttons exist iff the record is editable, and they open the data entry screen |
| HistorialPersonal.HistorialFacts | src/components/historial-personal.tsx:46-138 | seeded data: total 79, average 21, balanced breakdowns, sync date iff synchronised, a record is editable iff it is record 1 |
| DashboardAsistente.CoverageTier | src/components/dashboard-asistente.tsx:72-76 | green iff coverage is at least 5, yellow iff 1 to 4, red iff below 1 |
| DashboardAsistente.CoverageTierMonotone | src/components/dashboard-asistente.tsx:72-76 | more coverage never gets a worse tier |
| DashboardAsistente.EstadoBadge | src/components/dashboard-asistente.tsx:78-85 | pendiente yellow, revision blue, aprobado green, anything else gray |
| DashboardAsistente.EstadoBadgeGrayIffUnknown | src/components/dashboard-asistente.tsx:78-85 | for strings that are not names every object inherits, gray iff the status is none of pendiente, revision, aprobado |
| DashboardAsistente.RechazadoColouredDifferently | src/components/dashboard-asistente.tsx:78-85 | rechazado is gray here but red on the validation screen; the other statuses agree |
| DashboardAsistente.Territorio | src/components/dashboard-asistente.tsx:31 | the territory is never empty: the user's non-empty territory, else Norte |
| DashboardAsistente.ComunidadesColours | src/components/dashboard-asistente.tsx:34-76 | seeded dots match the coverage tier except the first (blue dot, green text) |
| DashboardAsistente.NuevosShown | src/components/dashboard-asistente.tsx:133 | the "Nuevos" marker shows iff the pending counter is positive |
| DashboardAsistente.NuevosShownIffSomePending | src/components/dashboard-asistente.tsx:133 | fed with the number of pending records, the marker shows iff some record is pending |
| DashboardAsistente.PendingCounterFacts | src/components/dashboard-asistente.tsx:26-70 | the counter 3 shows "Nuevos" and equals the list length, while only 2 listed records are pendiente |
| DashboardCoordinador.PositionColor | src/components/dashboard-coordinador.tsx:51-55 | green iff the position is at most 2, yellow iff 3 or 4, red iff above 4 |
| DashboardCoordinador.PositionBadge | src/components/dashboard-coordinador.tsx:57-61 | the badge tiers: green up to 2, yellow for 3 and 4, red above |
| DashboardCoordinador.PositionColorMatchesBadge | src/components/dashboard-coordinador.tsx:51-61 | text colour and badge agree for every position |
| DashboardCoordinador.PositionTierMonotone | src/components/dashboard-coordinador.tsx:51-61 | a worse position never gets a better tier |
| DashboardCoordinador.CountAbove | src/components/dashboard-coordinador.tsx:31-37 | how many municipalities have a higher compliance: none iff no compliance exceeds the value, all iff every one does |
| DashboardCoordinador.RankOfSorted | src/components/dashboard-coordinador.tsx:31-37 | in a list with strictly decreasing compliance, the i-th entry has rank i + 1 |
| DashboardCoordinador.ComparativoRankingConsistent | src/components/dashboard-coordinador.tsx:31-37 | the seeded comparison strictly decreases and every `posicion` is its compliance rank |
| DashboardCoordinador.PositionsAreRanks | src/components/dashboard-coordinador.tsx:31-37 | in a list with strictly decreasing compliance numbered 1, 2, …, each number is the compliance rank |
| DashboardCoordinador.TrendAndHeadlineConsistent | src/components/dashboard-coordinador.tsx:23-49 | "+23%" is the last trend value minus the first; the headline compliance is the 2025 value and the value at the headline position (yellow) |

## Left out

- Rendering is not modelled: JSX, Tailwind class strings, icons and the `./ui/*` components. Badges are reduced to a tone and a caption.
- Side effects and timers are not modelled: `toast` notifications and the 1.5 s `setTimeout` before returning from the data entry form. A save is modelled only as accepted (with its destination) or refused.
- Floating-point display maths is not modelled. This covers the coverage objective (`toFixed`), progress values and bar heights. Only `Math.round(sum / n)` is modelled, exactly in integers.
- Date and locale formatting (`toLocaleString`) is not modelled.
- `parseInt` itself is not modelled: its result is an input `Option<int>`, with `None` for NaN.
- `handleSaveConfiguration` only shows a toast, so it is not modelled.
- `getComunidadColor` (validation screen) and `getCategoriaColor` (data entry form) are not modelled. They are colour lookups for styling.
- The history screen's `selectedRegistro` is not modelled. It is UI selection state only.
- These screens are not part of this model: `login-screen.tsx` (credential checks against demo passwords, so the logged-in `User` is an input), `reportes-avanzados.tsx`, `dashboard-auxiliar.tsx`, `dashboard-encargado.tsx` and `floating-action-button.tsx`.
- The `default` branches of `getDashboardForUserType` (src/App.tsx:79-80) and `getNavItemsForUserType` (src/components/bottom-navigation.tsx:59-60) are not modelled. They are unreachable for the closed `UserType` union the model uses, so a role outside that union, with its empty item list, is not represented.
- `BottomNavigation.NavItemsForUserType`: does not state that an unknown user type gets no items, because `UserType` is closed.
- Duplicate keys in JavaScript object literals cannot arise, and JavaScript orders integer-like keys differently. Neither case occurs with the keys these screens use, and neither is modelled.
- PantallaValidacion.EstadoBadge, HistorialPersonal.EstadoBadge and DashboardAsistente.EstadoBadge: a status string that names a property every object inherits (`toString`, `constructor`, `__proto__`, …) finds that inherited member in the style table, which is truthy, so the source never reaches its fallback; the model treats such strings as unknown codes. The records only ever carry the declared codes.
- PantallaValidacion.EstadoBadgeFallback: states the pending style only for strings that are not inherited property names, for the reason above.
- HistorialPersonal.EstadoBadgeFallback: states the pending style only for strings that are not inherited property names, for the reason above.
- DashboardAsistente.EstadoBadgeGrayIffUnknown: states the gray fallback only for strings that are not inherited property names, for the reason above.
- JsObject.Get: looks up own properties only. `prev[comunidad]` with an inherited property name finds the inherited member; spreading it adds no fields, and the community keys come from the seeded list, so this is not modelled.
- ConfiguracionMetas.OrZero: numbers are exact integers in the model. JavaScript rounds integers above 2^53, and `parseInt` of a digit string longer than 308 characters yields `Infinity`, which `|| 0` keeps; neither is modelled.
- JsObject.SumAfterPut: the sum is exact in the model, while `reduce` over JavaScript numbers rounds above 2^53.
- ConfiguracionMetas.Component.UpdateMetaPorMetodo: the change of the annual total is exact in the model, for the same reason (no rounding above 2^53, no `Infinity`).
- Workflow rules that the code does not have are not modelled. Examples are transition guards, audit logs, duplicate-period checks and ranking tie-breaks.
