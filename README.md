# Broto trucking client: screen logic in Dafny

A model of the screen logic of the broto-frontend trucking client. The client is a React single-page app where a small freight company registers trucks, drivers, clients and trips, follows the trips on the road, finalizes them, and reports on finished trips. Seven screens are modelled:

- **Editar ou Concluir Viagens** (`EditarViagem`): the list of active trips, the edit draft and its save confirmation, and the finalization modal with its live profit preview.
- **Situação Atual** (`SituacaoAtual`): the trips on the road, cleaned of malformed records, and the finalization of a truck's current trip, looked up by plate.
- **Consulta por Placa** (`ConsultaPelaPlaca`): the search of a truck's trips by plate.
- **Desempenho por Caminhão** (`GraficosDesempenho`): finished trips grouped by plate, one profit line per truck.
- **Resumo Financeiro** (`ResumoFinanceiro`): the profit bars of the finished trips, green at or above the 30000 target.
- **Exportar Viagens Finalizadas** (`ExportarDados`): the rows handed to the spreadsheet and PDF libraries, with their fallbacks.
- **Cadastro Geral** (`CadastroGeral`): the four registration forms and their tabs.

## How the model works

- **JavaScript values.** Module `Js` holds the JavaScript values the screens handle: undefined, null, numbers (as `real`), strings, objects and arrays.
  - Truthiness and `||` are `Truthy` and `Or`.
  - `Number(v)` is `ToNumber` and `parseFloat(v)` is `ParseFloat`. `None` stands for NaN.
  - An axios outcome is a `Reply`. It is an answer (`Ok`), an error status with a body (`HttpError`), a request without answer (`NoResponse`), or a failure before sending (`SetupError`).
  - `ErrorText` is `error.response?.data?.erro || fallback` for an `erro` that is text; see "Left out" for other values.
- **Sequences.** Module `Seqs` holds `Array.prototype.filter` and `map`, and the facts about `filter` that the screens use.
- **Screens with state.** A screen whose handlers update state step by step is a class. Its fields are the screen's `useState` variables, and each handler is a method with a field-by-field `modifies` frame.
  - Requests are not sent, and each reply is a parameter. Where the body of a request is worth stating, the method returns it (the PUT and PATCH of `EditarViagem`, the PATCH of `SituacaoAtual`, the form bodies of `CadastroGeral`). `ConsultaPelaPlaca.Search.Run` returns only whether a request went out, and the plate lookup before a finalization in `SituacaoAtual` is not returned.
  - A load is split in two. One method does what happens before the answer (`StartLoad…`); another does what the `then`/`catch`/`finally` callbacks do with it (`FinishLoad…`).
- **Pure derivations.** Drafts, filters, groupings, series and export rows are functions, with lemmas relating each to an independent statement of what it should produce.

## Model

| member | source | states |
|---|---|---|
| Js.ErrorText | src/Pages/EditarViagem.jsx:94 | a non-empty `erro` text in the error's response body is shown as it is; in every other case the fallback is shown, so it is never empty when the fallback is not |
| Js.Or | src/Pages/EditarViagem.jsx:68-73 | JavaScript's logical or is one of its two operands, the first whenever it is truthy, and truthy exactly when either operand is |
| Js.NumberVersusParseFloat | src/Pages/ExportarDados.jsx:56-58 | `Number` and `parseFloat` agree wherever `parseFloat` reads a number; they differ exactly on `null` and the empty text, which `Number` reads as 0 |
| Js.BareFractions | src/Pages/EditarViagem.jsx:441 | ".5" and "5." read as 0.5 and 5 (also negated), and a lone "." is NaN |
| Js.NumeralRoundTrip | src/Pages/EditarViagem.jsx:441 | the numeral of a whole number reads back as that number, with `Number` and `parseFloat` alike |
| EditarViagem.EditDraft | src/Pages/EditarViagem.jsx:65-75 | the draft has the trip's keys plus the six edited ones, and every other field is the trip's own |
| EditarViagem.DraftDefaults | src/Pages/EditarViagem.jsx:68-73 | a missing driver, client or date becomes "", a missing cost or profit 0, a present one is kept (dates reformatted); no edited field is null or undefined |
| EditarViagem.EditDraftIdempotent | src/Pages/EditarViagem.jsx:65-75 | opening the edit of an already-opened draft gives the same draft, when reformatting a formatted date is stable |
| EditarViagem.ProfitPreview | src/Pages/EditarViagem.jsx:365 | the preview is a number exactly when each side is falsy or readable by `parseFloat`, and then it is the freight minus the costs, a falsy side counting as 0 |
| EditarViagem.PreviewIsFreightMinusCosts | src/Pages/EditarViagem.jsx:365 | with numeric freight and costs the preview is freight minus costs |
| EditarViagem.PreviewTreatsMissingAsZero | src/Pages/EditarViagem.jsx:441 | a falsy freight or cost counts as 0, so missing costs preview the whole freight |
| EditarViagem.PreviewOfTypedCosts | src/Pages/EditarViagem.jsx:436-441 | a whole number typed as text into the costs input is subtracted as that number |
| EditarViagem.PreviewExample | src/Pages/EditarViagem.jsx:441 | freight 10000 with costs typed "3500" previews 6500 |
| EditarViagem.PreviewsAgree | src/Pages/EditarViagem.jsx:99-101 | the finalization modal opened on a trip previews the same profit as the edit draft of that trip |
| EditarViagem.RowActions | src/Pages/EditarViagem.jsx:173-187 | every row offers "Editar"; "Finalizar" is offered exactly when the status is "Em andamento" |
| EditarViagem.AppendLoadError | src/Pages/EditarViagem.jsx:45-63 | a driver or client load error extends the shown error, separated by one space, or stands alone when there was none |
| EditarViagem.BothLoadErrorsKept | src/Pages/EditarViagem.jsx:50-60 | two failed loads leave both messages, in arrival order |
| EditarViagem.Screen.constructor | src/Pages/EditarViagem.jsx:8-16 | empty lists, no draft, both modals closed, no messages, loading |
| EditarViagem.Screen.StartLoadTrips | src/Pages/EditarViagem.jsx:24-27 | loading set, both messages cleared |
| EditarViagem.Screen.FinishLoadTrips | src/Pages/EditarViagem.jsx:28-42 | the list is the answer, with "Nenhuma viagem ativa" for an empty one; a failure (or null body) empties it and sets the load error; loading ends |
| EditarViagem.Screen.FinishLoadDrivers | src/Pages/EditarViagem.jsx:45-53 | the drivers are the answer; a failure empties them and appends its error |
| EditarViagem.Screen.FinishLoadClients | src/Pages/EditarViagem.jsx:55-63 | the clients are the answer; a failure empties them and appends its error |
| EditarViagem.Screen.OpenEdit | src/Pages/EditarViagem.jsx:65-75 | the open draft is the trip's edit draft |
| EditarViagem.Screen.EditField | src/Pages/EditarViagem.jsx:216-376 | typing changes exactly one field of the open draft |
| EditarViagem.Screen.CancelEdit | src/Pages/EditarViagem.jsx:390 | the draft is closed |
| EditarViagem.Screen.RequestSave | src/Pages/EditarViagem.jsx:77-79 | the save confirmation opens |
| EditarViagem.Screen.CancelSave | src/Pages/EditarViagem.jsx:407 | the save confirmation closes |
| EditarViagem.Screen.ConfirmSaveAsWritten | src/Pages/EditarViagem.jsx:81-96 | the PUT carries the draft under its id; on success the draft closes and the reload leaves no message at all |
| EditarViagem.Screen.ConfirmSave | src/Pages/EditarViagem.jsx:81-96 | the PUT carries the draft under its id; success closes the draft, starts the reload and shows "Viagem atualizada"; failure keeps the draft and shows the server's or the fallback error |
| EditarViagem.Screen.OpenFinalize | src/Pages/EditarViagem.jsx:99-101 | the modal opens with the trip's id and freight and its costs or 0 |
| EditarViagem.Screen.EnterCosts | src/Pages/EditarViagem.jsx:437 | typing changes only the modal's costs |
| EditarViagem.Screen.CancelFinalize | src/Pages/EditarViagem.jsx:445 | the modal is reset and closed |
| EditarViagem.Screen.ConfirmFinalizeAsWritten | src/Pages/EditarViagem.jsx:104-118 | the PATCH carries the id and costs the modal held; on success the reload leaves no message |
| EditarViagem.Screen.ConfirmFinalize | src/Pages/EditarViagem.jsx:104-118 | the PATCH carries the id and costs the modal held; success starts the reload and shows "Viagem finalizada"; failure shows the server's or the fallback error |
| EditarViagem.Screen.FormProfit | src/Pages/EditarViagem.jsx:365 | with no costs the edit form's profit is the freight |
| EditarViagem.Screen.ModalProfit | src/Pages/EditarViagem.jsx:441 | with no costs the modal's profit is the freight |
| SituacaoAtual.ActiveTrips | src/Pages/SituacaoAtual.jsx:27-28 | exactly the well-formed records of the answer, with their multiplicities, in answer order; nothing for a body that is not an array; empty iff no record is well formed |
| SituacaoAtual.FindFrom | src/Pages/SituacaoAtual.jsx:57 | `find` stops at the first trip in progress, or throws at the first null one met before it; every trip passed over is neither |
| SituacaoAtual.FindOutcome | src/Pages/SituacaoAtual.jsx:57 | `find` hits exactly when a trip in progress comes before any null one, and throws exactly when a null one comes before any trip in progress |
| SituacaoAtual.PickTrip | src/Pages/SituacaoAtual.jsx:56-57 | a trip is picked exactly when the list is an array where a trip in progress comes before any null one, and the picked trip is one of them and in progress; the lookup throws exactly when the body or its list cannot be read or a null trip comes first; "nothing in progress" means no trip is |
| SituacaoAtual.PickedIsFirstInProgress | src/Pages/SituacaoAtual.jsx:57 | the picked trip is the first one in progress, all before it being records that are not |
| SituacaoAtual.RenderAsWritten | src/Pages/SituacaoAtual.jsx:133-151 | rendering throws exactly when the modal is open, so the confirmation is never on the page |
| SituacaoAtual.FinalizeUnreachableAsWritten | src/Pages/SituacaoAtual.jsx:118-151 | opening the modal on any plate crashes the page, and no modal state ever offers "Confirmar Finalização" |
| SituacaoAtual.Render | src/Pages/SituacaoAtual.jsx:133-167 | corrected: rendering never throws, and the confirmation is offered exactly when the modal is open |
| SituacaoAtual.FinalizeReachable | src/Pages/SituacaoAtual.jsx:118-167 | corrected: opening the modal on a plate offers the confirmation, and the closed modal does not |
| SituacaoAtual.Screen.constructor | src/Pages/SituacaoAtual.jsx:11-15 | no trips, no messages, modal closed, loading |
| SituacaoAtual.Screen.StartLoad | src/Pages/SituacaoAtual.jsx:21-24 | loading set, both messages cleared |
| SituacaoAtual.Screen.FinishLoad | src/Pages/SituacaoAtual.jsx:25-42 | the list is the answer's active trips, with "Nenhum caminhão" when empty; a failure empties it and sets the load error; loading ends |
| SituacaoAtual.Screen.OpenConfirm | src/Pages/SituacaoAtual.jsx:45-47 | the modal opens on the truck's plate |
| SituacaoAtual.Screen.CancelConfirm | src/Pages/SituacaoAtual.jsx:155 | the modal closes and forgets the plate |
| SituacaoAtual.Screen.ConfirmFinalizeAsWritten | src/Pages/SituacaoAtual.jsx:49-72 | the PATCH goes to the first trip in progress with an id, with its costs; after "not found" and after success the reload leaves no message |
| SituacaoAtual.Screen.ConfirmFinalize | src/Pages/SituacaoAtual.jsx:49-72 | the PATCH goes to the first trip in progress with an id, with its costs; each outcome (not found, success, PATCH failure, lookup failure, unreadable list) ends with its own message |
| ConsultaPelaPlaca.FailureMessageAsWritten | src/Pages/ConsultaPelaPlaca.jsx:35-43 | 404 reads "not found"; every other answered error and a missing answer read "connection error"; a failure before sending, and only that, reads the generic error |
| ConsultaPelaPlaca.ServerErrorReadAsConnectionError | src/Pages/ConsultaPelaPlaca.jsx:37-40 | a 500 answer gets the same message as an unreachable server |
| ConsultaPelaPlaca.FailureMessage | src/Pages/ConsultaPelaPlaca.jsx:35-43 | "not found" iff 404, "connection error" iff no answer, the generic error iff any other status or a failure before sending |
| ConsultaPelaPlaca.Search.constructor | src/Pages/ConsultaPelaPlaca.jsx:5-9 | empty plate and list, no messages, not loading |
| ConsultaPelaPlaca.Search.SetPlate | src/Pages/ConsultaPelaPlaca.jsx:64 | the plate is what was typed |
| ConsultaPelaPlaca.Search.RunAsWritten | src/Pages/ConsultaPelaPlaca.jsx:11-48 | as written: an empty plate sends nothing and asks for one; trips found are listed with a message naming the plate; otherwise the list is empty and `FailureMessageAsWritten` picks the error, so a 500 shows the connection error; exactly one message at the end, not loading |
| ConsultaPelaPlaca.Search.Run | src/Pages/ConsultaPelaPlaca.jsx:11-48 | corrected: as `RunAsWritten`, with `FailureMessage` picking the error; an empty plate sends nothing and asks for one; trips found are listed with a message naming the plate; otherwise the list is empty and the matching error shows; exactly one message at the end, not loading |
| GraficosDesempenho.FirstOccurrences | src/Pages/GraficosDesempenho.jsx:43-50 | the plates without repetitions, each where it first occurs: same members, no duplicates |
| GraficosDesempenho.IndexOf | src/Pages/GraficosDesempenho.jsx:44 | the position of the plate's group, or past the end exactly when no group has it |
| GraficosDesempenho.Push | src/Pages/GraficosDesempenho.jsx:44-48 | one step of the reduce adds at most one group, keeps every group's plate and earlier points, and ends the trip's plate group with the trip's point |
| GraficosDesempenho.KeysPush | src/Pages/GraficosDesempenho.jsx:44 | a step adds a group exactly when the trip's plate has none yet |
| GraficosDesempenho.PushGroups | src/Pages/GraficosDesempenho.jsx:44-48 | a step keeps every group equal to the points of its plate's trips, in list order |
| GraficosDesempenho.ByPlate | src/Pages/GraficosDesempenho.jsx:43-50 | there are no more groups than trips, and no group is empty |
| GraficosDesempenho.ByPlateGroups | src/Pages/GraficosDesempenho.jsx:43-50 | one group per distinct plate in first-occurrence order; each group's points are `{fim, Number(lucro_total)}` of exactly its plate's trips, in list order |
| GraficosDesempenho.ByPlateKeepsEveryTrip | src/Pages/GraficosDesempenho.jsx:43-50 | the groups hold as many points as there are trips |
| GraficosDesempenho.Loaded | src/Pages/GraficosDesempenho.jsx:22-40 | an empty list sets "Nenhum dado…", a failure the load error, otherwise no error; loading ends |
| GraficosDesempenho.LoadedView | src/Pages/GraficosDesempenho.jsx:57-95 | after the load the screen shows an error or one chart per truck holding every trip, never the "no charts" text |
| ResumoFinanceiro.Kept | src/Pages/ResumoFinanceiro.jsx:31-33 | exactly the trips whose profit is neither null nor undefined, with their multiplicities, in list order |
| ResumoFinanceiro.ZeroProfitKept | src/Pages/ResumoFinanceiro.jsx:32 | a profit of 0 is kept |
| ResumoFinanceiro.Loaded | src/Pages/ResumoFinanceiro.jsx:24-48 | the kept trips are listed; the "no profit" error is set iff none is kept; a failure sets the load error |
| ResumoFinanceiro.BarsOf | src/Pages/ResumoFinanceiro.jsx:50-66 | labels, values, colours and borders have one entry per trip, entry i built from trip i |
| ResumoFinanceiro.ColoursFollowGoal | src/Pages/ResumoFinanceiro.jsx:56-61 | through `Background` and `Border`: a bar is green iff its value is at least 30000, red otherwise (NaN included); the border follows the bar |
| ResumoFinanceiro.GoalBoundary | src/Pages/ResumoFinanceiro.jsx:57 | 30000 is green; 29999.99 and a non-number text are red |
| ResumoFinanceiro.LabelFallbacks | src/Pages/ResumoFinanceiro.jsx:51 | of `AxisLabel` and `TooltipTitle`: missing client and end date read "N/A" in the label; a missing plate reads "N/A" only in the tooltip title |
| ResumoFinanceiro.LoadedView | src/Pages/ResumoFinanceiro.jsx:139-158 | after the load a chart shows iff some trip has a profit, with one bar per such trip; never the "nothing to show" text |
| ExportarDados.ExcelRow | src/Pages/ExportarDados.jsx:47-60 | a sheet row has one cell per sheet column |
| ExportarDados.PdfRow | src/Pages/ExportarDados.jsx:91-113 | a PDF row has one cell per header column (12) |
| ExportarDados.RowsShowTrip | src/Pages/ExportarDados.jsx:47-60 | plate, dates and status are copied; "N/A" appears for exactly the missing descriptive fields; missing costs and profit export as 0 |
| ExportarDados.FormatsAgree | src/Pages/ExportarDados.jsx:56-58 | the sheet and PDF rows agree on every cell but the freight, and on it too when it is a number; a null freight is NaN in the sheet and 0 in the PDF |
| ExportarDados.Screen.constructor | src/Pages/ExportarDados.jsx:12-18 | no trips, no error, loading |
| ExportarDados.Screen.FinishLoad | src/Pages/ExportarDados.jsx:22-35 | the list is the answer, with "Nenhuma viagem finalizada…" when empty; a failure sets the load error and empties it; loading ends |
| ExportarDados.Screen.ExportExcel | src/Pages/ExportarDados.jsx:38-75 | no trips: error, no sheet and no alert; otherwise the error is cleared and the sheet has one row per trip in list order, with the success alert; a library failure sets its error and raises no alert |
| ExportarDados.Screen.ExportPdf | src/Pages/ExportarDados.jsx:77-168 | no trips: error, no table and no alert; otherwise the error is cleared and the table has one 12-cell row per trip in list order, with the success alert; a library failure sets its error and raises no alert |
| CadastroGeral.BlankTripShape | src/Pages/CadastroGeral.jsx:147-151 | a new trip has the eleven fields, all empty except status "Em andamento" |
| CadastroGeral.EntityForm.constructor | src/Pages/CadastroGeral.jsx:54-56 | the form starts blank with no messages, with its required and e-mail fields fixed |
| CadastroGeral.EntityForm.Change | src/Pages/CadastroGeral.jsx:58 | typing sets one field and keeps the others |
| CadastroGeral.EntityForm.Submit | src/Pages/CadastroGeral.jsx:59-71 | a form is sent exactly when the browser lets it through (required fields filled in, e-mail fields holding an address), and nothing changes otherwise; a sent form goes as it stands; success resets it and shows the success text; failure keeps it and shows the server's or the fallback error; exactly one message at the end |
| CadastroGeral.BlankFormsBlocked | src/Pages/CadastroGeral.jsx:35-216 | none of the four blank forms reaches its handler, so a form reset after a success is not sent again as it is |
| CadastroGeral.MalformedEmailBlocked | src/Pages/CadastroGeral.jsx:126-128 | a client whose e-mail has no `@` is held back by the browser |
| CadastroGeral.PlainEmailAccepted | src/Pages/CadastroGeral.jsx:117-128 | a client with a name and a plain address is let through |
| CadastroGeral.NewTruckForm | src/Pages/CadastroGeral.jsx:11-30 | the truck form: plate and name, its texts |
| CadastroGeral.NewDriverForm | src/Pages/CadastroGeral.jsx:53-71 | the driver form: name and phone, its texts |
| CadastroGeral.NewClientForm | src/Pages/CadastroGeral.jsx:94-112 | the client form: name, phone, email and address, its texts |
| CadastroGeral.TripForm.constructor | src/Pages/CadastroGeral.jsx:143-153 | the trip form starts blank with empty lists |
| CadastroGeral.TripForm.FinishLoadPlates | src/Pages/CadastroGeral.jsx:156 | the plates are the answer; a failure replaces the error and hides every hint |
| CadastroGeral.TripForm.FinishLoadDrivers | src/Pages/CadastroGeral.jsx:157 | the drivers are the answer; a failure appends its error after a space, even to an empty one, and hides every hint |
| CadastroGeral.TripForm.FinishLoadClients | src/Pages/CadastroGeral.jsx:158 | the clients are the answer; a failure appends its error after a space and hides every hint |
| CadastroGeral.ExactlyOneForm | src/Pages/CadastroGeral.jsx:231-242 | of `RenderedForms`: each tab shows exactly its own form, any other value none, and the screen opens on the truck form |

## Left out

- Network and transport: the axios calls, URLs and the API base-URL fallback. Replies are parameters.
- CadastroGeral.EntityForm.Submit: the browser's e-mail check is modelled by the shape of an address (a local part, `@`, dot-separated labels). The trimming of blanks around an e-mail value and the sanitizing of the number and date inputs are not modelled.
- Rendering: JSX markup, styles and hook mechanics. Only the state that decides what is shown is modelled; the hint predicates of `CadastroGeral.TripForm` and the `View` functions stand for the conditional parts.
- Concurrency: the loads are independent and can answer in any order. Each answer is a separate method, so any interleaving can be composed, but no ordering is fixed. Answers arriving after the screen is left are not modelled.
- Number formatting: `toFixed(2)`, `toLocaleString("pt-BR")` and the conversion of values into template-literal text. Amounts are kept as the numbers before formatting, and labels as their parts.
- Number parsing: `ToNumber` and `ParseFloat` read plain decimals (`12`, `-3.5`, `.5`, `5.`). Exponents (which a number input may also hold), hexadecimal, surrounding blanks and `parseFloat`'s acceptance of a numeric prefix ("12abc") are not modelled; such text reads as NaN.
- Dates: dayjs formatting is the parameter `formatDate` of `EditarViagem.EditDraft`. The day counts and "Data inválida" texts of the Situação Atual cards, which read the clock, are not modelled.
- Foreign libraries: xlsx, jsPDF/autoTable, file-saver, Chart.js and recharts. Only the rows and series handed to them are modelled; a throwing library is the parameter `fails` of the export methods.
- Dead code: the delete handlers of `EditarViagem`, whose modal state is never declared and whose button is commented out.
- The Situação Atual modal's costs input and profit line: they read state the component never declares, so they throw (see Findings). `SituacaoAtual.RenderAsWritten` models only that throw, and the corrected `SituacaoAtual.Render` leaves them out, since the PATCH sends the trip's own costs.
- Js.ErrorText: an `erro` that is truthy but not text (a number, an object, an array) is shown by the source; the model shows the fallback instead, since the messages are strings.
- Plate text: plates in messages are strings. A `null` plate in the Situação Atual modal reads "null"; other non-string plates are not converted.
- Group keys: `GraficosDesempenho.ByPlate` keys groups by the plate value itself. JavaScript object keys are strings, so numeric-looking plates would be enumerated first and a number and its numeral would share a group; plates are taken as non-numeric text. Plates named like `Object.prototype` members ("constructor") are not modelled either.
- Finished-trip lists: in `GraficosDesempenho`, `ResumoFinanceiro` and `ExportarDados`, an answer that is not an array of objects is treated as a failed load. The source throws only for a body that is not an array and for a null or undefined element: a TypeError caught by the load or a crash while rendering, depending on the page. Any other element that is not an object (a number, a text) throws nowhere, since its properties read as `undefined`. `ResumoFinanceiro` drops it, `GraficosDesempenho` puts it in a group keyed `undefined` with a NaN profit, and `ExportarDados` exports a row of undefined and "N/A" cells. For such answers the model's failed load differs from the source.
- `EditarViagem.Screen.FinishLoadTrips`: a body that is not an array is stored as it is, as in the source; only a null or undefined body, whose `length` throws, counts as a failure.
- Tab switching in `CadastroGeral`: the forms are components declared inside the page, so switching tabs mounts a fresh form. This is not modelled beyond `ExactlyOneForm`.
- The unrouted older registration pages, the driver list, the company management page, the dashboard, the navigation bar and the payment reminder are not part of this model.

## Findings

| source | as written | input that shows it | evidently intended | confidence | as-written member | corrected member |
|---|---|---|---|---|---|---|
| src/Pages/EditarViagem.jsx:89-91 | `setMensagem` on a saved edit is followed by `carregarViagens()`, which clears `mensagem` synchronously | a PUT that succeeds | "Viagem atualizada com sucesso!" is shown while the list reloads | high, not executed | EditarViagem.Screen.ConfirmSaveAsWritten | EditarViagem.Screen.ConfirmSave |
| src/Pages/EditarViagem.jsx:112-113 | the finalization success message is cleared the same way | a PATCH that succeeds | "Viagem finalizada com sucesso!" is shown | high, not executed | EditarViagem.Screen.ConfirmFinalizeAsWritten | EditarViagem.Screen.ConfirmFinalize |
| src/Pages/SituacaoAtual.jsx:59-67 | both the "not found" error and the success message are set right before `carregarViagens()`, which clears them; latent, since the handler can only be reached once the next row is fixed | a plate with no trip in progress; a PATCH that succeeds | the message stays while the list reloads | high, not executed | SituacaoAtual.Screen.ConfirmFinalizeAsWritten | SituacaoAtual.Screen.ConfirmFinalize |
| src/Pages/SituacaoAtual.jsx:146-151 | the open modal reads `modalFinalizar`, which the component never declares; the ReferenceError thrown while rendering, with no error boundary in `App.jsx`, takes the page down | click "Finalizar Viagem" on any card | the modal shows and "Confirmar Finalização" can be clicked | high, not executed | SituacaoAtual.FinalizeUnreachableAsWritten | SituacaoAtual.FinalizeReachable |
| src/Pages/ConsultaPelaPlaca.jsx:37-43 | `error.request` is set for every request that went out, so any status but 404 takes the connection branch | an answer with status 500 | a server error gets the generic "Erro ao buscar viagens" text; only a missing answer gets the connection text | high, not executed | ConsultaPelaPlaca.Search.RunAsWritten | ConsultaPelaPlaca.Search.Run |
