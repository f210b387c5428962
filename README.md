# Dinsac admin client: a verified model of four screens

This project models, in Dafny, the client-side logic of four screens of the
Dinsac administration web client (an Angular single-page application):

- **Support chat console** (`ChatAdminStandaloneComponent`). Inbound socket
  messages are either appended to the open conversation (with a 2-second
  duplicate window) or counted as unread on the sender's roster entry. A
  deleted chat leaves the roster. Unread state is mirrored to local storage
  and merged with the backend roster. The number of conversations with
  unread messages is published to the sidebar badge. Sending, selecting and
  history loading are modelled too, and so is the classification of
  attachment links.
- **Quotation list** (`GestionCotizacionesComponent`). Status filter and
  text search, per-status counters, clamped pagination, and the local
  updates after a status change or a deletion. Also the status colour and
  icon, product naming, and the phone-number cleaning behind the WhatsApp
  link.
- **Product catalogue** (`ProductosComponent`). The checks and in-place
  rewrites `createProduct` applies before it issues a create or an update:
  required fields, and a product code that is trimmed, upper-cased and must
  be alphanumeric. Also the object it sends, the YouTube link to embed-link
  conversion, the form `editProduct` loads, the search, the local delete and
  the pagination getter.
- **Banner and carousel uploads** (`BannerofertasComponent`). One banner
  file, plus three carousel slots with previews, set and cleared in place.
  Then the count of filled slots, the upload guard, and the final summary
  message that resets every slot.

Each component is a `class` whose fields are the component's fields. Its
methods are the component's handlers, and the success callbacks of its HTTP
requests and socket events are methods called with the reply. Each method's
`ensures` ties the new state to a pure function of the old state. The
properties the code promises are proved about those functions as lemmas.
Outbound requests and socket emits become returned values (the request a
method would issue). Browser confirmations are boolean parameters. The
current time is an integer parameter.

Files:

| file | module | contents |
|---|---|---|
| `base.dfy` | `Base` | `Option`, `filter` / `find` / count over sequences, order-preserving subsequence |
| `texto.dfy` | `Texto` | the JavaScript string operations the components use (`trim`, ASCII `toLowerCase`/`toUpperCase`, `includes`, `split(...).pop()`, `substring`, decimal rendering) |
| `paginacion.dfy` | `Paginacion` | `Math.ceil` page count, page clamp, page-number buttons, `slice` with negative bounds |
| `chat_admin.dfy` | `ChatAdmin` | the chat state as values: message reception, deletion, selection, roster merge, storage round trip, history naming, attachment helpers |
| `chat_admin_componente.dfy` | `ChatAdminComponente` | the chat component as a class over that state |
| `cotizaciones.dfy` | `Cotizaciones` | quotation filters, counters, local updates, WhatsApp number, presentation, and the component class |
| `productos.dfy` | `Productos` | product form checks, payload, YouTube conversion, edit form, search, delete, and the component class |
| `banner_ofertas.dfy` | `BannerOfertas` | slot counting, final message, and the component class over two 3-element arrays |

## Behaviour kept as written

The model follows the code in these places, including where the behaviour
looks unintended:

- A message for a conversation that is not open is always counted. That
  branch has no duplicate check, so n such messages add exactly n
  (`ChatAdmin.NotificacionesAcumuladas`).
- The roster merge keeps only the clients the backend returns. A client
  with unread messages that the backend does not list is dropped
  (`ChatAdmin.Fusionar`).
- The history reply overwrites the visible messages even when another
  conversation was selected after the request was sent
  (`ChatAdminComponente.ChatAdminStandalone.HistorialCargado`).
- A message with no `clienteId` that arrives while nothing is selected
  compares equal (`null === null`) and is appended to the visible messages.
- The name fallback ``Cliente ${id.substring(0, 8)}`` for a new client
  (chat component, line 93) is never used. Line 66 has already set the name
  to the roster name, the message's name, or "Cliente"
  (`ChatAdmin.NombreDeClienteNuevo`).
- `limpiarFiltros` does not repaginate, so the page fields keep describing
  the previous filtered list.
- In `createProduct`, the price check comes after the update request has
  been issued, so it never prevents a save. It only adds an alert
  (`avisoPrecio`).
- `resetForm` leaves `price` out, so the next saved product carries `NaN`
  (`None`).
- `buscar` lower-cases the search term but not the product code. A term
  with a letter therefore never matches a code saved through this form,
  which is upper-case (`Productos.CodigoNoCoincideConLetras`).

## Model

| member | source | states |
|---|---|---|
| Base.Filter | src/app/components/gestion-cotizaciones/gestion-cotizaciones.component.ts:111 | `Array.filter`: the result is no longer than the input, every kept item is an input item that satisfies the predicate, and every input item that satisfies it is kept |
| Base.FirstIndex | src/app/components/gestion-cotizaciones/gestion-cotizaciones.component.ts:150 | `Array.find` as an index: the first position that satisfies the predicate, or `None` exactly when none does |
| Base.FilterIsSubseq | src/app/components/gestion-cotizaciones/gestion-cotizaciones.component.ts:111 | filtering keeps the surviving items in their original order |
| Base.FilterIdempotent | src/app/components/gestion-cotizaciones/gestion-cotizaciones.component.ts:111 | filtering twice by one predicate is filtering once |
| Base.FilterAppend | src/app/components/gestion-cotizaciones/gestion-cotizaciones.component.ts:111 | `filter` scans left to right: an element appended to the input is appended to the result exactly when it passes |
| Base.FilterFilter | src/app/components/gestion-cotizaciones/gestion-cotizaciones.component.ts:107-123 | two successive filters equal one filter by the conjunction |
| Base.CountUpdate | src/app/components/bannerofertas/bannerofertas.component.ts:95-97 | replacing one item changes a count by that item's old and new contribution only |
| Texto.Trim | src/app/components/chat-admin-standalone/chat-admin-standalone.component.ts:263 | `trim()` is the input with only its leading and trailing whitespace removed: the slice that starts right after the leading whitespace, with nothing but whitespace after it, neither starting nor ending with whitespace, and empty exactly when the input is blank |
| Texto.TrimVacio | src/app/components/chat-admin-standalone/chat-admin-standalone.component.ts:263 | `!s.trim()` holds exactly when the text is blank |
| Texto.TrimUnico | src/app/components/chat-admin-standalone/chat-admin-standalone.component.ts:263 | the trim is the only slice of the input with nothing but whitespace around it and no whitespace at its edges |
| Texto.TrimIdempotent | src/app/components/productos/productos.component.ts:252 | trimming twice is trimming once |
| Texto.Lower | src/app/components/gestion-cotizaciones/gestion-cotizaciones.component.ts:116 | `toLowerCase()` maps each character by the ASCII lower-case mapping, keeping the length |
| Texto.Upper | src/app/components/productos/productos.component.ts:142 | `toUpperCase()` maps each character by the ASCII upper-case mapping, keeping the length |
| Texto.UpperIdempotent | src/app/components/productos/productos.component.ts:142 | upper-casing twice is upper-casing once |
| Texto.ContainsAt | src/app/components/gestion-cotizaciones/gestion-cotizaciones.component.ts:117-121 | an occurrence at a known position makes `includes` true |
| Texto.ContainsWitness | src/app/components/gestion-cotizaciones/gestion-cotizaciones.component.ts:117-121 | every true `includes` comes from an occurrence at some position |
| Texto.AfterLast | src/app/components/chat-admin-standalone/chat-admin-standalone.component.ts:382 | `split(c).pop()` is the suffix after the last `c`, and holds no `c` |
| Texto.AfterFirst | src/app/components/chat-admin-standalone/chat-admin-standalone.component.ts:377 | `substring(indexOf(c) + 1)` is the suffix after the first `c`, or the whole string when there is none |
| Texto.NatToString | src/app/components/bannerofertas/bannerofertas.component.ts:143 | a count renders as a non-empty string of decimal digits that denotes exactly that count, with no leading zero |
| Paginacion.TotalPaginas | src/app/components/gestion-cotizaciones/gestion-cotizaciones.component.ts:308 | `Math.ceil(n / porPagina)` is the fewest pages that hold `n` items, and 0 exactly when there are none |
| Paginacion.AjustarPagina | src/app/components/gestion-cotizaciones/gestion-cotizaciones.component.ts:309 | `Math.min(p, total \|\| 1)` never exceeds the last page (page 1 when there is none) and is either `p` or that bound |
| Paginacion.Rango | src/app/components/gestion-cotizaciones/gestion-cotizaciones.component.ts:311 | the page buttons are exactly 1..total, ascending |
| Paginacion.JsSlice | src/app/components/gestion-cotizaciones/gestion-cotizaciones.component.ts:317 | `slice` never grows the list, and for non-negative bounds is the clamped sub-range |
| Paginacion.Inicio | src/app/components/gestion-cotizaciones/gestion-cotizaciones.component.ts:313 | the first index of a page is non-negative from page 1 on, and a page below 1 starts a full page before 0 |
| Paginacion.Pagina | src/app/components/gestion-cotizaciones/gestion-cotizaciones.component.ts:313-317 | a page holds at most `porPagina` items, namely those from its first index to the next page's |
| Paginacion.PaginaListadaNoVacia | src/app/components/gestion-cotizaciones/gestion-cotizaciones.component.ts:308-317 | every page listed among the buttons is non-empty |
| Paginacion.ItemEnSuPagina | src/app/components/gestion-cotizaciones/gestion-cotizaciones.component.ts:308-317 | every item appears on a listed page, at the position its index gives |
| ChatAdmin.IndiceDe | src/app/components/chat-admin-standalone/chat-admin-standalone.component.ts:87 | the first roster position with that id, or `None` exactly when no client has it |
| ChatAdmin.Buscar | src/app/components/chat-admin-standalone/chat-admin-standalone.component.ts:65 | `clientes.find` by id: a roster client with that id, or `None` exactly when there is none |
| ChatAdmin.BuscarUnico | src/app/components/chat-admin-standalone/chat-admin-standalone.component.ts:65 | with unique ids, looking up a client's id finds that client |
| ChatAdmin.BuscarTrasReemplazo | src/app/components/chat-admin-standalone/chat-admin-standalone.component.ts:183-185 | after a client is updated in place, lookups find the new value for its id and the old answer for every other id |
| ChatAdmin.BuscarTrasAgregar | src/app/components/chat-admin-standalone/chat-admin-standalone.component.ts:186-193 | after a new client is pushed, lookups find it by its id and the old answer for every other id |
| ChatAdmin.TotalConNotificaciones | src/app/components/chat-admin-standalone/chat-admin-standalone.component.ts:253-258 | the badge total is at most the roster size, and 0 exactly when no client has unread messages |
| ChatAdmin.ExisteDuplicado | src/app/components/chat-admin-standalone/chat-admin-standalone.component.ts:71-75 | a message without a date is never a duplicate (its date is `NaN`) |
| ChatAdmin.ConNombre | src/app/components/chat-admin-standalone/chat-admin-standalone.component.ts:63-67 | naming a client message changes only its name, and gives an unknown client a non-empty name; other messages are untouched |
| ChatAdmin.Notificar | src/app/components/chat-admin-standalone/chat-admin-standalone.component.ts:86-103 | counting an unread message keeps roster ids unique |
| ChatAdmin.NotificarPorId | src/app/components/chat-admin-standalone/chat-admin-standalone.component.ts:86-103 | the sender's count rises by one and its preview becomes the text (a sender not yet listed appears with count 1); every other client is unchanged; the badge total rises exactly when the sender had nothing unread |
| ChatAdmin.NotificarOtros | src/app/components/chat-admin-standalone/chat-admin-standalone.component.ts:86-103 | a notification leaves every other client's entry unchanged |
| ChatAdmin.NotificarBusca | src/app/components/chat-admin-standalone/chat-admin-standalone.component.ts:86-103 | after a notification the sender's entry keeps its id, shows the new text and has one more unread message than before (one, when it was not listed) |
| ChatAdmin.NotificarTotal | src/app/components/chat-admin-standalone/chat-admin-standalone.component.ts:86-103 | the number of clients with unread messages rises by one exactly when the sender had none |
| ChatAdmin.Recibir | src/app/components/chat-admin-standalone/chat-admin-standalone.component.ts:60-114 | a message for the open conversation is appended unless it duplicates one shown, and the roster is untouched; any other message leaves the visible messages alone and changes the roster only when it comes from a client with an id; the selection never changes; unique ids stay unique |
| ChatAdmin.RecibirNotifica | src/app/components/chat-admin-standalone/chat-admin-standalone.component.ts:84-109 | a client message for a closed conversation adds one unread to that client only |
| ChatAdmin.NombreDeClienteNuevo | src/app/components/chat-admin-standalone/chat-admin-standalone.component.ts:90-93 | a client created on reception is named by the message, never by the `Cliente <id prefix>` fallback |
| ChatAdmin.NotificacionesAcumuladas | src/app/components/chat-admin-standalone/chat-admin-standalone.component.ts:84-109 | n client messages for a closed conversation raise its count by exactly n and leave the visible messages alone |
| ChatAdmin.DuplicadoUnaVez | src/app/components/chat-admin-standalone/chat-admin-standalone.component.ts:70-83 | the same sender and text twice within 2 s, for the open conversation, is shown once |
| ChatAdmin.EcoIgnorado | src/app/components/chat-admin-standalone/chat-admin-standalone.component.ts:70-83 | the echo of a message already shown changes nothing |
| ChatAdmin.EliminarRemoto | src/app/components/chat-admin-standalone/chat-admin-standalone.component.ts:117-128 | the `chat-eliminado` event removes exactly the clients with that id, and closes the conversation only when it was the open one |
| ChatAdmin.FiltrarConservaIdsUnicos | src/app/components/chat-admin-standalone/chat-admin-standalone.component.ts:125 | filtering a roster keeps its ids unique |
| ChatAdmin.EliminarRemotoPropiedades | src/app/components/chat-admin-standalone/chat-admin-standalone.component.ts:117-128 | the remaining roster is an ordered sub-list without that id, keeps unique ids, and a repeated event changes nothing |
| ChatAdmin.EliminarLocal | src/app/components/chat-admin-standalone/chat-admin-standalone.component.ts:325-332 | a successful DELETE closes the conversation and removes exactly the clients with that id |
| ChatAdmin.Seleccionar | src/app/components/chat-admin-standalone/chat-admin-standalone.component.ts:217-232 | selecting opens that conversation with no messages shown and keeps the roster size |
| ChatAdmin.SeleccionarPorId | src/app/components/chat-admin-standalone/chat-admin-standalone.component.ts:223-228 | selecting zeroes the selected client's count and preview and leaves every other client unchanged |
| ChatAdmin.FusionarTodosPaso | src/app/components/chat-admin-standalone/chat-admin-standalone.component.ts:180-195 | the `forEach` merge over a longer prefix of the reply is one more merge step |
| ChatAdmin.FusionarTodosInvariante | src/app/components/chat-admin-standalone/chat-admin-standalone.component.ts:180-195 | the merge loop keeps the old clients in place with their counts, appends new ids with nothing pending, names every replied id by its last entry, and keeps ids unique |
| ChatAdmin.Fusionar | src/app/components/chat-admin-standalone/chat-admin-standalone.component.ts:176-200 | after the merge and filter the roster ids are exactly the replied ids; ids stay unique; known clients keep their unread state and take the last replied name; new clients start with nothing pending |
| ChatAdmin.FusionarPropiedades | src/app/components/chat-admin-standalone/chat-admin-standalone.component.ts:180-200 | the properties of `Fusionar`, proved about the merge loop followed by the filter |
| ChatAdmin.FusionarIdsCubiertos | src/app/components/chat-admin-standalone/chat-admin-standalone.component.ts:198-200 | the filter keeps every id the reply contains |
| ChatAdmin.FusionarContieneRespuesta | src/app/components/chat-admin-standalone/chat-admin-standalone.component.ts:180-195 | after the merge loop every replied id is in the roster |
| ChatAdmin.Guardar | src/app/components/chat-admin-standalone/chat-admin-standalone.component.ts:132-140 | the stored records keep each client's id and name, in order, with the count and preview always present |
| ChatAdmin.Cargar | src/app/components/chat-admin-standalone/chat-admin-standalone.component.ts:152-162 | loading keeps ids and names, and reads a missing count as 0 and a missing preview as empty |
| ChatAdmin.GuardarCargar | src/app/components/chat-admin-standalone/chat-admin-standalone.component.ts:132-162 | loading what was saved gives back the same roster |
| ChatAdmin.RecargaConservaNotificaciones | src/app/components/chat-admin-standalone/chat-admin-standalone.component.ts:145-200 | saving, reloading and merging a reply with the same ids restores every unread count and preview |
| ChatAdmin.NombreHistorial | src/app/components/chat-admin-standalone/chat-admin-standalone.component.ts:241-243 | a history message is named "Soporte DINSAC" when the admin sent it; a client message keeps its own name, else takes the roster name of the conversation, else "Cliente"; never unnamed |
| ChatAdmin.Historial | src/app/components/chat-admin-standalone/chat-admin-standalone.component.ts:237-244 | the history keeps every message in order with only its name filled in, and every one is named |
| ChatAdmin.ObtenerExtension | src/app/components/chat-admin-standalone/chat-admin-standalone.component.ts:381-383 | the extension holds no dot and no upper-case letter |
| ChatAdmin.ExtensionDe | src/app/components/chat-admin-standalone/chat-admin-standalone.component.ts:381-383 | the extension of `base.ext` is `ext` lower-cased |
| ChatAdmin.EsImagen | src/app/components/chat-admin-standalone/chat-admin-standalone.component.ts:385-388 | an image link is never a PDF link |
| ChatAdmin.EsImagenDe | src/app/components/chat-admin-standalone/chat-admin-standalone.component.ts:381-388 | a link `base.ext` is an image exactly when `ext`, lower-cased, is jpg, jpeg, png, gif or webp |
| ChatAdmin.EsPDF | src/app/components/chat-admin-standalone/chat-admin-standalone.component.ts:390-392 | a PDF link is never an image link |
| ChatAdmin.EsPDFDe | src/app/components/chat-admin-standalone/chat-admin-standalone.component.ts:381-392 | a link `base.ext` is a PDF exactly when `ext`, lower-cased, is "pdf" |
| ChatAdmin.ExtensionSinPunto | src/app/components/chat-admin-standalone/chat-admin-standalone.component.ts:381-392 | a link without a dot is its own extension, lower-cased, and is an image or a PDF by that whole text |
| ChatAdmin.EsArchivoSiContiene | src/app/components/chat-admin-standalone/chat-admin-standalone.component.ts:370-372 | `EsArchivo`, the `includes` of the uploads URL, holds exactly when that URL occurs in the message at some position |
| ChatAdmin.ObtenerNombreArchivo | src/app/components/chat-admin-standalone/chat-admin-standalone.component.ts:374-379 | the file name is a suffix of the link with no slash |
| ChatAdmin.NombreArchivoDe | src/app/components/chat-admin-standalone/chat-admin-standalone.component.ts:374-379 | for `.../<stamp>-<name>` the file name is `<name>` |
| ChatAdminComponente.ChatAdminStandalone.constructor | src/app/components/chat-admin-standalone/chat-admin-standalone.component.ts:31-34 | the component starts empty, with nothing selected and a published total of 0 |
| ChatAdminComponente.ChatAdminStandalone.GuardarNotificaciones | src/app/components/chat-admin-standalone/chat-admin-standalone.component.ts:132-140 | storage holds the saved roster |
| ChatAdminComponente.ChatAdminStandalone.ActualizarContadorGlobal | src/app/components/chat-admin-standalone/chat-admin-standalone.component.ts:253-259 | the published total is the number of clients with unread messages |
| ChatAdminComponente.ChatAdminStandalone.CargarNotificacionesGuardadas | src/app/components/chat-admin-standalone/chat-admin-standalone.component.ts:145-170 | an empty store changes nothing; an unreadable one is removed; a readable one replaces the roster and is published |
| ChatAdminComponente.ChatAdminStandalone.FusionarRespuesta | src/app/components/chat-admin-standalone/chat-admin-standalone.component.ts:180-195 | the `forEach` loop computes the merge function |
| ChatAdminComponente.ChatAdminStandalone.ClientesCargados | src/app/components/chat-admin-standalone/chat-admin-standalone.component.ts:176-207 | the roster becomes the merge with the reply, and is saved and published |
| ChatAdminComponente.ChatAdminStandalone.NotificarCliente | src/app/components/chat-admin-standalone/chat-admin-standalone.component.ts:87-103 | the find / create / increment steps compute the notification function |
| ChatAdminComponente.ChatAdminStandalone.RecibirMensaje | src/app/components/chat-admin-standalone/chat-admin-standalone.component.ts:60-114 | the handler moves the session as the reception function does, saves only when it counted an unread, and always publishes |
| ChatAdminComponente.ChatAdminStandalone.ChatEliminado | src/app/components/chat-admin-standalone/chat-admin-standalone.component.ts:117-128 | the handler applies the remote-deletion function, then saves and publishes |
| ChatAdminComponente.ChatAdminStandalone.SeleccionarCliente | src/app/components/chat-admin-standalone/chat-admin-standalone.component.ts:217-232 | the handler applies the selection function, and saves only when the client is in the roster |
| ChatAdminComponente.ChatAdminStandalone.HistorialCargado | src/app/components/chat-admin-standalone/chat-admin-standalone.component.ts:237-244 | the reply replaces the visible messages, whatever is selected |
| ChatAdminComponente.ChatAdminStandalone.EnviarMensaje | src/app/components/chat-admin-standalone/chat-admin-standalone.component.ts:262-279 | nothing is sent exactly when the draft is blank or nothing is selected; otherwise the admin message is appended, returned for sending, and the draft is cleared |
| ChatAdminComponente.ChatAdminStandalone.SolicitarEliminarChat | src/app/components/chat-admin-standalone/chat-admin-standalone.component.ts:315-321 | a DELETE is requested exactly when a conversation is open and the user confirms, and it is for the open conversation |
| ChatAdminComponente.ChatAdminStandalone.ChatEliminadoLocal | src/app/components/chat-admin-standalone/chat-admin-standalone.component.ts:325-332 | the handler applies the local-deletion function, then saves and publishes |
| ChatAdminComponente.ChatAdminStandalone.GetClienteNombre | src/app/components/chat-admin-standalone/chat-admin-standalone.component.ts:355-358 | the open client's name, or "Cliente" when nothing is open or the client is unknown |
| Cotizaciones.Filtrar | src/app/components/gestion-cotizaciones/gestion-cotizaciones.component.ts:106-125 | the filtered list is an ordered sub-list holding exactly the visible quotations (`Visible`: any status under "todos", else that status; any quotation under a blank search, else one whose lower-cased name, e-mail or number, or raw `dniRuc`, contains the lower-cased term), and under a status filter only that status |
| Cotizaciones.FiltrarUnaVez | src/app/components/gestion-cotizaciones/gestion-cotizaciones.component.ts:107-123 | the status pass and the search pass together are one filter by visibility |
| Cotizaciones.BusquedaEnBlanco | src/app/components/gestion-cotizaciones/gestion-cotizaciones.component.ts:110-123 | a blank search adds nothing to the status filter, and "todos" shows everything |
| Cotizaciones.EstadisticasDe | src/app/components/gestion-cotizaciones/gestion-cotizaciones.component.ts:98-104 | the total is the list length, each status counter is the number of quotations whose `estado` is exactly that status (the length of the `filter`), and the four together never exceed the total |
| Cotizaciones.SumaContadores | src/app/components/gestion-cotizaciones/gestion-cotizaciones.component.ts:100-103 | each quotation adds to at most one status counter |
| Cotizaciones.EstadisticasConFiltro | src/app/components/gestion-cotizaciones/gestion-cotizaciones.component.ts:98-112 | under a status filter that status's counter equals the total and the others are 0 |
| Cotizaciones.CambiarEstado | src/app/components/gestion-cotizaciones/gestion-cotizaciones.component.ts:150-153 | only the status changes, only of the first quotation with that id (as `find` returns), which takes the new status; with no such id nothing changes |
| Cotizaciones.EliminarSoloEsaCotizacion | src/app/components/gestion-cotizaciones/gestion-cotizaciones.component.ts:171 | the local delete keeps, in order, exactly the quotations with another id |
| Cotizaciones.Digitos | src/app/components/gestion-cotizaciones/gestion-cotizaciones.component.ts:191 | `replace(/\D/g, '')` keeps only digits, and every digit of the input |
| Cotizaciones.DigitosTodos | src/app/components/gestion-cotizaciones/gestion-cotizaciones.component.ts:191 | stripping the non-digits leaves a text of digits alone unchanged |
| Cotizaciones.DigitosEnOrden | src/app/components/gestion-cotizaciones/gestion-cotizaciones.component.ts:191 | the digits keep their order: a character added at the end adds itself when it is a digit, nothing otherwise |
| Cotizaciones.NumeroWhatsApp | src/app/components/gestion-cotizaciones/gestion-cotizaciones.component.ts:183-196 | a number is accepted exactly when the raw phone (`TelefonoCrudo`: `tel \|\| num \|\| ''` of an object, the trimmed text of a string, else "") has at least nine digits, and it is then those digits, in order |
| Cotizaciones.NumeroLimpio | src/app/components/gestion-cotizaciones/gestion-cotizaciones.component.ts:187-196 | a phone written as nine or more digits is used unchanged |
| Cotizaciones.EnlaceWhatsApp | src/app/components/gestion-cotizaciones/gestion-cotizaciones.component.ts:201 | a link exists exactly when the number is accepted, and is `https://wa.me/51` followed by it |
| Cotizaciones.EstadoColor | src/app/components/gestion-cotizaciones/gestion-cotizaciones.component.ts:244-252 | the grey default appears exactly for a status outside the four known ones |
| Cotizaciones.EstadoIcon | src/app/components/gestion-cotizaciones/gestion-cotizaciones.component.ts:254-262 | the clipboard default appears exactly for a status outside the four known ones |
| Cotizaciones.NombreProducto | src/app/components/gestion-cotizaciones/gestion-cotizaciones.component.ts:264-266 | the first non-empty of name, equipment and category, else "Producto"; never empty |
| Cotizaciones.GestionCotizaciones.constructor | src/app/components/gestion-cotizaciones/gestion-cotizaciones.component.ts:39-61 | the initial fields, with `totalPaginas` 1 and no page buttons |
| Cotizaciones.GestionCotizaciones.CalcularEstadisticas | src/app/components/gestion-cotizaciones/gestion-cotizaciones.component.ts:98-104 | the counters become the statistics of the filtered list |
| Cotizaciones.GestionCotizaciones.ActualizarPaginacion | src/app/components/gestion-cotizaciones/gestion-cotizaciones.component.ts:307-318 | the page count, the clamped page, the buttons and the visible slice describe the filtered list |
| Cotizaciones.GestionCotizaciones.AplicarFiltros | src/app/components/gestion-cotizaciones/gestion-cotizaciones.component.ts:106-130 | the filtered list, the counters and the pages follow the filters, from page 1 |
| Cotizaciones.GestionCotizaciones.CambiarPagina | src/app/components/gestion-cotizaciones/gestion-cotizaciones.component.ts:133-136 | the requested page, clamped, is shown |
| Cotizaciones.GestionCotizaciones.LimpiarFiltros | src/app/components/gestion-cotizaciones/gestion-cotizaciones.component.ts:139-144 | filters reset and every quotation is listed and counted; the pages are left as they were |
| Cotizaciones.GestionCotizaciones.IniciarCarga | src/app/components/gestion-cotizaciones/gestion-cotizaciones.component.ts:73-75 | loading starts with no error |
| Cotizaciones.GestionCotizaciones.CargaExitosa | src/app/components/gestion-cotizaciones/gestion-cotizaciones.component.ts:84-91 | the reply (a list, or the `data` of a wrapper) is listed unfiltered, counted and paginated, and loading ends |
| Cotizaciones.GestionCotizaciones.CargaFallida | src/app/components/gestion-cotizaciones/gestion-cotizaciones.component.ts:79-84 | a failed load records the error and shows an empty list |
| Cotizaciones.GestionCotizaciones.EstadoActualizado | src/app/components/gestion-cotizaciones/gestion-cotizaciones.component.ts:149-154 | the status changes and the filters are reapplied when the id is known; otherwise nothing visible changes |
| Cotizaciones.GestionCotizaciones.CotizacionEliminada | src/app/components/gestion-cotizaciones/gestion-cotizaciones.component.ts:170-172 | the quotation leaves the list and the filters are reapplied |
| Productos.NormalizarCodigo | src/app/components/productos/productos.component.ts:142 | the normalised code has the trimmed length, no lower-case letter, and is empty exactly when the input is blank |
| Productos.NormalizarIdempotente | src/app/components/productos/productos.component.ts:142 | normalising a normalised code changes nothing |
| Productos.CodigoGuardadoEstable | src/app/components/productos/productos.component.ts:142-149 | a stored (alphanumeric, upper-case) code normalises to itself |
| Productos.Revisar | src/app/components/productos/productos.component.ts:129-149 | missing fields stop the save first; a blank code next; the save passes exactly when the fields are filled and the normalised code is alphanumeric |
| Productos.PrefijoId | src/app/components/productos/productos.component.ts:368 | the captured id is the longest prefix without `&` or whitespace |
| Productos.PrefijoIdTodo | src/app/components/productos/productos.component.ts:368 | an id made only of id characters is captured whole |
| Productos.Capturado | src/app/components/productos/productos.component.ts:368 | the captured group is a non-empty run of id characters after the prefix that matched |
| Productos.PrimerEnlace | src/app/components/productos/productos.component.ts:368-369 | the first position from which the regular expression matches, or `None` exactly when it matches nowhere |
| Productos.PrimerEnlaceUnico | src/app/components/productos/productos.component.ts:368-369 | a position that matches with no earlier match is the one the scan finds |
| Productos.Coincidencia | src/app/components/productos/productos.component.ts:368-369 | the regular expression matches exactly when some position starts a link prefix followed by an id character; the id is the greedy run after the prefix at the first such position |
| Productos.CoincidenciaEn | src/app/components/productos/productos.component.ts:368-369 | a match at a position with no earlier match yields that position's greedy id |
| Productos.ConvertirYouTubeURL | src/app/components/productos/productos.component.ts:361-374 | empty stays empty and embed links are kept; otherwise a link the expression matches becomes the embed link for the captured id, and any other text comes back unchanged |
| Productos.ConvertirIdempotente | src/app/components/productos/productos.component.ts:361-374 | converting twice is converting once |
| Productos.PrefijoIdHasta | src/app/components/productos/productos.component.ts:368 | the greedy id stops exactly where `&`, whitespace or the end follows it |
| Productos.CapturaTras | src/app/components/productos/productos.component.ts:368 | a link prefix followed by an id that ends there starts a match capturing that id |
| Productos.ConvertirTras | src/app/components/productos/productos.component.ts:361-374 | text with a link prefix and an id, no earlier match and no `/embed/`, converts to the embed link for that id |
| Productos.ConvertirCorto | src/app/components/productos/productos.component.ts:367-371 | `pre + youtu.be/ID + post` becomes `https://www.youtube.com/embed/ID` when no match starts earlier and ID ends where `post` begins |
| Productos.ConvertirWatch | src/app/components/productos/productos.component.ts:367-371 | `pre + youtube.com/watch?v=ID + post` becomes `https://www.youtube.com/embed/ID` when no match starts earlier and ID ends where `post` begins |
| Productos.SinY | src/app/components/productos/productos.component.ts:368 | text without a "y" cannot start a match, since both link prefixes begin with "y" |
| Productos.ConvertirWatchHttps | src/app/components/productos/productos.component.ts:361-374 | `https://www.youtube.com/watch?v=ID&...` becomes `https://www.youtube.com/embed/ID` |
| Productos.Preparar | src/app/components/productos/productos.component.ts:141-159 | only the code and the video link are rewritten: the code once the first two checks pass, the link only in link mode and once all checks pass |
| Productos.ArmarCarga | src/app/components/productos/productos.component.ts:161-180 | the payload copies the form fields and has no `_id`; images and video appear exactly when non-empty |
| Productos.Enviar | src/app/components/productos/productos.component.ts:127-246 | the save is refused exactly when a check fails; otherwise it is an update of the edited id when one is set, else a create; the sent code is alphanumeric upper-case; the price alert fires exactly for a missing or negative price |
| Productos.VideoEnviado | src/app/components/productos/productos.component.ts:156-180 | a link-mode video is sent converted, a file-mode video as it is, and an empty one not at all |
| Productos.FormularioDe | src/app/components/productos/productos.component.ts:251-267 | the edit form trims the code, defaults an empty status to "Normal", reads missing images, texts and video as empty and a missing `destacado` as false, and copies the other fields |
| Productos.CodigoEditadoRecortado | src/app/components/productos/productos.component.ts:252 | the code loaded into the form is already trimmed |
| Productos.ModoDe | src/app/components/productos/productos.component.ts:273-286 | a field is in file mode exactly when its value starts with the data-URL marker |
| Productos.EditarYGuardar | src/app/components/productos/productos.component.ts:249-270 | saving a product right after loading it for edit updates that product with the same code, texts, stock, price and main image |
| Productos.BuscarPropiedades | src/app/components/productos/productos.component.ts:336-343 | the search (`CoincideBusqueda`) keeps, in order, exactly the products whose lower-cased name or whose code contains the lower-cased term |
| Productos.BuscarVacio | src/app/components/productos/productos.component.ts:337-343 | an empty search shows every product |
| Productos.CodigoNoCoincideConLetras | src/app/components/productos/productos.component.ts:341-342 | a term with a letter never matches a code without lower-case letters, such as one saved through the form |
| Productos.EliminarProductoPropiedades | src/app/components/productos/productos.component.ts:303 | the local delete keeps, in order, exactly the products without that `_id` |
| Productos.ProductosComponent.constructor | src/app/components/productos/productos.component.ts:23-86 | the initial fields: empty lists, price 0, page 1 of 5 items, every mode a link |
| Productos.ProductosComponent.UpdatePagination | src/app/components/productos/productos.component.ts:107-109 | the page count describes the visible list |
| Productos.ProductosComponent.PaginatedProducts | src/app/components/productos/productos.component.ts:110-114 | from page 1 on, the getter returns exactly `slice(start, start + itemsPerPage)` of the visible list, clamped to its length; at most one page, non-empty on a listed page, and item k is the matching item of the visible list |
| Productos.ProductosComponent.ProductosCargados | src/app/components/productos/productos.component.ts:95-104 | the reply is listed in full from page 1 |
| Productos.ProductosComponent.CreateProduct | src/app/components/productos/productos.component.ts:127-246 | the method returns the request of `Enviar` and leaves the form as `Preparar` says |
| Productos.ProductosComponent.RevisarYEnviar | src/app/components/productos/productos.component.ts:127-150 | the three checks in source order reject with the reason `Revisar` gives, the code is normalised in place before the format check, and a passing form yields the request of `Enviar` |
| Productos.ProductosComponent.EnviarRevisado | src/app/components/productos/productos.component.ts:157-246 | once the checks pass, a link-mode video is converted in place and the update or creation that `Enviar` describes is issued |
| Productos.ProductosComponent.EditProduct | src/app/components/productos/productos.component.ts:249-291 | the form, the edited id (none for an empty `_id`), the video mode and the four image modes follow the product |
| Productos.ProductosComponent.ModosDeImagen | src/app/components/productos/productos.component.ts:280-287 | each image field's mode follows its value |
| Productos.ProductosComponent.ProductoEliminado | src/app/components/productos/productos.component.ts:302-307 | the product leaves both lists, from page 1 |
| Productos.ProductosComponent.ResetForm | src/app/components/productos/productos.component.ts:314-334 | the empty form without a price, no edited id, link mode |
| Productos.ProductosComponent.Buscar | src/app/components/productos/productos.component.ts:336-347 | the visible list is the search result, from page 1, still an ordered sub-list of the products |
| BannerOfertas.Presentes | src/app/components/bannerofertas/bannerofertas.component.ts:100 | one file per filled slot, and exactly the files in the slots |
| BannerOfertas.PresentesEnOrden | src/app/components/bannerofertas/bannerofertas.component.ts:100 | the files come out in slot order: a later slot's file comes after the earlier ones |
| BannerOfertas.ContarOcupados | src/app/components/bannerofertas/bannerofertas.component.ts:95-97 | the count is at most the slot count, 0 exactly when all are empty, full exactly when all are filled |
| BannerOfertas.CambiarSlot | src/app/components/bannerofertas/bannerofertas.component.ts:74-86 | changing one slot changes the count by that slot's old and new contribution |
| BannerOfertas.MensajeFinal | src/app/components/bannerofertas/bannerofertas.component.ts:141-146 | success text exactly when nothing failed, mixed text otherwise; the number uploaded follows the prefix, and in the mixed text the number failed follows " exitosas, "; each number is the decimal numeral of the count |
| BannerOfertas.BannerOfertasComponent.constructor | src/app/components/bannerofertas/bannerofertas.component.ts:15-23 | three empty slots, no banner file, kind "principal" |
| BannerOfertas.BannerOfertasComponent.OnFileSelected | src/app/components/bannerofertas/bannerofertas.component.ts:28-29 | the banner file is the chosen one, or none |
| BannerOfertas.BannerOfertasComponent.PreviewCargado | src/app/components/bannerofertas/bannerofertas.component.ts:33 | the preview is the read data URL |
| BannerOfertas.BannerOfertasComponent.SubirBanner | src/app/components/bannerofertas/bannerofertas.component.ts:38-46 | without a file only the error message is set; with one its upload under the current kind is returned |
| BannerOfertas.BannerOfertasComponent.BannerSubido | src/app/components/bannerofertas/bannerofertas.component.ts:50-53 | success message, file and preview cleared |
| BannerOfertas.BannerOfertasComponent.BannerFallido | src/app/components/bannerofertas/bannerofertas.component.ts:62-64 | the error message names the kind |
| BannerOfertas.BannerOfertasComponent.OnCarruselFileSelected | src/app/components/bannerofertas/bannerofertas.component.ts:70-74 | a chosen file fills only that slot and the count grows when the slot was empty; no choice changes nothing |
| BannerOfertas.BannerOfertasComponent.CarruselPreviewCargado | src/app/components/bannerofertas/bannerofertas.component.ts:77-79 | only that slot's preview is set |
| BannerOfertas.BannerOfertasComponent.EliminarImagenCarrusel | src/app/components/bannerofertas/bannerofertas.component.ts:84-86 | that slot's file and preview are emptied, the others kept, and the count drops when it held a file |
| BannerOfertas.BannerOfertasComponent.ContarImagenesCarrusel | src/app/components/bannerofertas/bannerofertas.component.ts:95-97 | the filled-slot count is between 0 and 3, 0 exactly when all are empty |
| BannerOfertas.BannerOfertasComponent.SubirCarrusel | src/app/components/bannerofertas/bannerofertas.component.ts:99-117 | no file: error message and no upload; otherwise one `carrusel` upload per filled slot, in order, and the progress message |
| BannerOfertas.BannerOfertasComponent.FinalizarCargaCarrusel | src/app/components/bannerofertas/bannerofertas.component.ts:141-150 | the summary message and all six slots empty, in fresh arrays |

## Left out

- Socket.IO transport (connect, `registrar`, `emit`, disconnect, connection errors): inbound events are method calls, and an outbound message is the method's return value.
- HTTP requests in every component and service: only their success and failure callbacks are modelled, as methods. The URLs, form data and request bodies are not.
- The error callback of the roster request (an alert only), and the error callbacks of the product requests, which build alert texts from the server's error details.
- `enviarArchivo` (a file upload whose reply is handled like `enviarMensaje`), `descargarPDF`, `verPDF`, `abrirCorreo`, `llamarTelefono`, `obtenerHora`, `scrollToBottom`, `abrirSelector`: browser APIs, downloads, locale formatting and navigation.
- `alert`, `confirm`, `console`, `setTimeout`, `window.open`, `dispatchEvent` and the resetting of file inputs through the DOM. `confirm` is a boolean parameter.
- `FileReader`: previews arrive as a method call carrying the data URL.
- `onFileSelected` and `onVideoSelected` of the product form, which only store a `FileReader` result in a form field.
- The upload-completion counting of `subirCarrusel` (its callbacks may arrive in any order): `FinalizarCargaCarrusel` takes the two totals as parameters.
- `ChatNotificationService`, the sidebar and the application shell: the service is the `totalPublicado` field.
- `localStorage` and JSON: the store is the `Almacen` value. A parse failure is its `Ilegible` case.
- The quotation fields `fecha`, `userId` and `contacto`, the product `precio` of a quotation line, and `precioReal`: nothing in the modelled code reads them.
- `ChatAdmin.EsDuplicado`: dates are integer milliseconds; parsing ISO strings is not modelled.
- `Texto.Lower`: maps ASCII letters only, not the full Unicode case mapping of `toLowerCase`.
- `Texto.Upper`: maps ASCII letters only, not the full Unicode case mapping of `toUpperCase` (for example `ß` to `SS`).
- `Cotizaciones.EstadoColor`: the source looks the status up in an object literal, so a status named after an `Object.prototype` member (`constructor`, `toString`, `__proto__`) yields that inherited member instead of grey; the model gives grey for every status outside the four known ones.
- `Cotizaciones.EstadoIcon`: the same object-literal lookup, so such a status yields the inherited member instead of the clipboard icon; the model gives the clipboard for every status outside the four known ones.
- `Cotizaciones.EnlaceWhatsApp`: the URL-encoded `?text=` greeting is not modelled, because `encodeURIComponent` is left out.
- `ChatAdmin.ObtenerNombreArchivo`: `decodeURIComponent` is not applied.
- `Productos.Enviar`: prices and stock are integers. `Number(...)` conversions of numeric strings and floating-point prices are not modelled, except that a missing price is sent as `NaN` (`None`).
- `Productos.ProductosComponent.UpdatePagination`: nothing clamps `currentPage` in this component, and the model does not either.
