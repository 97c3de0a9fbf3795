# Club portal client: a verified model

This project models the client of a sports-club portal in Dafny. The client is a React
front end. Members use it to book courts, enrol in classes, buy match tickets, pay monthly
dues and edit their profile. Administrators use it to see the club's figures, manage members
and add matches and classes.

The model covers three things:

- **The data cache (`DataContext`).** It holds seven collections plus the `loading` and
  `error` flags. It also holds the actions, each behind its "authenticated" guard and, for
  admin actions, its "admin" guard. It is the class `DataContext.DataStore`.
- **The session (`AuthContext`).** It holds the identity and the token, both in memory and in
  storage. It is the class `AuthContext.Session`.
- **The rules the pages embed.** These are the court hour slots and the booking checks, the
  ticket quantity clamp and purchase checks, and the sign-up checks. They also cover the
  profile merge, the dues period and receipt number, class capacity and buttons, the
  activity list and the dashboard figures. Finally they cover the member table's self
  protection, the match form and the class form.

Each page with state is a small class whose methods are its handlers. Pure computations are
functions.

The network, storage, clock and browser are all parameters:

- **Server answers.** Every answer is a `Reply<T>`: `Ok(data)` for a 2xx, `Rejected(message)`
  for a non-2xx, or `Unreachable` when `fetch` throws.
- **Requests.** A request is reported as the `sent: Option<Request>` out-parameter. `None`
  means a guard refused before any network call.
- **Refetch.** The bulk read after an action is a second `Reply<Cache>` parameter.
- **Clock and dates.** The clock and date parsing are parameters (`now`, `dateOf`, `Hoy`).
- **Dialogs.** `window.confirm` is a boolean parameter. `alert` is returned as
  `alert: Option<string>`.

Shared modules:

- `Text` covers the JavaScript string behaviour the pages rely on: `String(n)`,
  `padStart(2, "0")`, `slice(-6)`, `parseInt`, and `||` on strings.
- `Seqs` covers the array methods: `filter`, `find`, `some`, the length of a filter, `reduce`
  and `sort`.
- `ClubTypes` holds the records, the requests and the answers.
- `UserJson` covers the JSON text under which the session keeps its identity.

Where a code comment and the code disagree, the model follows the code. `MisActividades.jsx`
says classes "stay at the bottom" of the activity list. The code instead sorts them at the
time its list was last computed. `MisActividades.ClasesSitAtNow` proves what the code does,
with one `now` for the whole list.

## Model

| member | source | states |
|---|---|---|
| DataContext.Guard | src/context/DataContext.jsx:159-160 | Refuses exactly when there is no user, or when the action is admin-only and the role is not "admin". The messages are "No autenticado" first, then "Requiere rol de admin". |
| DataContext.AdminGuardStricter | src/context/DataContext.jsx:158-160 | Whatever the admin guard lets through, the member guard lets through. When the member guard refuses, both refuse with the same message. |
| DataContext.Fetched | src/context/DataContext.jsx:34-64 | A 2xx bulk read gives exactly its data, with nothing merged from before. Any failure gives seven empty collections. |
| DataContext.FetchError | src/context/DataContext.jsx:37-54 | There is no error exactly on a 2xx. A non-2xx gives "Error al cargar datos: " followed by the body's error or "Error desconocido". A thrown fetch gives the connection message. |
| DataContext.ToggleActivoPatch | src/context/DataContext.jsx:215-219 | There is no patch exactly when no cached member has the id. Otherwise the patch carries only `activo`, negated from the first cached member with that id. |
| DataContext.DataStore.constructor | src/context/DataContext.jsx:12-23 | Seven empty collections, `loading` true, no error. |
| DataContext.DataStore.SetState | src/context/DataContext.jsx:12 | The cache becomes exactly the given value. |
| DataContext.DataStore.FetchInitialData | src/context/DataContext.jsx:30-68 | The cache, error and `loading` end as `Settled(res)`: the fetched cache, the fetch error, and `loading` false. This holds on every path. |
| DataContext.DataStore.PagarCuota | src/context/DataContext.jsx:78-93 | Without a user it throws and sends nothing. Otherwise it sends `{mes, anio, medio}`. A 2xx refetches. A non-2xx throws "Error al pagar cuota" and changes nothing. |
| DataContext.DataStore.ReservarCancha | src/context/DataContext.jsx:95-111 | Guarded. A 2xx appends exactly the returned booking to `reservas` and leaves the other six collections alone. A failure throws the body's message or "Error al reservar", and the cache is unchanged. |
| DataContext.DataStore.MemberCall | src/context/DataContext.jsx:113-154 | The shape shared by the member actions: the guard, one request, a refetch on success, and the body's message or the fallback otherwise, with no change. |
| DataContext.DataStore.InscribirClase | src/context/DataContext.jsx:113-125 | Guarded enrol request. It refetches on success and otherwise throws the message or "Error al inscribir". |
| DataContext.DataStore.BajaClase | src/context/DataContext.jsx:127-139 | Guarded drop request. It refetches on success and otherwise throws the message or "Error al dar de baja". |
| DataContext.DataStore.ComprarEntradas | src/context/DataContext.jsx:141-154 | Guarded ticket order. It refetches on success and otherwise throws the message or "Error compra entradas". |
| DataContext.DataStore.AdminCall | src/context/DataContext.jsx:158-183 | The shape shared by the admin actions: both guards and one request. A 2xx refetches and returns the body. A non-2xx throws the message or the fallback. A thrown fetch throws the connection message. Failures change nothing. |
| DataContext.DataStore.ActualizarUsuario | src/context/DataContext.jsx:158-183 | Admin update of a member with the given payload, with fallback "Error al actualizar usuario". |
| DataContext.DataStore.EliminarUsuario | src/context/DataContext.jsx:185-209 | Admin delete of a member, with fallback "Error al eliminar usuario". |
| DataContext.DataStore.ToggleActivo | src/context/DataContext.jsx:211-220 | Both guards first. Then "Usuario no encontrado" with no request when the id is not cached. Otherwise one update that negates `activo`. |
| DataContext.DataStore.CrearClase | src/context/DataContext.jsx:222-247 | Admin creation of a class from the payload, with fallback "Error al crear clase". |
| DataContext.DataStore.CrearPartido | src/context/DataContext.jsx:249-274 | Admin creation of a match from the payload, with fallback "Error al crear partido". |
| DataContext.DataStore.ToggleEstadoCancha | src/context/DataContext.jsx:276-282 | No guard: the request is always sent. Only a 2xx refetches. A non-2xx resolves silently with no change. A thrown fetch propagates. |
| AuthContext.RestoreUser | src/context/AuthContext.jsx:7-10 | A missing or empty "user" entry means no session. Otherwise the identity read back from the layout a login writes (`UserJson.DecodeEncode`), or `Unparseable` for any other text. |
| AuthContext.RestoreToken | src/context/AuthContext.jsx:12-14 | The "token" entry, or none when it is missing or empty. |
| AuthContext.LoggedOut | src/context/AuthContext.jsx:50-51 | Both keys are gone, and every other key is kept with its value. |
| AuthContext.LogoutIdempotent | src/context/AuthContext.jsx:47-53 | Logging out twice leaves the same storage as logging out once. |
| AuthContext.LoggedOutRestoresNothing | src/context/AuthContext.jsx:47-53 | After a logout, a reload restores no user and no token. |
| AuthContext.LoginRestores | src/context/AuthContext.jsx:32-35 | The storage a login writes reads back as the same identity, and as the same token when the token is not empty. |
| AuthContext.Session.constructor | src/context/AuthContext.jsx:7-14 | The user and token are what storage holds, and memory agrees with storage. |
| AuthContext.Session.Login | src/context/AuthContext.jsx:17-45 | One request. A 2xx sets the user and token, writes both keys and resolves true, and memory and storage agree. A failure throws the body's message or "Error al iniciar sesión" and changes nothing. |
| AuthContext.Session.Logout | src/context/AuthContext.jsx:47-53 | No user, no token, both keys removed, whatever the state before. |
| UserJson.DecodeEncode | src/context/AuthContext.jsx:9 | Parsing the stored text of an identity gives that identity back. |
| UserJson.EncodeNonEmpty | src/context/AuthContext.jsx:34 | The stored identity text is never empty, so a reload always parses it. |
| Canchas.HourText | src/pages/Canchas.jsx:15-18 | Five characters: the hour as two digits, then ":00". |
| Canchas.HourTextIsPadded | src/pages/Canchas.jsx:15-17 | The hour text is `padStart(2, "0")` of the hour followed by ":00". |
| Canchas.SlotForShape | src/pages/Canchas.jsx:15-24 | The slot starts at the hour and ends at (hour + 1) mod 24. Its value and caption begin with the hour's two digits. |
| Canchas.BuildHourSlots | src/pages/Canchas.jsx:12-27 | The loop yields the hour table: 16 slots, the i-th being the slot of hour 8 + i. Each hour's text is `HourText`, which is the padded hour per `HourTextIsPadded`. |
| Canchas.HourTableShape | src/pages/Canchas.jsx:14-24 | Slot i starts at hour 8 + i and ends at hour (9 + i) mod 24. Its value is "start-end" and its label "start - end". |
| Canchas.LastSlotWraps | src/pages/Canchas.jsx:16 | The last slot runs from "23:00" to "00:00". |
| Canchas.HourTableDistinct | src/pages/Canchas.jsx:12-27 | No two slots share a start time or a value. |
| Canchas.SixIsFirst | src/pages/Canchas.jsx:29-30 | Slot 10 is the first that starts at "18:00". |
| Canchas.DefaultIsSix | src/pages/Canchas.jsx:29-30 | The default slot value is that of the 18:00-19:00 slot. |
| Canchas.ReservasDelDia | src/pages/Canchas.jsx:47-53 | Exactly the bookings of the chosen court and day, each as often as in the cache and in the cache's order. |
| Canchas.SlotOptions | src/pages/Canchas.jsx:56-67 | One option per slot, in order. An option is disabled and marked " (Reservado)" exactly when some booking of the day starts at its start. |
| Canchas.ReservaCheck | src/pages/Canchas.jsx:73-98 | Refusals in order: unusable court, unknown slot, taken slot. Otherwise the start and end of the first slot with the chosen value. |
| Canchas.AcceptedIsFree | src/pages/Canchas.jsx:90-98 | An accepted booking carries a slot's times and never starts where a booking of the same court and day starts. |
| Canchas.DisabledIffRefused | src/pages/Canchas.jsx:56-98 | On a usable court, a slot is shown disabled exactly when the checks refuse it as taken. |
| Canchas.CanchasPage.constructor | src/pages/Canchas.jsx:35-39 | Court 1, today's date, the 18:00 slot, no message. |
| Canchas.CanchasPage.Reservar | src/pages/Canchas.jsx:69-113 | A refusal sets its message and sends nothing. Otherwise the booking with the slot's times goes to the cache, and its outcome becomes the message. |
| Entradas.InitialPartidoId | src/pages/Entradas.jsx:14-16 | The first match's id, or none exactly when there are no matches. |
| Entradas.Selected | src/pages/Entradas.jsx:23 | A cached match with the selected id, or none exactly when none has it. |
| Entradas.Clamp | src/pages/Entradas.jsx:137-143 | Always within 1..4. Values in range are kept, values below become 1 and values above become 4. |
| Entradas.ClampIdempotent | src/pages/Entradas.jsx:137-143 | Clamping twice is clamping once. |
| Entradas.CompraCheck | src/pages/Entradas.jsx:37-50 | No selected match is refused first. Then a quantity outside 1..4 is refused. The check passes exactly when neither applies. |
| Entradas.EntradasUser | src/pages/Entradas.jsx:25-29 | Exactly the tickets of the member, each as often as in the cache and in the cache's order. |
| Entradas.ClampedNeverRefused | src/pages/Entradas.jsx:44-50 | A quantity the input kept never trips the quantity check. |
| Entradas.EntradasPage.constructor | src/pages/Entradas.jsx:14-19 | The first match, one ticket, no message. |
| Entradas.EntradasPage.SelectPartido | src/pages/Entradas.jsx:103 | The selection becomes the chosen id. |
| Entradas.EntradasPage.OnCantidadChange | src/pages/Entradas.jsx:137-143 | NaN is ignored and anything else is clamped. The quantity stays within 1..4. |
| Entradas.EntradasPage.HandleComprar | src/pages/Entradas.jsx:37-59 | A refusal sets its message and orders nothing. Otherwise the match and quantity are ordered, the success message shows and the quantity returns to 1. |
| Register.SanitizeDni | src/pages/Register.jsx:120-122 | The digits of the input, only the first eight of them. |
| Register.SanitizeDniIdempotent | src/pages/Register.jsx:120-122 | Sanitising a sanitised DNI changes nothing. |
| Register.RegistroCheck | src/pages/Register.jsx:26-43 | Required fields first, then a taken email, then a taken DNI compared as text. It passes exactly when all fields are filled and no member shares the email or the DNI. |
| Register.SignUpKeepsUnique | src/pages/Register.jsx:32-60 | A sign-up the checks let through keeps emails unique and DNIs unique. |
| Register.RegisterPage.constructor | src/pages/Register.jsx:13-19 | Empty fields, no messages. |
| Register.RegisterPage.OnDniInput | src/pages/Register.jsx:120-122 | The DNI field holds the sanitised input: digits only, at most eight. |
| Register.RegisterPage.OnSubmit | src/pages/Register.jsx:21-62 | A refusal sets its error and changes nothing. Otherwise exactly one new member is appended, with role "user" and active, and the success message is set. |
| Cuotas.Socio | src/pages/Cuotas.jsx:20-23 | The cached member with the user's id, or none exactly when there is no user or no such member. |
| Cuotas.EstadoTexto | src/pages/Perfil.jsx:125 | "PAGA" exactly when the dues state is "paga", "PENDIENTE" otherwise. The dues page shows the same text. |
| Cuotas.MonthYearReadsBack | src/pages/Cuotas.jsx:37-39 | For a month 1..12, "MM/YYYY" holds two digits that read as the month, a slash, and text that `parseInt` reads as the year. |
| Cuotas.PeriodoOrReadsBack | src/pages/Perfil.jsx:128-130 | The fallback is shown exactly when the record lacks a month or a year. Otherwise the text reads back as the record's month and year. |
| Cuotas.PeriodoShownReadsBack | src/pages/Cuotas.jsx:25-39 | The dues page's period reads back as the record's month and year, or as today's. |
| Cuotas.MedioLabel | src/pages/Cuotas.jsx:210-211 | "debito" maps to "Tarjeta de débito" and "efectivo" to "Efectivo". Anything else, including a missing value, maps to "MercadoPago". |
| Cuotas.PayButtonFor | src/pages/Cuotas.jsx:165-182 | The pay button is offered exactly when the dues are not paid. It is disabled and reads "Procesando..." exactly while busy. |
| Cuotas.OperationNumberRoundTrip | src/pages/Cuotas.jsx:232-236 | The receipt number reads back as the `Hoy` date's year, month and day, and the timestamp modulo 10^6. |
| Cuotas.CuotasPage.constructor | src/pages/Cuotas.jsx:42-44 | The member's method or "mercadopago", no receipt, not busy. |
| Cuotas.CuotasPage.SetMedio | src/pages/Cuotas.jsx:126 | The chosen method is kept. |
| Cuotas.CuotasPage.CloseTicket | src/pages/Cuotas.jsx:197 | The receipt closes. |
| Cuotas.CuotasPage.PagarAhora | src/pages/Cuotas.jsx:46-64 | Sends this month and year with the chosen method. On success the receipt opens. Otherwise the alert "Error al procesar el pago" shows and nothing changes. The page is not busy afterwards on either path. |
| Perfil.MergeById | src/pages/Perfil.jsx:53 | The same length. Members with the id are merged with the answer, and every other member is unchanged. |
| Perfil.MergeByIdAbsent | src/pages/Perfil.jsx:53 | With no member carrying the id, the merge changes nothing. |
| Perfil.MergeByIdKeepsIds | src/pages/Perfil.jsx:53 | An answer that does not change the id keeps every id in place. |
| Perfil.MergeByIdIdempotent | src/pages/Perfil.jsx:51-54 | Applying the same answer twice is applying it once. |
| Perfil.MergeTwice | src/pages/Perfil.jsx:53 | Spreading the same object twice over a member is spreading it once. |
| Perfil.DniDraftOf | src/pages/Perfil.jsx:29 | No member, a DNI of 0 or an empty DNI gives "". A numeric DNI gives digits that read back as it. |
| Perfil.PagosUser | src/pages/Perfil.jsx:17-22 | Exactly the member's payments, each as often as in the cache, newest first. |
| Perfil.UltimoPagoIsLatest | src/pages/Perfil.jsx:24 | There is no last payment exactly when the member has none. Otherwise it is one of the member's payments, and none of theirs is later. |
| Perfil.TieneIff | src/pages/Perfil.jsx:112-116 | Each flag holds exactly when some booking, class roster or ticket names the member. |
| Perfil.PerfilPage.constructor | src/pages/Perfil.jsx:27-30 | The drafts start from the member's record, and the message starts empty. |
| Perfil.PerfilPage.SetNombre | src/pages/Perfil.jsx:194 | The name draft takes the input. |
| Perfil.PerfilPage.SetApellido | src/pages/Perfil.jsx:206 | The surname draft takes the input. |
| Perfil.PerfilPage.OnDniInput | src/pages/Perfil.jsx:221-224 | The DNI draft holds only digits, at most eight. |
| Perfil.PerfilPage.GuardarDatos | src/pages/Perfil.jsx:32-61 | Sends the three drafts. A 2xx merges the answer over the member and leaves all else alone, with "Datos guardados ✅". A failure changes nothing, with "Error al guardar ❌". |
| Clases.EstoyInscriptoIsEnRoster | src/pages/Clases.jsx:68 | Being on a card's roster is what the profile counts as having a class. |
| Clases.BadgeVariant | src/pages/Clases.jsx:79 | "error" exactly when the roster length equals the capacity, "success" otherwise. |
| Clases.ButtonFor | src/pages/Clases.jsx:98-117 | The drop button appears exactly for a member on the roster. The enrol button is disabled exactly when the class is full, and then reads "Cupo completo". |
| Clases.EnabledButtonMeansRoom | src/pages/Clases.jsx:98-107 | The enrol button is enabled exactly when the member is off the roster and the roster does not fill the capacity. The badge then shows places left. |
| Clases.OverfullStaysOpen | src/pages/Clases.jsx:66-67 | An over-full class has negative places left, a green badge and an enabled enrol button. |
| Clases.ClasesPage.constructor | src/pages/Clases.jsx:14-15 | No message. |
| Clases.ClasesPage.HandleInscribir | src/pages/Clases.jsx:23-30 | Hands the class id to the enrol action and shows "Inscripción exitosa ✅". |
| Clases.ClasesPage.HandleBaja | src/pages/Clases.jsx:32-39 | Hands the class id to the drop action and shows "Baja realizada correctamente ❌". |
| MisActividades.ReservaItem | src/pages/MisActividades.jsx:20-27 | Sorts by the booking's date and start. It carries the court's name exactly when the court is cached. |
| MisActividades.ClaseItem | src/pages/MisActividades.jsx:37-43 | A class card sorts at the time `now`. |
| MisActividades.EntradaItem | src/pages/MisActividades.jsx:52-62 | With the match cached: its date, tournament, rival and stadium. Without it: sorted at the time `now`, with an empty date. |
| MisActividades.ReservasUser | src/pages/MisActividades.jsx:17-28 | One booking card per booking of the member, in order. |
| MisActividades.ClasesUser | src/pages/MisActividades.jsx:33-44 | One class card per class whose roster holds the member, in order. |
| MisActividades.EntradasUser | src/pages/MisActividades.jsx:49-64 | One ticket card per ticket order of the member, in order. |
| MisActividades.Actividades | src/pages/MisActividades.jsx:67-71 | A permutation of the three lists together, so its length is the sum of theirs, sorted by date with the earliest first. |
| MisActividades.EmptyIffNothingToShow | src/pages/MisActividades.jsx:93 | The empty message shows exactly when the profile's three flags are all down. |
| MisActividades.ClaseCardAtNow | src/pages/MisActividades.jsx:39 | Every class card in the sorted list carries the time `now`. |
| MisActividades.ClasesSitAtNow | src/pages/MisActividades.jsx:67-71 | Cards dated before `now` come before every class card. Cards dated after it come after every class card. |
| Dashboard.UsuariosActivos | src/pages/admin/Dashboard.jsx:14-16 | At most the number of members. It is 0 exactly when no dues are paid, and all members exactly when all are paid. |
| Dashboard.IngresosCuotas | src/pages/admin/Dashboard.jsx:11 | A multiple of 15000 between 0 and 15000 times the member count. It is 0 exactly when no dues are paid. |
| Dashboard.IngresosIsActivosTimesMonto | src/pages/admin/Dashboard.jsx:11-16 | The income is 15000 times the number of paid members. |
| Dashboard.TotalUsuarios | src/pages/admin/Dashboard.jsx:13 | Never below the number of paid members. |
| Dashboard.EntradasVendidasBounds | src/pages/admin/Dashboard.jsx:12 | With orders of 1 to 4 tickets, the tickets sold are between the order count and four times it. |
| Dashboard.EntradasVendidasAppend | src/pages/admin/Dashboard.jsx:12 | A new order adds its quantity to the tickets sold. |
| Dashboard.SignUpKeepsIncome | src/pages/admin/Dashboard.jsx:11-16 | A sign-up raises the total by one and keeps the paid count and the income. |
| Usuarios.WithCampo | src/pages/admin/Usuarios.jsx:92-108 | The named input takes the text, and every other field is kept. |
| Usuarios.SiNoReadsBack | src/pages/admin/Usuarios.jsx:115-116 | The "Activo" select reads back what it shows. |
| Usuarios.MergeForm | src/pages/admin/Usuarios.jsx:71 | The sent form overwrites exactly the five form fields of a member. |
| Usuarios.UntouchedFormChangesNothing | src/pages/admin/Usuarios.jsx:57-71 | Saving a copied form without edits asks for no change. |
| Usuarios.Target | src/pages/admin/Usuarios.jsx:31 | A cached member with the id, or none exactly when no member has it. |
| Usuarios.AdminError | src/pages/admin/Usuarios.jsx:73-74 | There is no error exactly for an admin with a 2xx. Otherwise the guard's message, the body's message, or the connection message. |
| Usuarios.FilaFor | src/pages/admin/Usuarios.jsx:133-153 | The toggle is on every row, captioned by what it does. Edit and delete appear exactly on rows with another email. |
| Usuarios.RowActionsMatchSelfChecks | src/pages/admin/Usuarios.jsx:143-152 | With unique ids, a row offers edit and delete exactly when the handlers' self checks let them through. |
| Usuarios.UsuariosPage.constructor | src/pages/admin/Usuarios.jsx:11-14 | Not editing, an empty active form, not busy, no error. |
| Usuarios.UsuariosPage.ToggleActivo | src/pages/admin/Usuarios.jsx:18-28 | One update for a cached member from an admin. On failure the action's error and no change. Not busy afterwards. |
| Usuarios.UsuariosPage.EliminarUsuario | src/pages/admin/Usuarios.jsx:30-48 | Self-deletion is refused with an alert, and no request is sent. An unconfirmed delete does nothing. A successful delete leaves the page busy. A failure shows the error and ends the busy state. |
| Usuarios.UsuariosPage.ComenzarEdicion | src/pages/admin/Usuarios.jsx:50-65 | Self-editing is refused with an alert. Otherwise editing starts with the member's five fields copied. |
| Usuarios.UsuariosPage.OnInput | src/pages/admin/Usuarios.jsx:92-108 | The named input takes the text. |
| Usuarios.UsuariosPage.OnActivoSelect | src/pages/admin/Usuarios.jsx:116 | `activo` becomes whether "Sí" was chosen. |
| Usuarios.UsuariosPage.CancelarEdicion | src/pages/admin/Usuarios.jsx:125 | Editing ends. |
| Usuarios.UsuariosPage.GuardarEdicion | src/pages/admin/Usuarios.jsx:67-78 | Sends the form. Editing ends only on success, and the page is not busy afterwards on either path. |
| PartidosAbm.RivalesDistinct | src/pages/admin/PartidosABM.jsx:17-28 | Ten distinct, non-empty rivals. |
| PartidosAbm.NuevoPartidoOf | src/pages/admin/PartidosABM.jsx:40-45 | The id is the time, with the typed rival and date. A stock typed as a number is kept as that integer. |
| PartidosAbm.StockBadge | src/pages/admin/PartidosABM.jsx:63 | "success" exactly when the stock is a number above 0. |
| PartidosAbm.AddedStockBadge | src/pages/admin/PartidosABM.jsx:44-63 | A match added with stock n shows green exactly when n > 0. |
| PartidosAbm.PartidosPage.constructor | src/pages/admin/PartidosABM.jsx:11-15 | Empty fields, no messages. |
| PartidosAbm.PartidosPage.SetRival | src/pages/admin/PartidosABM.jsx:83 | The rival takes the choice. |
| PartidosAbm.PartidosPage.SetFechaHora | src/pages/admin/PartidosABM.jsx:99 | The date takes the input. |
| PartidosAbm.PartidosPage.SetStockEntradas | src/pages/admin/PartidosABM.jsx:110 | The stock takes the input. |
| PartidosAbm.PartidosPage.HandleAgregar | src/pages/admin/PartidosABM.jsx:30-56 | Both messages are cleared. An empty field sets "Todos los campos son obligatorios" and changes nothing. Otherwise exactly one match is appended, the rest of the cache is kept, the fields are emptied and success is set. |
| ClasesAbm.EmptyForm | src/pages/admin/ClasesABM.jsx:13-18 | All four fields are empty. |
| ClasesAbm.WithCampo | src/pages/admin/ClasesABM.jsx:20-23 | The named field takes the value, and the others are kept. |
| ClasesAbm.PayloadOf | src/pages/admin/ClasesABM.jsx:29-34 | The three texts are unchanged, and a capacity typed as a number is sent as that integer. |
| ClasesAbm.TypedFormIsFilled | src/pages/admin/ClasesABM.jsx:20-27 | Typing all four fields yields exactly those values, and the form passes the submit check. |
| ClasesAbm.ListingBadge | src/pages/admin/ClasesABM.jsx:90-94 | The admin badge is the member page's badge: "error" exactly when the roster fills the capacity. |
| ClasesAbm.ClasesAbmPage.constructor | src/pages/admin/ClasesABM.jsx:13-18 | An empty form. |
| ClasesAbm.ClasesAbmPage.HandleChange | src/pages/admin/ClasesABM.jsx:20-23 | Only the named field changes. |
| ClasesAbm.ClasesAbmPage.HandleSubmit | src/pages/admin/ClasesABM.jsx:25-37 | With a field empty: nothing. Otherwise the payload goes to the creation action and the form is emptied. |
| Text.ParseIntRoundTrip | src/pages/admin/ClasesABM.jsx:33 | `parseInt` of an integer's decimal text gives that integer. |
| Text.LastCharsValue | src/pages/Cuotas.jsx:236 | `slice(-k)` of any digit run reads as its value modulo 10^k. |
| Text.LastDigitsOfNat | src/pages/Cuotas.jsx:236 | `slice(-6)` of a timestamp's digits reads as the timestamp modulo 10^6. |
| Text.Pad2Closed | src/pages/Canchas.jsx:15 | `padStart(2, "0")` of 0..99 is its two digits. |
| Text.OrDefault | src/context/DataContext.jsx:105 | `s \|\| fallback`: a non-empty message is kept, and anything else gives the fallback. |
| Seqs.Filter | src/pages/admin/Dashboard.jsx:11 | Kept elements satisfy the test and come from the input. Every element that satisfies the test is kept. |
| Seqs.FilterCount | src/pages/admin/Dashboard.jsx:11 | `filter` keeps each element that satisfies the test as often as the input holds it, and no other element. |
| Seqs.FilterKeepsOrder | src/pages/Canchas.jsx:47-53 | `filter` keeps exactly the positions whose element satisfies the test, in increasing order. |
| Seqs.Find | src/pages/Canchas.jsx:73 | Nothing exactly when no element satisfies the test. Otherwise an element that does. |
| Seqs.FindFirst | src/pages/Canchas.jsx:29-30 | `find` returns the first element that satisfies the test. |
| Seqs.Any | src/pages/Register.jsx:32 | `some` holds exactly when some element satisfies the test. |
| Seqs.CountExtremes | src/pages/admin/Dashboard.jsx:14-16 | A filter's length is 0 exactly when no element satisfies the test, and the full length exactly when all do. |
| Seqs.SumByAppend | src/pages/admin/Dashboard.jsx:12 | `reduce` with addition over a concatenation is the sum of the two parts. |
| Seqs.SortBy | src/pages/MisActividades.jsx:67-71 | The result is a permutation of the input, sorted by the key. |

## Left out

- Network transport: URLs, headers, JSON bodies and status codes. Every answer is a `Reply` parameter, and a refetch is a second `Reply<Cache>`.
- A 2xx answer whose body is not JSON. The client's `res.json()` would throw there, and the model treats every 2xx as parsed.
- A non-2xx without a JSON body on member actions. `res.json()` would throw a syntax error there instead of the action's message.
- AuthContext.Session.Login: a non-2xx whose body is not JSON is not modelled. `res.json()` runs before the status test (`AuthContext.jsx:25-27`), so it would throw a syntax error instead of the body's message or "Error al iniciar sesión".
- Concurrency: the order in which overlapping refetches land, and the un-awaited calls. `Entradas.jsx:53`, `Clases.jsx:25,34` and `ClasesABM.jsx:29` hand their payloads over and show success whatever the request's fate. The model returns the payload handed over.
- Clases.ClasesPage.HandleInscribir: does not model the rejected promise when no user is logged in, because the page never observes it.
- Cuotas.CuotasPage.PagarAhora: does not state that `loading` is true while the call is in flight. A sequential model observes only the final state, which is not busy.
- `setTimeout` clearing of messages, `window.location` redirects, navigation after sign-up, and `console.error`.
- Locale formatting: `toLocaleString`, `Intl.NumberFormat` (the money amounts) and `Intl.DateTimeFormat` (the receipt date). The activity list takes the match-date text as a parameter.
- Date parsing and the clock. `new Date(text)` is the `dateOf` parameter, `new Date()` is `now`, and the dues page's date is a `Hoy` value. Invalid dates (NaN) and the sort comparator's behaviour on them are not modelled. Years and timestamps are non-negative.
- `Number(e.target.value)` on the quantity input is taken as already converted to a number or NaN.
- The profile photo upload (`onFotoChange`, Perfil.jsx:64-110): it goes to an external image service.
- Perfil.DniDraftOf: a numeric DNI is sent back as text. The type of the JSON field in the request is not modelled.
- AuthContext.Session.constructor: requires a "user" entry that parses. When `JSON.parse` throws there the page crashes at mount, and the model does not run the page further.
- The `cuotaColor` class names, the other CSS, the images and the presentation components.
- The role gating of routes: `ProtectedRoute` is not part of this model.
- AuthContext.RestoreUser: the stored user is reduced to the five fields of an `Identity`, while the client stores the backend's whole user object. Only the layout `UserJson.Encode` writes is read back. Other valid JSON texts (another key order, whitespace, extra fields, `null`) give `Unparseable` in the model, where `JSON.parse` would accept them. `UserJson.Escape` escapes only `"` and `\`, not control characters.
- Entradas.EntradasPage.OnCantidadChange: the quantity is an integer or NaN. A non-integer such as the 2.5 that `Number` gives for "2.5", which `Entradas.jsx:142` lets through, is not represented.
- Seqs.SortBy: stability is not stated. The contract says nothing about the order of elements with equal keys.
- MisActividades.Actividades: the class cards and the ticket cards without a cached match each take `new Date()` in their own `useMemo` (`MisActividades.jsx:39` and `:56`), so the two times can differ. The model uses one `now` for both.
- DataContext.DataStore.AdminCall: an unreachable server is always the text "Failed to fetch". The admin actions look for "fetch" in the error text (`DataContext.jsx:178, 204, 242, 269`), and browsers whose fetch error says otherwise (such as "Load failed") get the raw text there instead of the connection message. Member actions pass the raw text on.
