# Auditorium reservations: a Dafny model

This project models the reservation engine of an auditorium-booking system that has two front
ends: a Telegram bot that collects a booking over a five-step text dialog, and a small HTTP API.
Both front ends share one MySQL store. The model covers:

- **Records** (`models.dfy`): rooms (`Auditorio`), events (`Evento`) and users (`Usuario`), with
  the defaults their declarations give: no id before the row exists, an active room, and status
  `reservado`. It also holds the Gregorian calendar the dates live in.
- **Store** (`repositories.dfy`): the three tables held in memory by the class `Database`.
  - `CrearUsuario` inserts a user if its `telegram_id` is new.
  - `CrearEvento` inserts an event with no overlap check. The foreign keys make it fail on an
    unknown room or owner.
  - `VerificarDisponibilidad` is the availability query, with its three-disjunct overlap condition.
  - Two listings filter the events and then sort them by date and start time.
  - `CancelarEvento` changes status to `cancelado`, but only for the owner of an event still
    `reservado`.
  - Room lookups see active rooms only.
  - Each repository call opens its own connection. A boolean parameter says whether that
    connection worked; when it did not, the call takes its error path.
  - The global invariant `SinSolapes` says that no two reserved events of one room and date
    overlap. Sequential check-then-insert keeps it (`ComprobarEInsertar`), and so does cancelling.
- **Text formats** (`parsing.dfy`, `texto.dfy`): Python's `strptime` with the formats `%d/%m/%Y`
  and `%H:%M`, written out with the field patterns CPython uses. It rejects impossible dates,
  leap-day errors, the year 0 and trailing text. Every accepted text has the field widths the
  patterns allow. `strftime` writes dates and times back, and parsing what it writes gives back
  the original value: every time of day in whole minutes, and every date in the years 1000 to
  9999. The model also covers the "sin descripcion" sentinel.
- **Button data** (`callbacks.dfy`): the `callback_data` strings the menus write, such as
  `auditorio_<id>` and `cancelar_<id>`. `Leer` reads them as `button_callback` does, and every
  written string reads back as the action that wrote it.
- **Bot** (`handlers.dfy`): the class `TelegramBot`, which keeps a map of per-user sessions.
  - `Avanzar` is one dialog step as a pure function. Each step either advances or leaves the
    session unchanged.
  - `HandleMessage` updates the map step by step and is proved equal to `Avanzar`.
  - The last step (`Confirmar`) checks availability, inserts the event and closes the session.
    It keeps `SinSolapes`.
  - `ButtonCallback` dispatches the buttons. "reservar" opens a session and "cancelar" cancels a
    reservation.
- **HTTP API** (`api.dfy`): each endpoint maps a store outcome to a value or to an HTTP status:
  404, 400, 409 or 500. `CrearEvento` runs the same check-then-insert as the bot and keeps
  `SinSolapes` too.

Times are whole seconds after midnight (`Hora`), and dates are (year, month, day). A stored
event keeps only the date of `fecha` and the times of day of its two hours, as the insert does.
"Today" is a parameter of the bot's date step.

The model keeps these behaviours of the code, which a reader may not expect:

- Creating a reservation is not atomic. The availability check and the insert run on separate
  connections. The model is sequential, and it proves only that check-then-insert run one
  request at a time keeps `SinSolapes`.
- The title step accepts any text, the empty text included.
- The description sentinel gives an absent description (`None`), not an empty one.
- The session is not always closed after the commit. When the insert succeeds but the room
  lookup that follows returns nothing (room deactivated, or no connection), the handler raises
  before it closes the session. The session stays at the description step and no answer is sent.
- The HTTP create endpoint checks neither `start < end`, nor a past date, nor that the room is
  active. An inverted interval is inserted whenever the availability query finds no conflict.

## Model

| member | source | states |
|---|---|---|
| Models.NuevoAuditorio | database/models.py:5-11 | a new room has no id and no description, and is active; the required fields are kept |
| Models.NuevoEvento | database/models.py:13-22 | a new event has no id and status "reservado"; its three datetimes and optional description are kept |
| Models.NuevoUsuario | database/models.py:25-29 | a new user has no id and no username |
| Models.EstadoTexto | database/models.py:22 | the status text is "reservado" exactly for Reservado and "cancelado" exactly for Cancelado |
| Models.FechaAnteriorOrdenEstricto | database/repositories.py:164 | date order is irreflexive, asymmetric, transitive and total |
| Repositories.ConflictoSql | database/repositories.py:130-134 | the SQL condition holds whenever the half-open intervals overlap, and for intervals with start < end it holds exactly then |
| Repositories.SolapanSimetrica | database/repositories.py:130-134 | overlap is symmetric |
| Repositories.ContiguosNoSolapan | database/repositories.py:130-134 | intervals that only touch do not overlap; a non-empty interval overlaps itself |
| Repositories.ConflictoSqlIntervalosMalFormados | database/repositories.py:130-134 | with an empty or inverted interval, the SQL condition can report a conflict where no instant is shared |
| Repositories.ContarConflictos | database/repositories.py:125-142 | the count is zero iff no reserved row of that room and date satisfies the condition |
| Repositories.ComprobarEInsertar | database/repositories.py:125-142 | appending a row the count found no conflict for keeps reserved rows of each room and date pairwise non-overlapping |
| Repositories.ComprobarYCrear | api/main.py:82-92 | inserting the row for an event the availability check accepted keeps the store free of overlaps |
| Repositories.Filtrar | database/repositories.py:157-174 | the result holds each row matching the WHERE clause (reserved; room and optional date, or owner) as often as the table does, and nothing else |
| Repositories.Insertar | database/repositories.py:164 | inserting into a sorted sequence gives a sorted permutation with the new row added |
| Repositories.Ordenar | database/repositories.py:164 | the result is sorted by (fecha, hora_inicio) and is a permutation of the input |
| Repositories.AEventosPermutacion | database/repositories.py:177-202 | converting permuted rows gives permuted records |
| Repositories.Convertir | database/repositories.py:176-202 | the loop builds one record per fetched row, in the rows' order, with the row's date at midnight and its times on that date |
| Repositories.ListadoDeFilas | database/repositories.py:176-202 | the converted, sorted, filtered rows are sorted records that each match the filter, and they are the converted matching rows |
| Repositories.CancelarFilas | database/repositories.py:265-269 | the UPDATE sets only the matching reserved rows of that owner to cancelado and leaves every other row unchanged |
| Repositories.Afectadas | database/repositories.py:271 | the rowcount is positive iff a reserved row with that id and owner exists |
| Repositories.CancelarConservaSinSolapes | database/repositories.py:265-269 | cancelling cannot create an overlap |
| Repositories.CancelarDosVeces | database/repositories.py:265-271 | after a cancel, the same cancel matches no row |
| Repositories.Activos | database/repositories.py:59 | the result holds exactly the active rooms, each as many times as the table holds it, and no inactive room |
| Repositories.BuscarActivo | database/repositories.py:74-80 | a room is found iff an active room has that id, and the one found is that room |
| Repositories.FilaNueva | database/repositories.py:97-109 | an inserted row is reserved, whatever status the record carries |
| Repositories.FilaNuevaSoloFechaYHoras | database/repositories.py:105-107 | only the date of fecha and the times of day of the two hours are stored |
| Repositories.Database.constructor | database/connection.py:58-72 | a store with the given rooms, no users and no events is valid and free of overlaps |
| Repositories.Database.CrearUsuario | database/repositories.py:10-28 | true iff connected and the telegram_id is new; then exactly that user is added with the next id, otherwise the tables are unchanged; a statement that runs uses up an id even when it fails on the duplicate key |
| Repositories.Database.ObtenerUsuario | database/repositories.py:30-47 | a user is returned iff connected and known, and it is the stored record for that telegram_id |
| Repositories.Database.ObtenerAuditorios | database/repositories.py:53-67 | the result holds exactly the active rooms, each as many times as the table holds it, or nothing without a connection |
| Repositories.Database.ObtenerAuditorio | database/repositories.py:69-86 | a room is returned iff connected and an active room has that id |
| Repositories.Database.CrearEvento | database/repositories.py:92-118 | true iff connected and both foreign keys resolve; then exactly one reserved row is appended with no overlap check, otherwise no row changes; a statement that runs uses up an event id even when a foreign key fails; the user id counter is unchanged |
| Repositories.Database.VerificarDisponibilidad | database/repositories.py:120-149 | true iff connected and no reserved row of that room and date conflicts; cancelled rows and other rooms or dates are ignored |
| Repositories.Database.Consultar | database/repositories.py:176-202 | the listing is sorted by (fecha, hora_inicio), each record matches the filter, and it holds exactly the matching rows, or nothing without a connection |
| Repositories.Database.ObtenerEventosAuditorio | database/repositories.py:151-209 | the room's reserved events (on the date, if given), sorted |
| Repositories.Database.ObtenerEventosUsuario | database/repositories.py:211-258 | the owner's reserved events, sorted |
| Repositories.Database.CancelarEvento | database/repositories.py:260-278 | true iff connected and a reserved event with that id and owner exists; only that event becomes cancelled; otherwise nothing changes; neither id counter changes |
| Parsing.ParseFecha | bot/handlers.py:228 | an accepted date is a real calendar date in years 1 to 9999 |
| Parsing.ParseFechaCampos | bot/handlers.py:228 | a text with two '/' is read field by field, and the year field must take the whole rest |
| Parsing.ParseHora | bot/handlers.py:255 | an accepted time is a whole minute of the day |
| Parsing.ParseFechaForma | bot/handlers.py:228 | every accepted date text is day (1-2 characters) / month (1-2 digits) / year (exactly 4 digits), with nothing after the year |
| Parsing.ParseHoraCampos | bot/handlers.py:255 | a text with a ':' is read field by field, and the minute field must take the whole rest |
| Parsing.ParseHoraForma | bot/handlers.py:255 | every accepted time text is hour (1-2 digits) : minute (1-2 digits), with nothing after the minute |
| Parsing.ParseFormatoFecha | bot/handlers.py:228-240 | a date written as %d/%m/%Y parses back to itself |
| Parsing.ParseFormatoHora | bot/handlers.py:255-260 | a time written as %H:%M parses back to itself |
| Parsing.EjemploBisiesto | bot/handlers.py:228 | 29/02/2024 is accepted |
| Parsing.EjemploNoBisiesto | bot/handlers.py:228 | 29/02/1900 is refused |
| Parsing.EjemploSinCeros | bot/handlers.py:228 | 1/6/2025 is accepted |
| Parsing.EjemploDiaConEspacio | bot/handlers.py:228 | " 1/06/2025" is accepted |
| Parsing.EjemplosFechaInexistente | bot/handlers.py:228 | 31/04, month 13 and year 0000 are refused |
| Parsing.EjemplosFechaMalEscrita | bot/handlers.py:228 | a two-digit year and trailing text are refused |
| Parsing.EjemploHoraCorta | bot/handlers.py:255 | "9:5" is accepted as 09:05 |
| Parsing.EjemplosHoraRechazada | bot/handlers.py:255 | 24:00, 12:60 and a seconds field are refused |
| Parsing.Descripcion | bot/handlers.py:302 | no description iff the text is "sin descripcion" in some letter case; otherwise the text is kept verbatim |
| Parsing.EjemplosDescripcion | bot/handlers.py:302 | upper and mixed case give no description; an accented or extended text is kept |
| Callbacks.TextoAIntDeIntATexto | bot/handlers.py:55 | int(str(n)) == n |
| Callbacks.SegundoCampoTrasPrefijo | bot/handlers.py:55 | split("_")[1] after a one-word prefix is the id text, whatever follows the next '_' |
| Callbacks.Leer | bot/handlers.py:48-70 | data is ignored iff it is no tag and has no prefix, and a ValueError comes only after a prefix |
| Callbacks.TextoAInt | bot/handlers.py:55-67 | on the pieces that split('_') yields, which hold no '_', int() accepts exactly an optional sign followed by ASCII digits, and str() of an int reads back |
| Callbacks.Escribir | bot/handlers.py:84-108 | every button's callback_data (also written at lines 26-28, 144-145, 177-178 and 391) is one of the four tags or starts with one of the five prefixes, so some branch of the reader handles it |
| Callbacks.LeerOpcionesAuditorio | bot/handlers.py:84 | "auditorio_" + str(id) reads back as the room's options |
| Callbacks.LeerDisponibilidad | bot/handlers.py:106 | "disponibilidad_" + str(id) reads back as that room's availability |
| Callbacks.LeerEventosAuditorio | bot/handlers.py:107 | "eventos_" + str(id) reads back as that room's events |
| Callbacks.LeerReservar | bot/handlers.py:108 | "reservar_" + str(id) reads back as a booking for that room |
| Callbacks.LeerCancelarReserva | bot/handlers.py:391 | "cancelar_" + str(id) reads back as cancelling that event |
| Callbacks.LeerVolverInicio | bot/handlers.py:69-70 | "volver_inicio" gets past every earlier test and reads back as the return to the start screen |
| Callbacks.LeerEscribir | bot/handlers.py:48-70 | every button's data, the four tags included, reads back as the action that wrote it |
| Callbacks.EjemploIdConCola | bot/handlers.py:63-64 | only the text up to the next '_' is the id |
| Callbacks.EjemploSinId | bot/handlers.py:66-67 | a prefix with no integer after it raises ValueError |
| Handlers.SesionNueva | bot/handlers.py:190-193 | a new session is at the title step for that room, with no other key |
| Handlers.Avanzar | bot/handlers.py:215-299 | a step advances iff its text is valid (title: any; date: parses and not before today; start: parses; end: parses and after start), stores exactly that value, keeps the session well formed, and otherwise leaves it unchanged with the matching error |
| Handlers.EventoDeSesion | bot/handlers.py:305-335 | the event built at the last step has no id and status "reservado", the session's room and title, the caller as owner, fecha equal to the start, both times on the session's date with start before end, and the description step's result |
| Handlers.Confirmacion | bot/handlers.py:337-349 | no answer iff the room lookup after the insert returned nothing |
| Handlers.TelegramBot.constructor | bot/handlers.py:9-13 | the bot starts with no sessions |
| Handlers.TelegramBot.Start | bot/handlers.py:15-23 | a new caller with a working connection is added as exactly that user with the next id; otherwise the user table is unchanged; other users, events and sessions never change; a statement that runs uses up a user id, and the event id counter is unchanged |
| Handlers.TelegramBot.IniciarReserva | bot/handlers.py:188-200 | the caller's session is replaced by a new one for the room, even when the room lookup then fails |
| Handlers.TelegramBot.Confirmar | bot/handlers.py:301-357 | an event from the session (owner: the caller) is inserted only if the check passed; the answer is conflict, failure or confirmation; the session is closed unless the handler raised; an insert that runs uses up an event id, and the user id counter is unchanged; no overlap is created |
| Handlers.TelegramBot.PasoNombre | bot/handlers.py:215-224 | the title step updates the caller's session in place exactly as Avanzar says, and keeps every session well formed |
| Handlers.TelegramBot.PasoFecha | bot/handlers.py:226-251 | the date step updates the caller's session in place exactly as Avanzar says, and keeps every session well formed |
| Handlers.TelegramBot.PasoHoraInicio | bot/handlers.py:253-271 | the start step updates the caller's session in place exactly as Avanzar says, and keeps every session well formed |
| Handlers.TelegramBot.PasoHoraFin | bot/handlers.py:273-299 | the end step updates the caller's session in place exactly as Avanzar says, and keeps every session well formed |
| Handlers.TelegramBot.HandleMessage | bot/handlers.py:202-357 | with no session, a prompt and no change; before the last step, exactly Avanzar; at the last step, Confirmar, including its id counters; sessions stay well formed, so the start is before the end at the description step |
| Handlers.TelegramBot.ButtonCallback | bot/handlers.py:44-70 | only "reservar" changes sessions and only "cancelar" changes events; unreadable data changes nothing; neither id counter changes; no overlap is created |
| Api.ObtenerAuditorios | api/main.py:28-31 | exactly the active rooms, each as many times as the table holds it, or none without a connection |
| Api.ObtenerAuditorio | api/main.py:33-39 | the room iff it is active, else 404 |
| Api.ObtenerEventosAuditorio | api/main.py:41-49 | 404 iff the room is missing or inactive, else the room's sorted listing |
| Api.VerificarDisponibilidad | api/main.py:51-70 | 404 for a missing or inactive room, else 400 iff a time is not HH:MM, else the checker's answer |
| Api.ObtenerEventosUsuario | api/main.py:72-76 | the repository listing for that user, unchanged |
| Api.CrearEvento | api/main.py:78-95 | 409 with the store unchanged when the check fails; otherwise success iff the insert succeeds, else 500; an insert that runs uses up an event id, and the user id counter is unchanged; no overlap is created |
| Api.CancelarEvento | api/main.py:97-103 | success iff the repository cancelled an event, else 404; only that event becomes cancelled; neither id counter changes |

## Left out

- Handlers.TelegramBot.Confirmar: every Telegram reply is assumed delivered. A reply that raises leaves the session at the description step with no answer sent: a network error, or Telegram's refusal of the confirmation's Markdown when the title or description holds an unpaired `_` or `*`. This affects the conflict reply, sent before the session is closed, and the confirmation and error replies, sent after the insert. The store is not affected: the next message re-runs the availability check.
- Concurrency: the check-then-insert race between two requests, async handlers and interleaved turns are not modelled. Every operation runs to completion before the next starts.
- Telegram rendering: message texts, Markdown, keyboards, images, `query.answer` and the screens `mostrar_auditorios`, `mostrar_opciones_auditorio`, `mostrar_disponibilidad`, `mostrar_eventos`, `mostrar_mis_reservas`, `mostrar_ayuda` and `volver_inicio`. Each of these is only a `Pantalla` answer. The welcome text of `start` is left out too.
- Handlers.TelegramBot.ButtonCallback: the `AttributeError` that `mostrar_disponibilidad` and `mostrar_eventos` raise for a missing room is not modelled, because those screens only render.
- MySQL connection setup, table creation (`database/connection.py`), process bootstrap and sample data (`main.py`). The schema is used only for its facts: the unique `telegram_id`, the default status, and the foreign keys.
- FastAPI plumbing: CORS, routing, request validation by pydantic (a malformed body answers 422 before any endpoint code runs), uvicorn, and the root endpoint `/`.
- Driver coercion: the `to_time` conversion of TIME columns, and the `None` guards of the user listing. The columns are NOT NULL, so those guards never fire.
- Logging: the `print` calls and the "Duplicate entry" test, which only decides whether to log.
- The system clock: `date.today()` is the parameter `hoy`.
- `created_at` timestamps, sub-second precision, and the VARCHAR(255) limits on names.
- AUTO_INCREMENT: each statement that runs uses up one id, as InnoDB does for single-row inserts. Counter resets after a server restart are not modelled.
- Repositories.Ordenar: rows with equal (fecha, hora_inicio) come back in some order. SQL does not fix that order, and the model promises only a sorted permutation.
- Parsing.ParseFecha: only ASCII digits are accepted. Python's `\d` also matches other Unicode decimal digits.
- Parsing.ParseHora: only ASCII digits are accepted, for the same reason.
- Parsing.ParseFormatoFecha: the round trip is proved for years 1000 to 9999 only. How `strftime` writes smaller years depends on the platform.
- Parsing.Descripcion: `lower()` is modelled on A-Z only. Other letters whose lower case maps onto the sentinel's letters are not covered.
- Callbacks.TextoAInt: surrounding whitespace and non-ASCII digits, which `int()` also accepts, are refused. So are underscores between digits, which `int()` accepts too, but every text it reads comes from `split('_')` and cannot hold one.
