/**
 * The records of the reservation system: rooms (Auditorio), events (Evento) and users (Usuario),
 * with the default field values the record declarations give them, and the calendar they use.
 *
 * A Python `datetime` is modelled by its date and its time of day in whole seconds; the
 * store keeps nothing finer than that.
 */
module Models {
  import opened Wrappers

  /** A calendar date (Python `date`, or the `.date()` part of a `datetime`). */
  datatype Fecha = Fecha(year: int, month: int, day: int)

  /** A time of day in seconds after midnight (Python `time`, or the `.time()` part of a `datetime`). */
  type Hora = t: int | 0 <= t < 86400

  /** A Python `datetime`: a date and a time of day. */
  datatype FechaHora = FechaHora(fecha: Fecha, hora: Hora)

  /** Gregorian leap years. */
  predicate IsLeapYear(y: int) {
    y % 4 == 0 && (y % 100 != 0 || y % 400 == 0)
  }

  function DaysInMonth(y: int, m: int): (n: int)
    requires 1 <= m <= 12
    ensures 28 <= n <= 31
    ensures n == 29 <==> m == 2 && IsLeapYear(y)
    ensures n == 28 <==> m == 2 && !IsLeapYear(y)
    ensures n == 30 <==> m == 4 || m == 6 || m == 9 || m == 11
  {
    if m == 2 then (if IsLeapYear(y) then 29 else 28)
    else if m == 4 || m == 6 || m == 9 || m == 11 then 30
    else 31
  }

  /** A date Python can represent: years 1 (MINYEAR) to 9999 (MAXYEAR), a real day of a real month. */
  predicate FechaValida(d: Fecha) {
    1 <= d.year <= 9999 && 1 <= d.month <= 12 && 1 <= d.day <= DaysInMonth(d.year, d.month)
  }

  /** `a < b` on dates: chronological order, which is lexicographic on (year, month, day). */
  predicate FechaAnterior(a: Fecha, b: Fecha) {
    a.year < b.year
    || (a.year == b.year && (a.month < b.month || (a.month == b.month && a.day < b.day)))
  }

  lemma FechaAnteriorOrdenEstricto(a: Fecha, b: Fecha, c: Fecha)
    ensures !FechaAnterior(a, a)
    ensures FechaAnterior(a, b) ==> !FechaAnterior(b, a)
    ensures FechaAnterior(a, b) && FechaAnterior(b, c) ==> FechaAnterior(a, c)
    ensures a == b || FechaAnterior(a, b) || FechaAnterior(b, a)
  {
  }

  /** The two values of `eventos.estado` (an ENUM column whose default is 'reservado'). */
  datatype Estado = Reservado | Cancelado

  /** The text the record type carries for each status. */
  function EstadoTexto(e: Estado): (s: string)
    ensures s == "reservado" <==> e == Reservado
    ensures s == "cancelado" <==> e == Cancelado
  {
    match e
    case Reservado => "reservado"
    case Cancelado => "cancelado"
  }

  /** A room. `id` is absent until the row exists; `activo` is the soft-delete flag. */
  datatype Auditorio = Auditorio(
    id: Option<int>,
    nombre: string,
    capacidad: int,
    ubicacion: string,
    descripcion: Option<string>,
    activo: bool)

  /**
   * An event (a reservation). The three time fields are full datetimes; `estado` is free
   * text in the record type (the database column only admits the two Estado values).
   */
  datatype Evento = Evento(
    id: Option<int>,
    auditorioId: int,
    usuarioTelegramId: int,
    nombreEvento: string,
    fecha: FechaHora,
    horaInicio: FechaHora,
    horaFin: FechaHora,
    descripcion: Option<string>,
    estado: string)

  /** A user, identified by the Telegram id; `username` is optional. */
  datatype Usuario = Usuario(
    id: Option<int>,
    telegramId: int,
    nombre: string,
    username: Option<string>)

  /** A record not yet written to the database has no id. */
  predicate Persistido(id: Option<int>) {
    id.Some?
  }

  /** An Auditorio built from its required fields: no id, no description, active. */
  function NuevoAuditorio(nombre: string, capacidad: int, ubicacion: string): (a: Auditorio)
    ensures !Persistido(a.id) && a.descripcion == None && a.activo
    ensures a.nombre == nombre && a.capacidad == capacidad && a.ubicacion == ubicacion
  {
    Auditorio(None, nombre, capacidad, ubicacion, None, true)
  }

  /** An Evento built from its required fields and an optional description: no id, status reservado. */
  function NuevoEvento(auditorioId: int, usuarioTelegramId: int, nombreEvento: string,
                       fecha: FechaHora, horaInicio: FechaHora, horaFin: FechaHora,
                       descripcion: Option<string>): (e: Evento)
    ensures !Persistido(e.id) && e.estado == EstadoTexto(Reservado)
    ensures e.auditorioId == auditorioId && e.usuarioTelegramId == usuarioTelegramId
    ensures e.nombreEvento == nombreEvento && e.descripcion == descripcion
    ensures e.fecha == fecha && e.horaInicio == horaInicio && e.horaFin == horaFin
  {
    Evento(None, auditorioId, usuarioTelegramId, nombreEvento, fecha, horaInicio, horaFin,
           descripcion, "reservado")
  }

  /** A Usuario built from its required fields: no id, no username. */
  function NuevoUsuario(telegramId: int, nombre: string): (u: Usuario)
    ensures !Persistido(u.id) && u.username == None
    ensures u.telegramId == telegramId && u.nombre == nombre
  {
    Usuario(None, telegramId, nombre, None)
  }

}
