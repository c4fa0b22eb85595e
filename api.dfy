/**
 * The HTTP API's endpoints, as decisions over repository outcomes: a value, or an HTTP error
 * status (404 missing or inactive room, 400 bad time text, 409 conflict, 500 failed insert,
 * 404 nothing cancelled).
 *
 * Each repository call opens its own connection, so an endpoint that makes two calls takes
 * two connection outcomes.
 */
module Api {
  import opened Wrappers
  import opened Models
  import opened Repositories
  import opened Parsing

  datatype Respuesta<T> = Ok(cuerpo: T) | ErrorHttp(codigo: int)

  /** What `strptime(texto, "%H:%M")` returns: that time on 1 January 1900. */
  function HoraDe1900(t: Hora): FechaHora {
    FechaHora(Fecha(1900, 1, 1), t)
  }

  /** GET /auditorios: the active rooms. */
  function ObtenerAuditorios(db: Database, conexion: bool): (r: seq<Auditorio>)
    reads db
    ensures forall a :: a in r <==> conexion && a in db.auditorios && a.activo
    ensures forall a :: multiset(r)[a] == if conexion && a.activo then multiset(db.auditorios)[a] else 0
  {
    db.ObtenerAuditorios(conexion)
  }

  /** GET /auditorios/{id}: the room, or 404 when it is missing, inactive or unreachable. */
  function ObtenerAuditorio(db: Database, auditorioId: int, conexion: bool): (r: Respuesta<Auditorio>)
    reads db
    ensures r.Ok? <==> conexion && AuditorioActivo(db.auditorios, auditorioId)
    ensures r.Ok? ==> r.cuerpo in db.auditorios && r.cuerpo.id == Some(auditorioId) && r.cuerpo.activo
    ensures r.ErrorHttp? ==> r.codigo == 404
  {
    match db.ObtenerAuditorio(auditorioId, conexion)
    case None => ErrorHttp(404)
    case Some(a) => Ok(a)
  }

  /** GET /auditorios/{id}/eventos: 404 for a missing or inactive room, else the room's listing. */
  method ObtenerEventosAuditorio(db: Database, auditorioId: int, fecha: Option<Fecha>,
                                 conexionAuditorio: bool, conexionEventos: bool)
    returns (r: Respuesta<seq<Evento>>)
    requires db.Valid()
    ensures r.ErrorHttp? <==> !(conexionAuditorio && AuditorioActivo(db.auditorios, auditorioId))
    ensures r.ErrorHttp? ==> r.codigo == 404
    ensures r.Ok? && conexionEventos ==>
      multiset(r.cuerpo) == multiset(AEventos(Filtrar(db.eventos, PorAuditorio(auditorioId, fecha))))
    ensures r.Ok? && !conexionEventos ==> r.cuerpo == []
    ensures r.Ok? ==> EventosOrdenados(r.cuerpo)
    ensures r.Ok? ==> forall k :: 0 <= k < |r.cuerpo| ==> CoincideEvento(PorAuditorio(auditorioId, fecha), r.cuerpo[k])
  {
    var auditorio := db.ObtenerAuditorio(auditorioId, conexionAuditorio);
    if auditorio.None? {
      return ErrorHttp(404);
    }
    var eventos := db.ObtenerEventosAuditorio(auditorioId, fecha, conexionEventos);
    r := Ok(eventos);
  }

  /**
   * GET /auditorios/{id}/disponibilidad: 404 for a missing or inactive room, 400 when either
   * time is not HH:MM, else the checker's answer for that room, date and interval.
   */
  function VerificarDisponibilidad(db: Database, auditorioId: int, fecha: Fecha, horaInicio: string, horaFin: string,
                                   conexionAuditorio: bool, conexionEventos: bool): (r: Respuesta<bool>)
    reads db
    ensures r == ErrorHttp(404) <==> !(conexionAuditorio && AuditorioActivo(db.auditorios, auditorioId))
    ensures r == ErrorHttp(400) <==>
      conexionAuditorio && AuditorioActivo(db.auditorios, auditorioId)
      && (ParseHora(horaInicio).None? || ParseHora(horaFin).None?)
    ensures r.ErrorHttp? ==> r.codigo == 404 || r.codigo == 400
    ensures r.Ok? ==> ParseHora(horaInicio).Some? && ParseHora(horaFin).Some?
    ensures r.Ok? ==>
      (r.cuerpo <==> conexionEventos && forall k :: 0 <= k < |db.eventos| ==>
                       !EnConflicto(db.eventos[k], auditorioId, fecha, ParseHora(horaInicio).value, ParseHora(horaFin).value))
  {
    if db.ObtenerAuditorio(auditorioId, conexionAuditorio).None? then ErrorHttp(404)
    else
      match (ParseHora(horaInicio), ParseHora(horaFin))
      case (Some(inicio), Some(fin)) =>
        Ok(db.VerificarDisponibilidad(auditorioId, fecha, HoraDe1900(inicio), HoraDe1900(fin), conexionEventos))
      case _ => ErrorHttp(400)
  }

  /** GET /usuarios/{telegram_id}/eventos: the repository listing, as it is. */
  method ObtenerEventosUsuario(db: Database, telegramId: int, conexion: bool) returns (r: seq<Evento>)
    requires db.Valid()
    ensures conexion ==> multiset(r) == multiset(AEventos(Filtrar(db.eventos, PorUsuario(telegramId))))
    ensures !conexion ==> r == []
    ensures EventosOrdenados(r)
    ensures forall k :: 0 <= k < |r| ==> CoincideEvento(PorUsuario(telegramId), r[k])
  {
    r := db.ObtenerEventosUsuario(telegramId, conexion);
  }

  /**
   * POST /eventos: 409 when the checker reports a conflict (the store is untouched), else the
   * insert, answering 500 when it fails. Nothing checks that the start precedes the end, or that
   * the room is active.
   */
  method CrearEvento(db: Database, evento: Evento, conexionVerificar: bool, conexionCrear: bool)
    returns (r: Respuesta<()>)
    requires db.Valid()
    modifies db
    ensures db.Valid()
    ensures var disponible := old(db.VerificarDisponibilidad(evento.auditorioId, evento.fecha.fecha,
                                                             evento.horaInicio, evento.horaFin, conexionVerificar));
            var creado := disponible && conexionCrear && old(ExisteAuditorio(db.auditorios, evento.auditorioId))
                          && evento.usuarioTelegramId in old(db.usuarios);
            && (!disponible ==> r == ErrorHttp(409) && unchanged(db))
            && (disponible ==> (r.Ok? <==> creado) && (r.ErrorHttp? ==> r.codigo == 500))
            && db.eventos == (if creado then old(db.eventos) + [FilaNueva(old(db.siguienteEventoId), evento)] else old(db.eventos))
            && db.siguienteEventoId == old(db.siguienteEventoId) + (if disponible && conexionCrear then 1 else 0)
    ensures db.auditorios == old(db.auditorios) && db.usuarios == old(db.usuarios)
    ensures db.siguienteUsuarioId == old(db.siguienteUsuarioId)
    ensures old(db.SinSolapes()) ==> db.SinSolapes()
  {
    var disponible := db.VerificarDisponibilidad(evento.auditorioId, evento.fecha.fecha,
                                                 evento.horaInicio, evento.horaFin, conexionVerificar);
    if !disponible {
      return ErrorHttp(409);
    }
    if db.SinSolapes() {
      ComprobarYCrear(db, evento, conexionVerificar);
    }
    var creado := db.CrearEvento(evento, conexionCrear);
    r := if creado then Ok(()) else ErrorHttp(500);
  }

  /** DELETE /eventos/{id}: success iff the repository cancelled the event, else 404 whatever the reason. */
  method CancelarEvento(db: Database, eventoId: int, telegramId: int, conexion: bool) returns (r: Respuesta<()>)
    requires db.Valid()
    modifies db
    ensures db.Valid()
    ensures r.Ok? <==> conexion && exists k :: 0 <= k < |old(db.eventos)| && Cancelable(old(db.eventos)[k], eventoId, telegramId)
    ensures r.ErrorHttp? ==> r.codigo == 404
    ensures db.eventos == if r.Ok? then CancelarFilas(old(db.eventos), eventoId, telegramId) else old(db.eventos)
    ensures db.auditorios == old(db.auditorios) && db.usuarios == old(db.usuarios)
    ensures db.siguienteEventoId == old(db.siguienteEventoId) && db.siguienteUsuarioId == old(db.siguienteUsuarioId)
    ensures old(db.SinSolapes()) ==> db.SinSolapes()
  {
    var cancelado := db.CancelarEvento(eventoId, telegramId, conexion);
    r := if cancelado then Ok(()) else ErrorHttp(404);
  }

}
