/**
 * The Telegram bot: the per-user booking dialog and the button dispatcher.
 *
 * `userStates` maps a Telegram user id to that user's open booking session. A session walks
 * through five steps, one text message per step:
 *   EsperandoNombreEvento -> EsperandoFecha -> EsperandoHoraInicio -> EsperandoHoraFin
 *   -> EsperandoDescripcion -> (commit: the session is closed)
 * Each step either accepts its text and advances, or rejects it and leaves the session as it was.
 * The commit checks availability, inserts the event, and closes the session.
 *
 * Each repository call opens its own connection; whether it got one and its statement ran is
 * a boolean parameter. "Today" is a parameter too.
 */
module Handlers {
  import opened Wrappers
  import opened Models
  import opened Repositories
  import opened Parsing
  import opened Callbacks

  datatype Paso =
    | EsperandoNombreEvento
    | EsperandoFecha
    | EsperandoHoraInicio
    | EsperandoHoraFin
    | EsperandoDescripcion

  /** A session dict: its 'state', 'auditorio_id', and the keys the steps have added so far. */
  datatype Sesion = Sesion(
    paso: Paso,
    auditorioId: int,
    nombreEvento: Option<string>,
    fecha: Option<Fecha>,
    horaInicio: Option<Hora>,
    horaFin: Option<Hora>)

  /**
   * Each step holds exactly the keys the earlier steps stored, the date is a real calendar date,
   * and once both times are known the start is before the end.
   */
  predicate BienFormada(s: Sesion) {
    match s.paso
    case EsperandoNombreEvento =>
      s.nombreEvento.None? && s.fecha.None? && s.horaInicio.None? && s.horaFin.None?
    case EsperandoFecha =>
      s.nombreEvento.Some? && s.fecha.None? && s.horaInicio.None? && s.horaFin.None?
    case EsperandoHoraInicio =>
      s.nombreEvento.Some? && s.fecha.Some? && FechaValida(s.fecha.value) && s.horaInicio.None? && s.horaFin.None?
    case EsperandoHoraFin =>
      s.nombreEvento.Some? && s.fecha.Some? && FechaValida(s.fecha.value) && s.horaInicio.Some? && s.horaFin.None?
    case EsperandoDescripcion =>
      s.nombreEvento.Some? && s.fecha.Some? && FechaValida(s.fecha.value) && s.horaInicio.Some? && s.horaFin.Some?
      && s.horaInicio.value < s.horaFin.value
  }

  /** The session a "reservar" button opens. */
  function SesionNueva(auditorioId: int): (s: Sesion)
    ensures BienFormada(s) && s.paso == EsperandoNombreEvento && s.auditorioId == auditorioId
  {
    Sesion(EsperandoNombreEvento, auditorioId, None, None, None, None)
  }

  /** What the bot answers. */
  datatype Respuesta =
    | IniciaDesdeElMenu            // a text with no session open: "use /start"
    | PideNombreEvento(auditorio: string)
    | PideFecha(nombreEvento: string)
    | FormatoFechaIncorrecto
    | FechaAnteriorAHoy
    | PideHoraInicio(fecha: Fecha)
    | FormatoHoraIncorrecto
    | PideHoraFin(horaInicio: Hora)
    | FinNoPosterior
    | PideDescripcion(horaFin: Hora)
    | ConflictoDeHorarios
    | ReservaCreada(auditorio: string, nombreEvento: string, fecha: Fecha, horaInicio: Hora, horaFin: Hora,
                    descripcion: Option<string>)
    | ErrorAlCrear
    | ReservaCancelada
    | ErrorAlCancelar
    | Pantalla(accion: Accion)     // a menu screen; its text and keyboard are not modelled
    | SinRespuesta                 // the handler raised before answering

  /** The answers that accept the text and move the dialog on. */
  predicate Acepta(r: Respuesta) {
    r.PideFecha? || r.PideHoraInicio? || r.PideHoraFin? || r.PideDescripcion?
  }

  function PasoSiguiente(p: Paso): Paso
    requires p != EsperandoDescripcion
  {
    match p
    case EsperandoNombreEvento => EsperandoFecha
    case EsperandoFecha => EsperandoHoraInicio
    case EsperandoHoraInicio => EsperandoHoraFin
    case EsperandoHoraFin => EsperandoDescripcion
  }

  datatype Turno = Turno(sesion: Sesion, respuesta: Respuesta)

  /** One message in any step before the last: what the session becomes and what the bot answers. */
  function Avanzar(s: Sesion, texto: string, hoy: Fecha): (t: Turno)
    requires BienFormada(s) && s.paso != EsperandoDescripcion
    ensures BienFormada(t.sesion)
    ensures Acepta(t.respuesta) ==> t.sesion.paso == PasoSiguiente(s.paso)
    ensures !Acepta(t.respuesta) ==> t.sesion == s
    // the event name is taken verbatim, whatever it is
    ensures s.paso == EsperandoNombreEvento ==>
      t == Turno(s.(paso := EsperandoFecha, nombreEvento := Some(texto)), PideFecha(texto))
    // a date is accepted iff it parses and is not before today
    ensures s.paso == EsperandoFecha ==>
      (Acepta(t.respuesta) <==> ParseFecha(texto).Some? && !FechaAnterior(ParseFecha(texto).value, hoy))
    ensures s.paso == EsperandoFecha && Acepta(t.respuesta) ==>
      t.sesion == s.(paso := EsperandoHoraInicio, fecha := ParseFecha(texto))
    ensures s.paso == EsperandoFecha && !Acepta(t.respuesta) ==>
      t.respuesta == if ParseFecha(texto).None? then FormatoFechaIncorrecto else FechaAnteriorAHoy
    // a start time is accepted iff it parses
    ensures s.paso == EsperandoHoraInicio ==>
      (Acepta(t.respuesta) <==> ParseHora(texto).Some?)
    ensures s.paso == EsperandoHoraInicio && Acepta(t.respuesta) ==>
      t.sesion == s.(paso := EsperandoHoraFin, horaInicio := ParseHora(texto))
    // an end time is accepted iff it parses and is after the start
    ensures s.paso == EsperandoHoraFin ==>
      (Acepta(t.respuesta) <==> ParseHora(texto).Some? && s.horaInicio.value < ParseHora(texto).value)
    ensures s.paso == EsperandoHoraFin && Acepta(t.respuesta) ==>
      t.sesion == s.(paso := EsperandoDescripcion, horaFin := ParseHora(texto))
    ensures s.paso == EsperandoHoraFin && !Acepta(t.respuesta) ==>
      t.respuesta == if ParseHora(texto).None? then FormatoHoraIncorrecto else FinNoPosterior
    ensures (s.paso == EsperandoHoraInicio || s.paso == EsperandoHoraFin) && !Acepta(t.respuesta) && ParseHora(texto).None? ==>
      t.respuesta == FormatoHoraIncorrecto
  {
    match s.paso
    case EsperandoNombreEvento =>
      Turno(s.(paso := EsperandoFecha, nombreEvento := Some(texto)), PideFecha(texto))
    case EsperandoFecha =>
      (match ParseFecha(texto)
       case None => Turno(s, FormatoFechaIncorrecto)
       case Some(fecha) =>
         if FechaAnterior(fecha, hoy) then Turno(s, FechaAnteriorAHoy)
         else Turno(s.(paso := EsperandoHoraInicio, fecha := Some(fecha)), PideHoraInicio(fecha)))
    case EsperandoHoraInicio =>
      (match ParseHora(texto)
       case None => Turno(s, FormatoHoraIncorrecto)
       case Some(hora) => Turno(s.(paso := EsperandoHoraFin, horaInicio := Some(hora)), PideHoraFin(hora)))
    case EsperandoHoraFin =>
      (match ParseHora(texto)
       case None => Turno(s, FormatoHoraIncorrecto)
       case Some(hora) =>
         if hora <= s.horaInicio.value then Turno(s, FinNoPosterior)
         else Turno(s.(paso := EsperandoDescripcion, horaFin := Some(hora)), PideDescripcion(hora)))
  }

  /** The Evento the last step builds: the date joined with each time, the caller as owner. */
  function EventoDeSesion(s: Sesion, userId: int, texto: string): (e: Evento)
    requires BienFormada(s) && s.paso == EsperandoDescripcion
    ensures !Persistido(e.id) && e.estado == EstadoTexto(Reservado)
    ensures e.auditorioId == s.auditorioId && e.usuarioTelegramId == userId && e.nombreEvento == s.nombreEvento.value
    ensures e.fecha == e.horaInicio && e.horaInicio.fecha == e.horaFin.fecha == s.fecha.value
    ensures e.horaInicio.hora == s.horaInicio.value < e.horaFin.hora == s.horaFin.value
    ensures e.descripcion == Descripcion(texto)
  {
    var inicio := FechaHora(s.fecha.value, s.horaInicio.value);
    NuevoEvento(s.auditorioId, userId, s.nombreEvento.value, inicio, inicio,
                FechaHora(s.fecha.value, s.horaFin.value), Descripcion(texto))
  }

  /** The answer of the last step once the event is inserted: the confirmation, or nothing when the room lookup fails. */
  function Confirmacion(sala: Option<Auditorio>, e: Evento): (r: Respuesta)
    ensures r == SinRespuesta <==> sala.None?
  {
    match sala
    case None => SinRespuesta
    case Some(a) =>
      ReservaCreada(a.nombre, e.nombreEvento, e.fecha.fecha, e.horaInicio.hora, e.horaFin.hora, e.descripcion)
  }

  class TelegramBot {
    /** The three repositories share one database. */
    const db: Database
    /** Open booking sessions by Telegram user id. */
    var userStates: map<int, Sesion>

    ghost predicate Valid()
      reads this, db
    {
      db.Valid() && forall u :: u in userStates ==> BienFormada(userStates[u])
    }

    constructor (db: Database)
      requires db.Valid()
      ensures Valid() && this.db == db && userStates == map[]
    {
      this.db := db;
      userStates := map[];
    }

    /** /start registers the caller (a no-op for a known user); the greeting is not modelled. */
    method Start(userId: int, nombre: string, username: Option<string>, conexion: bool)
      requires Valid()
      modifies db
      ensures Valid()
      ensures userId in db.usuarios || (!conexion && userId !in old(db.usuarios))
      ensures db.usuarios == if conexion && userId !in old(db.usuarios)
                             then old(db.usuarios)[userId := Usuario(Some(old(db.siguienteUsuarioId)), userId, nombre, username)]
                             else old(db.usuarios)
      ensures db.eventos == old(db.eventos) && db.auditorios == old(db.auditorios)
      ensures db.siguienteUsuarioId == old(db.siguienteUsuarioId) + (if conexion then 1 else 0)
      ensures db.siguienteEventoId == old(db.siguienteEventoId)
      ensures userStates == old(userStates)
    {
      var creado := db.CrearUsuario(userId, nombre, username, conexion);
    }

    /**
     * A "reservar" button: the caller's session restarts at the first step for that room, even
     * when the room lookup then fails and the handler raises before answering.
     */
    method IniciarReserva(userId: int, auditorioId: int, conexion: bool) returns (respuesta: Respuesta)
      requires Valid()
      modifies this
      ensures Valid()
      ensures userStates == old(userStates)[userId := SesionNueva(auditorioId)]
      ensures respuesta == match db.ObtenerAuditorio(auditorioId, conexion)
                           case None => SinRespuesta
                           case Some(a) => PideNombreEvento(a.nombre)
    {
      userStates := userStates[userId := SesionNueva(auditorioId)];
      var auditorio := db.ObtenerAuditorio(auditorioId, conexion);
      if auditorio.None? {
        respuesta := SinRespuesta;
        return;
      }
      respuesta := PideNombreEvento(auditorio.value.nombre);
    }

    /** The last step: availability check, then insert, then close the session. */
    method Confirmar(userId: int, texto: string, c: Conexiones) returns (respuesta: Respuesta)
      requires Valid() && userId in userStates && userStates[userId].paso == EsperandoDescripcion
      modifies this, db
      ensures Valid()
      ensures var s := old(userStates[userId]);
              var e := EventoDeSesion(s, userId, texto);
              var disponible := old(db.VerificarDisponibilidad(s.auditorioId, s.fecha.value, e.horaInicio, e.horaFin, c.verificar));
              var creado := disponible && c.crear && old(ExisteAuditorio(db.auditorios, s.auditorioId)) && userId in old(db.usuarios);
              && db.eventos == (if creado then old(db.eventos) + [FilaNueva(old(db.siguienteEventoId), e)] else old(db.eventos))
              && db.siguienteEventoId == old(db.siguienteEventoId) + (if disponible && c.crear then 1 else 0)
              && respuesta == (if !disponible then ConflictoDeHorarios
                               else if !creado then ErrorAlCrear
                               else Confirmacion(db.ObtenerAuditorio(s.auditorioId, c.consultarAuditorio), e))
      ensures userStates == if respuesta == SinRespuesta then old(userStates) else old(userStates) - {userId}
      ensures db.auditorios == old(db.auditorios) && db.usuarios == old(db.usuarios)
      ensures db.siguienteUsuarioId == old(db.siguienteUsuarioId)
      ensures old(db.SinSolapes()) ==> db.SinSolapes()
    {
      var s := userStates[userId];
      var descripcion := Descripcion(texto);
      var inicio := FechaHora(s.fecha.value, s.horaInicio.value);
      var fin := FechaHora(s.fecha.value, s.horaFin.value);
      var disponible := db.VerificarDisponibilidad(s.auditorioId, s.fecha.value, inicio, fin, c.verificar);
      if !disponible {
        respuesta := ConflictoDeHorarios;
        userStates := userStates - {userId};
        return;
      }
      var evento := NuevoEvento(s.auditorioId, userId, s.nombreEvento.value, inicio, inicio, fin, descripcion);
      assert evento == EventoDeSesion(s, userId, texto);
      if db.SinSolapes() {
        ComprobarYCrear(db, evento, c.verificar);
      }
      var creado := db.CrearEvento(evento, c.crear);
      if creado {
        var auditorio := db.ObtenerAuditorio(s.auditorioId, c.consultarAuditorio);
        if auditorio.None? {
          respuesta := SinRespuesta;
          return;
        }
        respuesta := ReservaCreada(auditorio.value.nombre, s.nombreEvento.value, s.fecha.value,
                                   s.horaInicio.value, s.horaFin.value, descripcion);
      } else {
        respuesta := ErrorAlCrear;
      }
      userStates := userStates - {userId};
    }

    /** The title step: any text is taken as the event's name. */
    method PasoNombre(userId: int, texto: string, hoy: Fecha) returns (respuesta: Respuesta)
      requires Valid() && userId in userStates && userStates[userId].paso == EsperandoNombreEvento
      modifies this
      ensures Valid()
      ensures var t := Avanzar(old(userStates[userId]), texto, hoy);
              userStates == old(userStates)[userId := t.sesion] && respuesta == t.respuesta
    {
      var estado := userStates[userId];
      estado := estado.(nombreEvento := Some(texto));
      estado := estado.(paso := EsperandoFecha);
      userStates := userStates[userId := estado];
      respuesta := PideFecha(texto);
    }

    /** The date step: a date that parses and is not before today is stored. */
    method PasoFecha(userId: int, texto: string, hoy: Fecha) returns (respuesta: Respuesta)
      requires Valid() && userId in userStates && userStates[userId].paso == EsperandoFecha
      modifies this
      ensures Valid()
      ensures var t := Avanzar(old(userStates[userId]), texto, hoy);
              userStates == old(userStates)[userId := t.sesion] && respuesta == t.respuesta
    {
      var estado := userStates[userId];
      var fecha := ParseFecha(texto);
      if fecha.None? {
        respuesta := FormatoFechaIncorrecto;
      } else if FechaAnterior(fecha.value, hoy) {
        respuesta := FechaAnteriorAHoy;
      } else {
        estado := estado.(fecha := fecha);
        estado := estado.(paso := EsperandoHoraInicio);
        userStates := userStates[userId := estado];
        respuesta := PideHoraInicio(fecha.value);
      }
    }

    /** The start step: a time that parses is stored. */
    method PasoHoraInicio(userId: int, texto: string, hoy: Fecha) returns (respuesta: Respuesta)
      requires Valid() && userId in userStates && userStates[userId].paso == EsperandoHoraInicio
      modifies this
      ensures Valid()
      ensures var t := Avanzar(old(userStates[userId]), texto, hoy);
              userStates == old(userStates)[userId := t.sesion] && respuesta == t.respuesta
    {
      var estado := userStates[userId];
      var horaInicio := ParseHora(texto);
      if horaInicio.None? {
        respuesta := FormatoHoraIncorrecto;
      } else {
        estado := estado.(horaInicio := horaInicio);
        estado := estado.(paso := EsperandoHoraFin);
        userStates := userStates[userId := estado];
        respuesta := PideHoraFin(horaInicio.value);
      }
    }

    /** The end step: a time that parses and is after the start is stored. */
    method PasoHoraFin(userId: int, texto: string, hoy: Fecha) returns (respuesta: Respuesta)
      requires Valid() && userId in userStates && userStates[userId].paso == EsperandoHoraFin
      modifies this
      ensures Valid()
      ensures var t := Avanzar(old(userStates[userId]), texto, hoy);
              userStates == old(userStates)[userId := t.sesion] && respuesta == t.respuesta
    {
      var estado := userStates[userId];
      var horaFin := ParseHora(texto);
      if horaFin.None? {
        respuesta := FormatoHoraIncorrecto;
      } else if horaFin.value <= estado.horaInicio.value {
        respuesta := FinNoPosterior;
      } else {
        estado := estado.(horaFin := horaFin);
        estado := estado.(paso := EsperandoDescripcion);
        userStates := userStates[userId := estado];
        respuesta := PideDescripcion(horaFin.value);
      }
    }

    /** A text message from `userId`. */
    method HandleMessage(userId: int, texto: string, hoy: Fecha, c: Conexiones) returns (respuesta: Respuesta)
      requires Valid()
      modifies this, db
      ensures Valid()
      ensures userId !in old(userStates) ==>
        respuesta == IniciaDesdeElMenu && userStates == old(userStates) && unchanged(db)
      ensures userId in old(userStates) && old(userStates[userId]).paso != EsperandoDescripcion ==>
        var t := Avanzar(old(userStates[userId]), texto, hoy);
        userStates == old(userStates)[userId := t.sesion] && respuesta == t.respuesta && unchanged(db)
      ensures userId in old(userStates) && old(userStates[userId]).paso == EsperandoDescripcion ==>
        var s := old(userStates[userId]);
        var e := EventoDeSesion(s, userId, texto);
        var disponible := old(db.VerificarDisponibilidad(s.auditorioId, s.fecha.value, e.horaInicio, e.horaFin, c.verificar));
        var creado := disponible && c.crear && old(ExisteAuditorio(db.auditorios, s.auditorioId)) && userId in old(db.usuarios);
        && db.eventos == (if creado then old(db.eventos) + [FilaNueva(old(db.siguienteEventoId), e)] else old(db.eventos))
        && db.siguienteEventoId == old(db.siguienteEventoId) + (if disponible && c.crear then 1 else 0)
        && respuesta == (if !disponible then ConflictoDeHorarios
                         else if !creado then ErrorAlCrear
                         else Confirmacion(db.ObtenerAuditorio(s.auditorioId, c.consultarAuditorio), e))
        && userStates == (if respuesta == SinRespuesta then old(userStates) else old(userStates) - {userId})
      ensures db.auditorios == old(db.auditorios) && db.usuarios == old(db.usuarios)
      ensures db.siguienteUsuarioId == old(db.siguienteUsuarioId)
      ensures old(db.SinSolapes()) ==> db.SinSolapes()
    {
      if userId !in userStates {
        respuesta := IniciaDesdeElMenu;
        return;
      }
      var paso := userStates[userId].paso;
      if paso == EsperandoNombreEvento {
        respuesta := PasoNombre(userId, texto, hoy);
      } else if paso == EsperandoFecha {
        respuesta := PasoFecha(userId, texto, hoy);
      } else if paso == EsperandoHoraInicio {
        respuesta := PasoHoraInicio(userId, texto, hoy);
      } else if paso == EsperandoHoraFin {
        respuesta := PasoHoraFin(userId, texto, hoy);
      } else {
        respuesta := Confirmar(userId, texto, c);
      }
    }

    /**
     * An inline button. "reservar_<id>" opens a session and "cancelar_<id>" cancels the caller's
     * event; every other button only shows a screen. Data that raises or matches nothing
     * changes nothing and gets no answer.
     */
    method ButtonCallback(userId: int, data: string, conexion: bool) returns (respuesta: Respuesta)
      requires Valid()
      modifies this, db
      ensures Valid()
      ensures Leer(data).Despachar? && Leer(data).accion.Reservar? ==>
        userStates == old(userStates)[userId := SesionNueva(Leer(data).accion.auditorioId)]
      ensures !(Leer(data).Despachar? && Leer(data).accion.Reservar?) ==> userStates == old(userStates)
      ensures Leer(data).Despachar? && Leer(data).accion.CancelarReserva? ==>
        var id := Leer(data).accion.eventoId;
        && (respuesta == ReservaCancelada <==>
              conexion && exists k :: 0 <= k < |old(db.eventos)| && Cancelable(old(db.eventos)[k], id, userId))
        && (respuesta != ReservaCancelada ==> respuesta == ErrorAlCancelar)
        && db.eventos == if respuesta == ReservaCancelada then CancelarFilas(old(db.eventos), id, userId) else old(db.eventos)
      ensures !(Leer(data).Despachar? && Leer(data).accion.CancelarReserva?) ==> db.eventos == old(db.eventos)
      ensures !Leer(data).Despachar? ==> respuesta == SinRespuesta
      ensures db.auditorios == old(db.auditorios) && db.usuarios == old(db.usuarios)
      ensures db.siguienteEventoId == old(db.siguienteEventoId) && db.siguienteUsuarioId == old(db.siguienteUsuarioId)
      ensures old(db.SinSolapes()) ==> db.SinSolapes()
    {
      var lectura := Leer(data);
      if !lectura.Despachar? {
        respuesta := SinRespuesta;
        return;
      }
      match lectura.accion
      case Reservar(auditorioId) =>
        respuesta := IniciarReserva(userId, auditorioId, conexion);
      case CancelarReserva(eventoId) =>
        var cancelado := db.CancelarEvento(eventoId, userId, conexion);
        respuesta := if cancelado then ReservaCancelada else ErrorAlCancelar;
      case _ =>
        respuesta := Pantalla(lectura.accion);
    }
  }

}
