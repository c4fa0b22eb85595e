/**
 * The reservation store: the three tables (auditorios, usuarios, eventos) held in memory, with the
 * queries and updates of UsuarioRepository, AuditorioRepository and EventoRepository.
 *
 * Every repository call opens its own database connection. Whether that connection is obtained and
 * the statement runs without raising is the parameter `conexion`; on `false` each call takes its
 * error path (False, None or an empty list) and changes nothing.
 */
module Repositories {
  import opened Wrappers
  import opened Models

  /** A row of table `eventos`: the date of `fecha`, the times of day of the two hours, and a status. */
  datatype FilaEvento = FilaEvento(
    id: int,
    auditorioId: int,
    usuarioTelegramId: int,
    nombreEvento: string,
    fecha: Fecha,
    horaInicio: Hora,
    horaFin: Hora,
    descripcion: Option<string>,
    estado: Estado)

  /** Whether each database call made while serving one request gets a working connection. */
  datatype Conexiones = Conexiones(verificar: bool, crear: bool, consultarAuditorio: bool)

  // ---------------------------------------------------------------------------------------------
  // Overlap of time intervals

  /**
   * The half-open overlap test `aIni < bFin && aFin > bIni`. For well-formed intervals it means
   * [aIni, aFin) and [bIni, bFin) share an instant; an empty or inverted interval can pass it too.
   */
  predicate Solapan(aIni: int, aFin: int, bIni: int, bFin: int) {
    aIni < bFin && aFin > bIni
  }

  /**
   * The three-disjunct condition of verificar_disponibilidad between a stored row [eIni, eFin)
   * and the candidate [nIni, nFin). It always contains the half-open test, and for well-formed
   * intervals it is exactly the half-open test.
   */
  function ConflictoSql(eIni: int, eFin: int, nIni: int, nFin: int): (r: bool)
    ensures Solapan(eIni, eFin, nIni, nFin) ==> r
    ensures eIni < eFin && nIni < nFin ==> (r <==> Solapan(eIni, eFin, nIni, nFin))
  {
    (eIni < nFin && eFin > nIni)
    || (eIni < nFin && eFin > nFin)
    || (eIni >= nIni && eFin <= nFin)
  }

  lemma SolapanSimetrica(aIni: int, aFin: int, bIni: int, bFin: int)
    ensures Solapan(aIni, aFin, bIni, bFin) <==> Solapan(bIni, bFin, aIni, aFin)
  {
  }

  /** Intervals that only touch at an endpoint do not overlap; a non-empty interval overlaps itself. */
  lemma ContiguosNoSolapan(a: int, b: int, c: int)
    ensures !Solapan(a, b, b, c) && !Solapan(b, c, a, b)
    ensures a < b ==> Solapan(a, b, a, b)
  {
  }

  /**
   * Outside well-formed intervals the SQL condition is stricter than the half-open test: a stored
   * zero-length row at 13:00 blocks [13:00, 15:00), and a stored [13:00, 14:30) blocks the inverted
   * candidate [15:00, 14:00), although neither pair shares an instant.
   */
  lemma ConflictoSqlIntervalosMalFormados()
    ensures ConflictoSql(46800, 46800, 46800, 54000) && !Solapan(46800, 46800, 46800, 54000)
    ensures ConflictoSql(46800, 52200, 54000, 50400) && !Solapan(46800, 52200, 54000, 50400)
  {
  }

  // ---------------------------------------------------------------------------------------------
  // Availability: the number of reserved rows of one room and date whose hours conflict

  /** A row the availability query counts against the candidate [ini, fin) in room `sala` on `fecha`. */
  predicate EnConflicto(f: FilaEvento, sala: int, fecha: Fecha, ini: int, fin: int) {
    f.auditorioId == sala && f.fecha == fecha && f.estado == Reservado
    && ConflictoSql(f.horaInicio, f.horaFin, ini, fin)
  }

  /** The COUNT(*) of the availability query: zero exactly when no row conflicts. */
  function ContarConflictos(s: seq<FilaEvento>, sala: int, fecha: Fecha, ini: int, fin: int): (n: nat)
    ensures n <= |s|
    ensures n == 0 <==> forall k :: 0 <= k < |s| ==> !EnConflicto(s[k], sala, fecha, ini, fin)
  {
    if s == [] then 0
    else
      ContarConflictos(s[..|s| - 1], sala, fecha, ini, fin)
      + (if EnConflicto(s[|s| - 1], sala, fecha, ini, fin) then 1 else 0)
  }

  /** Reserved rows of one room and one date. */
  predicate MismaSalaYDia(a: FilaEvento, b: FilaEvento) {
    a.estado == Reservado && b.estado == Reservado && a.auditorioId == b.auditorioId && a.fecha == b.fecha
  }

  /**
   * No two reserved rows of one room and one date pass the half-open overlap test. A row whose
   * start is not before its end is judged by the same test, which it can pass without sharing an
   * instant with the other row.
   */
  ghost predicate FilasSinSolapes(s: seq<FilaEvento>) {
    forall i, j :: 0 <= i < |s| && 0 <= j < |s| && i != j && MismaSalaYDia(s[i], s[j]) ==>
      !Solapan(s[i].horaInicio, s[i].horaFin, s[j].horaInicio, s[j].horaFin)
  }

  /**
   * Check-then-insert, run sequentially, keeps the reserved rows of each room and date pairwise
   * non-overlapping: a row the availability query found no conflict for overlaps no reserved row
   * of its room and date, whatever its own interval (the first disjunct is the half-open test).
   */
  lemma {:induction false} ComprobarEInsertar(s: seq<FilaEvento>, f: FilaEvento)
    requires FilasSinSolapes(s)
    requires ContarConflictos(s, f.auditorioId, f.fecha, f.horaInicio, f.horaFin) == 0
    ensures FilasSinSolapes(s + [f])
  {
    var t := s + [f];
    forall i, j | 0 <= i < |t| && 0 <= j < |t| && i != j && MismaSalaYDia(t[i], t[j])
      ensures !Solapan(t[i].horaInicio, t[i].horaFin, t[j].horaInicio, t[j].horaFin)
    {
      if i == |s| {
        assert !EnConflicto(s[j], f.auditorioId, f.fecha, f.horaInicio, f.horaFin);
        SolapanSimetrica(t[i].horaInicio, t[i].horaFin, t[j].horaInicio, t[j].horaFin);
      } else if j == |s| {
        assert !EnConflicto(s[i], f.auditorioId, f.fecha, f.horaInicio, f.horaFin);
      } else {
        assert t[i] == s[i] && t[j] == s[j];
      }
    }
  }

  // ---------------------------------------------------------------------------------------------
  // Listings: filter, then ORDER BY e.fecha, e.hora_inicio

  /** The two listings: a room's reserved events (on one date, if given) and a user's reserved events. */
  datatype Filtro = PorAuditorio(auditorioId: int, fecha: Option<Fecha>) | PorUsuario(telegramId: int)

  /** The WHERE clause of a listing. */
  predicate Coincide(filtro: Filtro, f: FilaEvento) {
    f.estado == Reservado
    && match filtro
       case PorAuditorio(sala, fecha) => f.auditorioId == sala && (fecha.Some? ==> f.fecha == fecha.value)
       case PorUsuario(t) => f.usuarioTelegramId == t
  }

  /** The rows that satisfy the WHERE clause, each as often as it occurs. */
  function Filtrar(s: seq<FilaEvento>, filtro: Filtro): (r: seq<FilaEvento>)
    ensures forall f :: multiset(r)[f] == if Coincide(filtro, f) then multiset(s)[f] else 0
  {
    if s == [] then []
    else
      assert s == [s[0]] + s[1..];
      (if Coincide(filtro, s[0]) then [s[0]] else []) + Filtrar(s[1..], filtro)
  }

  /** The ORDER BY key: date first, then start time. */
  predicate AntesOIgual(a: FilaEvento, b: FilaEvento) {
    FechaAnterior(a.fecha, b.fecha) || (a.fecha == b.fecha && a.horaInicio <= b.horaInicio)
  }

  predicate Ordenadas(s: seq<FilaEvento>) {
    forall i, j :: 0 <= i < j < |s| ==> AntesOIgual(s[i], s[j])
  }

  lemma AntesOIgualOrdenTotal(a: FilaEvento, b: FilaEvento, c: FilaEvento)
    ensures AntesOIgual(a, b) || AntesOIgual(b, a)
    ensures AntesOIgual(a, b) && AntesOIgual(b, c) ==> AntesOIgual(a, c)
  {
    FechaAnteriorOrdenEstricto(a.fecha, b.fecha, c.fecha);
  }

  /** A row no later than every row of a sorted sequence can go in front of it. */
  lemma AnteponerOrdenada(y: FilaEvento, t: seq<FilaEvento>)
    requires Ordenadas(t)
    requires forall k :: 0 <= k < |t| ==> AntesOIgual(y, t[k])
    ensures Ordenadas([y] + t)
  {
    var r := [y] + t;
    forall i, j | 0 <= i < j < |r| ensures AntesOIgual(r[i], r[j]) {
      if i == 0 {
        assert r[j] == t[j - 1];
      } else {
        assert r[i] == t[i - 1] && r[j] == t[j - 1];
      }
    }
  }

  /** The head of a sorted sequence is no later than any of its rows nor than a row that does not go before it. */
  lemma {:induction false} CabezaEsCota(s: seq<FilaEvento>, x: FilaEvento, t: seq<FilaEvento>)
    requires Ordenadas(s) && |s| > 0 && !AntesOIgual(x, s[0])
    requires multiset(t) == multiset(s[1..]) + multiset{x}
    ensures forall k :: 0 <= k < |t| ==> AntesOIgual(s[0], t[k])
  {
    forall k | 0 <= k < |t| ensures AntesOIgual(s[0], t[k]) {
      assert t[k] in multiset(t);
      if t[k] == x {
        AntesOIgualOrdenTotal(x, s[0], x);
      } else {
        assert t[k] in multiset(s[1..]);
        var j :| 0 <= j < |s[1..]| && s[1..][j] == t[k];
        assert s[j + 1] == t[k];
      }
    }
  }

  function Insertar(x: FilaEvento, s: seq<FilaEvento>): (r: seq<FilaEvento>)
    requires Ordenadas(s)
    ensures Ordenadas(r)
    ensures multiset(r) == multiset(s) + multiset{x}
  {
    if s == [] then [x]
    else if AntesOIgual(x, s[0]) then
      assert forall k :: 0 <= k < |s| ==> AntesOIgual(x, s[k]) by {
        forall k | 0 <= k < |s| ensures AntesOIgual(x, s[k]) {
          AntesOIgualOrdenTotal(x, s[0], s[k]);
        }
      }
      AnteponerOrdenada(x, s);
      [x] + s
    else
      var t := Insertar(x, s[1..]);
      assert s == [s[0]] + s[1..];
      CabezaEsCota(s, x, t);
      AnteponerOrdenada(s[0], t);
      [s[0]] + t
  }

  /** Some ordering of `s` by (fecha, horaInicio); the order of rows with equal keys is not promised. */
  function Ordenar(s: seq<FilaEvento>): (r: seq<FilaEvento>)
    ensures Ordenadas(r)
    ensures multiset(r) == multiset(s)
  {
    if s == [] then []
    else
      assert s == [s[0]] + s[1..];
      Insertar(s[0], Ordenar(s[1..]))
  }

  /**
   * The Evento a listing builds from a row: `fecha` is the row's date at midnight, the two hours
   * are the row's times on the row's date, and the status is the column's text.
   */
  function AEvento(f: FilaEvento): Evento {
    Evento(Some(f.id), f.auditorioId, f.usuarioTelegramId, f.nombreEvento,
           FechaHora(f.fecha, 0), FechaHora(f.fecha, f.horaInicio), FechaHora(f.fecha, f.horaFin),
           f.descripcion, EstadoTexto(f.estado))
  }

  function AEventos(s: seq<FilaEvento>): seq<Evento> {
    seq(|s|, k requires 0 <= k < |s| => AEvento(s[k]))
  }

  lemma AEventosConcatena(a: seq<FilaEvento>, b: seq<FilaEvento>)
    ensures AEventos(a + b) == AEventos(a) + AEventos(b)
  {
    assert forall k :: 0 <= k < |a + b| ==> AEventos(a + b)[k] == (AEventos(a) + AEventos(b))[k];
  }

  /** Converting rows to records respects permutation: the same rows give the same records. */
  lemma {:induction false} AEventosPermutacion(s: seq<FilaEvento>, t: seq<FilaEvento>)
    requires multiset(s) == multiset(t)
    ensures multiset(AEventos(s)) == multiset(AEventos(t))
    decreases |s|
  {
    if s == [] {
      assert |t| == |multiset(t)| == 0;
    } else {
      var x := s[0];
      assert x in multiset(t);
      var k :| 0 <= k < |t| && t[k] == x;
      var u := t[..k] + t[k + 1..];
      assert t == t[..k] + [x] + t[k + 1..];
      assert s == [x] + s[1..];
      assert multiset(t) == multiset(t[..k]) + multiset{x} + multiset(t[k + 1..]);
      assert multiset(u) == multiset(t[..k]) + multiset(t[k + 1..]);
      assert multiset(s) == multiset{x} + multiset(s[1..]);
      assert multiset(u) + multiset{x} == multiset{x} + multiset(s[1..]);
      assert multiset(u) == (multiset(u) + multiset{x}) - multiset{x};
      assert multiset(s[1..]) == (multiset{x} + multiset(s[1..])) - multiset{x};
      AEventosPermutacion(s[1..], u);
      AEventosConcatena([x], s[1..]);
      AEventosConcatena(t[..k], t[k + 1..]);
      AEventosConcatena(t[..k] + [x], t[k + 1..]);
      AEventosConcatena(t[..k], [x]);
    }
  }

  /** The loop of both listings: one Evento per fetched row, in the rows' order. */
  method Convertir(filas: seq<FilaEvento>) returns (r: seq<Evento>)
    ensures r == AEventos(filas)
  {
    r := [];
    var i := 0;
    while i < |filas|
      invariant 0 <= i <= |filas|
      invariant r == AEventos(filas[..i])
    {
      AEventosConcatena(filas[..i], [filas[i]]);
      assert filas[..i + 1] == filas[..i] + [filas[i]];
      r := r + [AEvento(filas[i])];
      i := i + 1;
    }
    assert filas[..i] == filas;
  }

  /** The listing's record for a row satisfies the listing's condition, stated on the record. */
  predicate CoincideEvento(filtro: Filtro, e: Evento) {
    e.estado == EstadoTexto(Reservado) && Persistido(e.id)
    && match filtro
       case PorAuditorio(sala, fecha) => e.auditorioId == sala && (fecha.Some? ==> e.fecha.fecha == fecha.value)
       case PorUsuario(t) => e.usuarioTelegramId == t
  }

  /** Records in the listings' order: by the date of `fecha`, then by the time of `horaInicio`. */
  predicate EventosOrdenados(r: seq<Evento>) {
    forall i, j :: 0 <= i < j < |r| ==>
      FechaAnterior(r[i].fecha.fecha, r[j].fecha.fecha)
      || (r[i].fecha.fecha == r[j].fecha.fecha && r[i].horaInicio.hora <= r[j].horaInicio.hora)
  }

  /**
   * Converting the fetched rows, sorted and filtered, gives records that are in the listing order,
   * each satisfy the listing's condition, and are the converted matching rows, each once per row.
   */
  lemma ListadoDeFilas(s: seq<FilaEvento>, filas: seq<FilaEvento>, filtro: Filtro)
    requires Ordenadas(filas)
    requires multiset(filas) == multiset(Filtrar(s, filtro))
    ensures multiset(AEventos(filas)) == multiset(AEventos(Filtrar(s, filtro)))
    ensures EventosOrdenados(AEventos(filas))
    ensures forall k :: 0 <= k < |filas| ==> CoincideEvento(filtro, AEventos(filas)[k])
  {
    AEventosPermutacion(filas, Filtrar(s, filtro));
    forall k | 0 <= k < |filas| ensures CoincideEvento(filtro, AEventos(filas)[k]) {
      assert filas[k] in multiset(filas);
      assert Coincide(filtro, filas[k]);
    }
  }

  // ---------------------------------------------------------------------------------------------
  // Cancellation: the owner's reserved row with that id becomes cancelled

  predicate Cancelable(f: FilaEvento, eventoId: int, telegramId: int) {
    f.id == eventoId && f.usuarioTelegramId == telegramId && f.estado == Reservado
  }

  /** The table after the UPDATE: matching rows become cancelled, every other row is untouched. */
  function CancelarFilas(s: seq<FilaEvento>, eventoId: int, telegramId: int): (r: seq<FilaEvento>)
    ensures |r| == |s|
    ensures forall k :: 0 <= k < |s| && !Cancelable(s[k], eventoId, telegramId) ==> r[k] == s[k]
    ensures forall k :: 0 <= k < |s| && Cancelable(s[k], eventoId, telegramId) ==>
      r[k] == s[k].(estado := Cancelado)
    ensures forall k :: 0 <= k < |r| ==> !Cancelable(r[k], eventoId, telegramId)
    ensures forall k :: 0 <= k < |s| ==>
      r[k].id == s[k].id && r[k].auditorioId == s[k].auditorioId && r[k].usuarioTelegramId == s[k].usuarioTelegramId
  {
    if s == [] then []
    else
      CancelarFilas(s[..|s| - 1], eventoId, telegramId)
      + [if Cancelable(s[|s| - 1], eventoId, telegramId) then s[|s| - 1].(estado := Cancelado) else s[|s| - 1]]
  }

  /** The UPDATE's rowcount: positive exactly when some row matches. */
  function Afectadas(s: seq<FilaEvento>, eventoId: int, telegramId: int): (n: nat)
    ensures n <= |s|
    ensures n > 0 <==> exists k :: 0 <= k < |s| && Cancelable(s[k], eventoId, telegramId)
  {
    if s == [] then 0
    else
      Afectadas(s[..|s| - 1], eventoId, telegramId)
      + (if Cancelable(s[|s| - 1], eventoId, telegramId) then 1 else 0)
  }

  /** Cancelling only ends reservations, so it cannot create an overlap. */
  lemma CancelarConservaSinSolapes(s: seq<FilaEvento>, eventoId: int, telegramId: int)
    requires FilasSinSolapes(s)
    ensures FilasSinSolapes(CancelarFilas(s, eventoId, telegramId))
  {
    var r := CancelarFilas(s, eventoId, telegramId);
    forall i, j | 0 <= i < |r| && 0 <= j < |r| && i != j && MismaSalaYDia(r[i], r[j])
      ensures !Solapan(r[i].horaInicio, r[i].horaFin, r[j].horaInicio, r[j].horaFin)
    {
      assert r[i] == s[i] && r[j] == s[j];
    }
  }

  // ---------------------------------------------------------------------------------------------
  // Rooms

  /** Every room has an id, and no two rooms share one (the primary key). */
  predicate IdsAuditoriosUnicos(s: seq<Auditorio>) {
    (forall k :: 0 <= k < |s| ==> Persistido(s[k].id))
    && forall i, j :: 0 <= i < j < |s| ==> s[i].id != s[j].id
  }

  /** Some room, active or not, has this id (what a foreign key needs). */
  predicate ExisteAuditorio(s: seq<Auditorio>, auditorioId: int) {
    exists k :: 0 <= k < |s| && s[k].id == Some(auditorioId)
  }

  /** Some active room has this id. */
  predicate AuditorioActivo(s: seq<Auditorio>, auditorioId: int) {
    exists k :: 0 <= k < |s| && s[k].id == Some(auditorioId) && s[k].activo
  }

  /** The rooms a listing of active rooms returns: the active ones, in table order. */
  function Activos(s: seq<Auditorio>): (r: seq<Auditorio>)
    ensures |r| <= |s|
    ensures forall a :: a in r <==> a in s && a.activo
    ensures forall a :: multiset(r)[a] == if a.activo then multiset(s)[a] else 0
  {
    if s == [] then []
    else
      assert s == [s[0]] + s[1..];
      (if s[0].activo then [s[0]] else []) + Activos(s[1..])
  }

  /** The room a lookup by id returns: the first active room with that id, if any. */
  function BuscarActivo(s: seq<Auditorio>, auditorioId: int): (r: Option<Auditorio>)
    ensures r.Some? <==> AuditorioActivo(s, auditorioId)
    ensures r.Some? ==> r.value in s && r.value.id == Some(auditorioId) && r.value.activo
  {
    if s == [] then None
    else if s[0].id == Some(auditorioId) && s[0].activo then Some(s[0])
    else
      var r := BuscarActivo(s[1..], auditorioId);
      assert AuditorioActivo(s[1..], auditorioId) ==> AuditorioActivo(s, auditorioId) by {
        if AuditorioActivo(s[1..], auditorioId) {
          var k :| 0 <= k < |s[1..]| && s[1..][k].id == Some(auditorioId) && s[1..][k].activo;
          assert s[k + 1] == s[1..][k];
        }
      }
      r
  }

  // ---------------------------------------------------------------------------------------------
  // Events written by crear_evento

  /**
   * The row crear_evento inserts for `e` under the id the table assigns: only the date of `fecha`
   * and the times of day of the two hours are stored, and the INSERT leaves `estado` to the column
   * default, whatever status the record carries.
   */
  function FilaNueva(id: int, e: Evento): (f: FilaEvento)
    ensures f.estado == Reservado
  {
    FilaEvento(id, e.auditorioId, e.usuarioTelegramId, e.nombreEvento,
               e.fecha.fecha, e.horaInicio.hora, e.horaFin.hora, e.descripcion, Reservado)
  }

  /** Two records that differ only in the id, the status, the time of `fecha` or the dates of the hours are stored alike. */
  lemma FilaNuevaSoloFechaYHoras(id: int, e1: Evento, e2: Evento)
    requires e1.auditorioId == e2.auditorioId && e1.usuarioTelegramId == e2.usuarioTelegramId
    requires e1.nombreEvento == e2.nombreEvento && e1.descripcion == e2.descripcion
    requires e1.fecha.fecha == e2.fecha.fecha
    requires e1.horaInicio.hora == e2.horaInicio.hora && e1.horaFin.hora == e2.horaFin.hora
    ensures FilaNueva(id, e1) == FilaNueva(id, e2)
  {
  }

  /** Row ids are positive, below the next AUTO_INCREMENT value, and increase in insertion order. */
  predicate IdsCrecientes(s: seq<FilaEvento>, siguiente: int) {
    (forall k :: 0 <= k < |s| ==> 0 < s[k].id < siguiente)
    && forall i, j :: 0 <= i < j < |s| ==> s[i].id < s[j].id
  }

  // ---------------------------------------------------------------------------------------------
  // The database

  class Database {
    /** Rooms are provisioned outside this system; nothing here changes them. */
    var auditorios: seq<Auditorio>
    /** Users by telegram_id, which the schema declares UNIQUE. */
    var usuarios: map<int, Usuario>
    /** Table eventos in insertion order; rows are never deleted. */
    var eventos: seq<FilaEvento>
    var siguienteEventoId: int
    var siguienteUsuarioId: int

    /** Keys are unique, ids come from AUTO_INCREMENT, and every event's foreign keys resolve. */
    ghost predicate Valid()
      reads this
    {
      && IdsAuditoriosUnicos(auditorios)
      && 0 < siguienteEventoId && 0 < siguienteUsuarioId
      && (forall t :: t in usuarios ==>
            usuarios[t].telegramId == t && Persistido(usuarios[t].id) && 0 < usuarios[t].id.value < siguienteUsuarioId)
      && IdsCrecientes(eventos, siguienteEventoId)
      && (forall k :: 0 <= k < |eventos| ==>
            ExisteAuditorio(auditorios, eventos[k].auditorioId) && eventos[k].usuarioTelegramId in usuarios)
    }

    /** No two reserved events of one room and date overlap. */
    ghost predicate SinSolapes()
      reads this
    {
      FilasSinSolapes(eventos)
    }

    constructor (auditorios: seq<Auditorio>)
      requires IdsAuditoriosUnicos(auditorios)
      ensures Valid() && SinSolapes()
      ensures this.auditorios == auditorios && usuarios == map[] && eventos == []
    {
      this.auditorios := auditorios;
      usuarios := map[];
      eventos := [];
      siguienteEventoId := 1;
      siguienteUsuarioId := 1;
    }

    // --- UsuarioRepository

    /**
     * Registers a user. It succeeds for a new telegram_id; a known one violates the UNIQUE key.
     * Once the statement runs, an AUTO_INCREMENT value is used up even when it fails, so a
     * rejected duplicate leaves a gap in the user ids.
     */
    method CrearUsuario(telegramId: int, nombre: string, username: Option<string>, conexion: bool)
      returns (ok: bool)
      requires Valid()
      modifies this
      ensures Valid()
      ensures ok <==> conexion && telegramId !in old(usuarios)
      ensures usuarios == if ok then old(usuarios)[telegramId := Usuario(Some(old(siguienteUsuarioId)), telegramId, nombre, username)]
                          else old(usuarios)
      ensures telegramId in usuarios
              || (!conexion && telegramId !in old(usuarios))
      ensures eventos == old(eventos) && auditorios == old(auditorios)
      ensures siguienteEventoId == old(siguienteEventoId)
      ensures siguienteUsuarioId == if conexion then old(siguienteUsuarioId) + 1 else old(siguienteUsuarioId)
    {
      ok := conexion && telegramId !in usuarios;
      if ok {
        usuarios := usuarios[telegramId := Usuario(Some(siguienteUsuarioId), telegramId, nombre, username)];
      }
      if conexion {
        siguienteUsuarioId := siguienteUsuarioId + 1;
      }
    }

    /** The stored user with this telegram_id; None when there is none or no connection. */
    function ObtenerUsuario(telegramId: int, conexion: bool): (r: Option<Usuario>)
      requires Valid()
      reads this
      ensures r.Some? <==> conexion && telegramId in usuarios
      ensures r.Some? ==> r.value.telegramId == telegramId && Persistido(r.value.id)
      ensures r.Some? ==> r.value == usuarios[telegramId]
    {
      if conexion && telegramId in usuarios then Some(usuarios[telegramId]) else None
    }

    // --- AuditorioRepository

    function ObtenerAuditorios(conexion: bool): (r: seq<Auditorio>)
      reads this
      ensures forall a :: a in r <==> conexion && a in auditorios && a.activo
      ensures forall a :: multiset(r)[a] == if conexion && a.activo then multiset(auditorios)[a] else 0
    {
      if conexion then Activos(auditorios) else []
    }

    function ObtenerAuditorio(auditorioId: int, conexion: bool): (r: Option<Auditorio>)
      reads this
      ensures r.Some? <==> conexion && AuditorioActivo(auditorios, auditorioId)
      ensures r.Some? ==> r.value in auditorios && r.value.id == Some(auditorioId) && r.value.activo
    {
      if conexion then BuscarActivo(auditorios, auditorioId) else None
    }

    // --- EventoRepository

    /**
     * Stores a new event with no overlap check. It fails, changing no row, without a connection
     * or when a foreign key does not resolve (unknown room id or unknown owner); once the statement
     * runs, its AUTO_INCREMENT value is used up even when it fails.
     */
    method CrearEvento(evento: Evento, conexion: bool) returns (ok: bool)
      requires Valid()
      modifies this
      ensures Valid()
      ensures ok <==> conexion && ExisteAuditorio(auditorios, evento.auditorioId) && evento.usuarioTelegramId in usuarios
      ensures eventos == if ok then old(eventos) + [FilaNueva(old(siguienteEventoId), evento)] else old(eventos)
      ensures auditorios == old(auditorios) && usuarios == old(usuarios)
      ensures siguienteEventoId == if conexion then old(siguienteEventoId) + 1 else old(siguienteEventoId)
      ensures siguienteUsuarioId == old(siguienteUsuarioId)
    {
      ok := conexion && ExisteAuditorio(auditorios, evento.auditorioId) && evento.usuarioTelegramId in usuarios;
      if ok {
        eventos := eventos + [FilaNueva(siguienteEventoId, evento)];
      }
      if conexion {
        siguienteEventoId := siguienteEventoId + 1;
      }
    }

    /**
     * True iff the query runs and counts no reserved row of that room and date in conflict with
     * [horaInicio, horaFin); cancelled rows and other rooms or dates never count. Fails closed.
     */
    function VerificarDisponibilidad(auditorioId: int, fecha: Fecha, horaInicio: FechaHora, horaFin: FechaHora,
                                     conexion: bool): (disponible: bool)
      reads this
      ensures disponible <==>
        conexion && forall k :: 0 <= k < |eventos| ==> !EnConflicto(eventos[k], auditorioId, fecha, horaInicio.hora, horaFin.hora)
    {
      conexion && ContarConflictos(eventos, auditorioId, fecha, horaInicio.hora, horaFin.hora) == 0
    }

    /** The query and the loop that turns each fetched row into an Evento. */
    method Consultar(filtro: Filtro, conexion: bool) returns (r: seq<Evento>)
      requires Valid()
      ensures !conexion ==> r == []
      ensures conexion ==> multiset(r) == multiset(AEventos(Filtrar(eventos, filtro)))
      ensures EventosOrdenados(r)
      ensures forall k :: 0 <= k < |r| ==> CoincideEvento(filtro, r[k])
    {
      r := [];
      if !conexion {
        return;
      }
      var filas := Ordenar(Filtrar(eventos, filtro));
      r := Convertir(filas);
      ListadoDeFilas(eventos, filas, filtro);
    }

    method ObtenerEventosAuditorio(auditorioId: int, fecha: Option<Fecha>, conexion: bool) returns (r: seq<Evento>)
      requires Valid()
      ensures !conexion ==> r == []
      ensures conexion ==> multiset(r) == multiset(AEventos(Filtrar(eventos, PorAuditorio(auditorioId, fecha))))
      ensures EventosOrdenados(r)
      ensures forall k :: 0 <= k < |r| ==> CoincideEvento(PorAuditorio(auditorioId, fecha), r[k])
    {
      r := Consultar(PorAuditorio(auditorioId, fecha), conexion);
    }

    method ObtenerEventosUsuario(telegramId: int, conexion: bool) returns (r: seq<Evento>)
      requires Valid()
      ensures !conexion ==> r == []
      ensures conexion ==> multiset(r) == multiset(AEventos(Filtrar(eventos, PorUsuario(telegramId))))
      ensures EventosOrdenados(r)
      ensures forall k :: 0 <= k < |r| ==> CoincideEvento(PorUsuario(telegramId), r[k])
    {
      r := Consultar(PorUsuario(telegramId), conexion);
    }

    /**
     * Cancels the reserved event with that id if the caller owns it. False alike for a missing
     * event, one already cancelled, a wrong owner and a failed connection; those change nothing.
     */
    method CancelarEvento(eventoId: int, telegramId: int, conexion: bool) returns (ok: bool)
      requires Valid()
      modifies this
      ensures Valid()
      ensures ok <==> conexion && exists k :: 0 <= k < |old(eventos)| && Cancelable(old(eventos)[k], eventoId, telegramId)
      ensures eventos == if ok then CancelarFilas(old(eventos), eventoId, telegramId) else old(eventos)
      ensures auditorios == old(auditorios) && usuarios == old(usuarios)
      ensures siguienteEventoId == old(siguienteEventoId) && siguienteUsuarioId == old(siguienteUsuarioId)
      ensures old(SinSolapes()) ==> SinSolapes()
    {
      ok := conexion && Afectadas(eventos, eventoId, telegramId) > 0;
      if ok {
        if SinSolapes() {
          CancelarConservaSinSolapes(eventos, eventoId, telegramId);
        }
        var nuevas := CancelarFilas(eventos, eventoId, telegramId);
        assert IdsCrecientes(nuevas, siguienteEventoId);
        eventos := nuevas;
      }
    }
  }

  /**
   * Inserting the row for an event the availability check passed keeps a store free of
   * overlaps: the composition the bot's last step and POST /eventos both run.
   */
  lemma ComprobarYCrear(db: Database, evento: Evento, conexion: bool)
    requires db.SinSolapes()
    requires db.VerificarDisponibilidad(evento.auditorioId, evento.fecha.fecha, evento.horaInicio, evento.horaFin, conexion)
    ensures FilasSinSolapes(db.eventos + [FilaNueva(db.siguienteEventoId, evento)])
  {
    var f := FilaNueva(db.siguienteEventoId, evento);
    assert ContarConflictos(db.eventos, f.auditorioId, f.fecha, f.horaInicio, f.horaFin) == 0;
    ComprobarEInsertar(db.eventos, f);
  }

  /** Once cancelled, the same call finds nothing to cancel. */
  lemma CancelarDosVeces(s: seq<FilaEvento>, eventoId: int, telegramId: int)
    ensures Afectadas(CancelarFilas(s, eventoId, telegramId), eventoId, telegramId) == 0
  {
  }

}
