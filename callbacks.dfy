/**
 * The `callback_data` strings of the bot's inline buttons: how the menus write them and how
 * `button_callback` reads them back.
 *
 * The reader compares the four fixed tags for equality and the five prefixes with `startswith`,
 * in a fixed order, and reads the id as `int(data.split("_")[1])`: the text after the first '_'
 * up to the next '_' or the end. When that text is not an integer, `int` raises ValueError and
 * the handler does nothing further; data that matches no branch is ignored.
 */
module Callbacks {
  import opened Wrappers
  import opened Texto

  /** What a button asks the bot to do. */
  datatype Accion =
    | VerAuditorios
    | MisReservas
    | Ayuda
    | OpcionesAuditorio(auditorioId: int)
    | Disponibilidad(auditorioId: int)
    | EventosAuditorio(auditorioId: int)
    | Reservar(auditorioId: int)
    | CancelarReserva(eventoId: int)
    | VolverInicio

  /** The outcome of reading one `callback_data` string. */
  datatype Lectura =
    | Despachar(accion: Accion)
    | ErrorDeValor   // a prefix matched but its id is not an integer: `int` raises ValueError
    | SinAccion      // no branch matched

  /** Python's `str(n)`. */
  function IntATexto(n: int): (s: string)
    ensures |s| > 0 && '_' !in s
  {
    var digitos := if n < 0 then NatATexto(-n) else NatATexto(n);
    assert forall k :: 0 <= k < |digitos| ==> digitos[k] != '_';
    if n < 0 then "-" + digitos else digitos
  }

  /** Python's `int(s)` on an optional sign followed by ASCII digits; None where it raises ValueError. */
  function TextoAInt(s: string): (r: Option<int>)
    ensures r.Some? <==> (|s| > 0 && TodoDigitos(s)) || (|s| > 1 && (s[0] == '-' || s[0] == '+') && TodoDigitos(s[1..]))
    ensures r.Some? ==> |s| > 0 && '_' !in s
  {
    if |s| > 1 && (s[0] == '-' || s[0] == '+') && TodoDigitos(s[1..]) then
      assert forall k :: 1 <= k < |s| ==> s[k] == s[1..][k - 1];
      var v: int := ValorDecimal(s[1..]);
      Some(if s[0] == '-' then -v else v)
    else if |s| > 0 && TodoDigitos(s) then
      Some(ValorDecimal(s))
    else None
  }

  /** `int(str(n)) == n`. */
  lemma TextoAIntDeIntATexto(n: int)
    ensures TextoAInt(IntATexto(n)) == Some(n)
  {
    var digitos := NatATexto(if n < 0 then -n else n);
    ValorNatATexto(if n < 0 then -n else n);
    assert EsDigito(digitos[0]);
    if n < 0 {
      var s := IntATexto(n);
      assert s == "-" + digitos;
      assert s[1..] == digitos;
      assert |s| > 1 && s[0] == '-' && TodoDigitos(s[1..]);
    } else {
      assert IntATexto(n) == digitos;
      assert !(digitos[0] == '-' || digitos[0] == '+');
    }
  }

  predicate EmpiezaCon(s: string, prefijo: string) {
    |prefijo| <= |s| && s[..|prefijo|] == prefijo
  }

  /** `data.split("_")[1]`, or None when `data` holds no '_' (the index would raise). */
  function SegundoCampo(data: string): (r: Option<string>)
    ensures r.Some? <==> '_' in data
    ensures r.Some? ==> '_' !in r.value
  {
    match Indice(data, '_')
    case None => None
    case Some(i) =>
      var resto := data[i + 1..];
      match Indice(resto, '_')
      case None => Some(resto)
      case Some(j) => Some(resto[..j])
  }

  /** A '_'-terminated prefix with no other '_' is split off exactly. */
  lemma SegundoCampoTrasPrefijo(nombre: string, campo: string, cola: string)
    requires '_' !in nombre && '_' !in campo
    ensures SegundoCampo(nombre + "_" + campo) == Some(campo)
    ensures SegundoCampo(nombre + "_" + campo + "_" + cola) == Some(campo)
  {
    var s := nombre + ['_'] + campo;
    assert nombre + "_" + campo == s;
    IndiceTras(nombre, '_', campo);
    assert s[|nombre| + 1..] == campo;
    var t := nombre + ['_'] + (campo + ['_'] + cola);
    assert nombre + "_" + campo + "_" + cola == t;
    IndiceTras(nombre, '_', campo + ['_'] + cola);
    assert t[|nombre| + 1..] == campo + ['_'] + cola;
    IndiceTras(campo, '_', cola);
    assert (campo + ['_'] + cola)[..|campo|] == campo;
  }

  predicate EsEtiqueta(data: string) {
    data == "ver_auditorios" || data == "mis_reservas" || data == "ayuda" || data == "volver_inicio"
  }

  predicate TienePrefijo(data: string) {
    || EmpiezaCon(data, "auditorio_") || EmpiezaCon(data, "disponibilidad_") || EmpiezaCon(data, "eventos_")
    || EmpiezaCon(data, "reservar_") || EmpiezaCon(data, "cancelar_")
  }

  /** `int(data.split("_")[1])`, or None where `int` raises ValueError. */
  function IdDe(data: string): Option<int>
    requires '_' in data
  {
    TextoAInt(SegundoCampo(data).value)
  }

  /** `button_callback`'s chain of tests, in source order. */
  function Leer(data: string): (r: Lectura)
    ensures r.SinAccion? <==> !EsEtiqueta(data) && !TienePrefijo(data)
    ensures r.ErrorDeValor? ==> TienePrefijo(data)
  {
    assert EmpiezaCon(data, "auditorio_") ==> data[9] == '_';
    assert EmpiezaCon(data, "disponibilidad_") ==> data[14] == '_';
    assert EmpiezaCon(data, "eventos_") ==> data[7] == '_';
    assert EmpiezaCon(data, "reservar_") ==> data[8] == '_';
    assert EmpiezaCon(data, "cancelar_") ==> data[8] == '_';
    if data == "ver_auditorios" then Despachar(VerAuditorios)
    else if data == "mis_reservas" then Despachar(MisReservas)
    else if data == "ayuda" then Despachar(Ayuda)
    else if EmpiezaCon(data, "auditorio_") then (match IdDe(data) case Some(n) => Despachar(OpcionesAuditorio(n)) case None => ErrorDeValor)
    else if EmpiezaCon(data, "disponibilidad_") then (match IdDe(data) case Some(n) => Despachar(Disponibilidad(n)) case None => ErrorDeValor)
    else if EmpiezaCon(data, "eventos_") then (match IdDe(data) case Some(n) => Despachar(EventosAuditorio(n)) case None => ErrorDeValor)
    else if EmpiezaCon(data, "reservar_") then (match IdDe(data) case Some(n) => Despachar(Reservar(n)) case None => ErrorDeValor)
    else if EmpiezaCon(data, "cancelar_") then (match IdDe(data) case Some(n) => Despachar(CancelarReserva(n)) case None => ErrorDeValor)
    else if data == "volver_inicio" then Despachar(VolverInicio)
    else SinAccion
  }

  /** The `callback_data` the menus attach to each button: always one some branch of the reader handles. */
  function Escribir(a: Accion): (s: string)
    ensures EsEtiqueta(s) || TienePrefijo(s)
  {
    match a
    case VerAuditorios => "ver_auditorios"
    case MisReservas => "mis_reservas"
    case Ayuda => "ayuda"
    case OpcionesAuditorio(id) => "auditorio_" + IntATexto(id)
    case Disponibilidad(id) => "disponibilidad_" + IntATexto(id)
    case EventosAuditorio(id) => "eventos_" + IntATexto(id)
    case Reservar(id) => "reservar_" + IntATexto(id)
    case CancelarReserva(id) => "cancelar_" + IntATexto(id)
    case VolverInicio => "volver_inicio"
  }

  /** Data starting with another letter is neither equal to `p` nor starts with it. */
  lemma OtraInicial(s: string, p: string)
    requires |p| > 0 && |s| > 0 && s[0] != p[0]
    ensures !EmpiezaCon(s, p) && s != p
  {
  }

  lemma LeerOpcionesAuditorio(id: int)
    ensures Leer(Escribir(OpcionesAuditorio(id))) == Despachar(OpcionesAuditorio(id))
  {
    var s := "auditorio_" + IntATexto(id);
    assert s[9] == '_';
    assert IdDe(s) == Some(id) by {
      assert s == "auditorio" + "_" + IntATexto(id);
      SegundoCampoTrasPrefijo("auditorio", IntATexto(id), "");
      TextoAIntDeIntATexto(id);
    }
    assert s != "ver_auditorios" && s != "mis_reservas" && s != "ayuda" by {
      assert s[1] == 'u';
      OtraInicial(s, "ver_auditorios");
      OtraInicial(s, "mis_reservas");
      assert |s| > |"ayuda"|;
    }
    assert EmpiezaCon(s, "auditorio_") by {
      assert s[..10] == "auditorio_";
    }
  }

  lemma LeerDisponibilidad(id: int)
    ensures Leer(Escribir(Disponibilidad(id))) == Despachar(Disponibilidad(id))
  {
    var s := "disponibilidad_" + IntATexto(id);
    assert s[14] == '_';
    assert IdDe(s) == Some(id) by {
      assert s == "disponibilidad" + "_" + IntATexto(id);
      SegundoCampoTrasPrefijo("disponibilidad", IntATexto(id), "");
      TextoAIntDeIntATexto(id);
    }
    assert s != "ver_auditorios" && s != "mis_reservas" && s != "ayuda" by {
      assert s[0] == 'd';
      OtraInicial(s, "ver_auditorios");
      OtraInicial(s, "mis_reservas");
      OtraInicial(s, "ayuda");
    }
    assert !EmpiezaCon(s, "auditorio_") by {
      assert s[0] == 'd';
      OtraInicial(s, "auditorio_");
    }
    assert EmpiezaCon(s, "disponibilidad_") by {
      assert s[..15] == "disponibilidad_";
    }
  }

  lemma LeerEventosAuditorio(id: int)
    ensures Leer(Escribir(EventosAuditorio(id))) == Despachar(EventosAuditorio(id))
  {
    var s := "eventos_" + IntATexto(id);
    assert s[7] == '_';
    assert IdDe(s) == Some(id) by {
      assert s == "eventos" + "_" + IntATexto(id);
      SegundoCampoTrasPrefijo("eventos", IntATexto(id), "");
      TextoAIntDeIntATexto(id);
    }
    assert s != "ver_auditorios" && s != "mis_reservas" && s != "ayuda" by {
      assert s[0] == 'e';
      OtraInicial(s, "ver_auditorios");
      OtraInicial(s, "mis_reservas");
      OtraInicial(s, "ayuda");
    }
    assert !EmpiezaCon(s, "auditorio_") && !EmpiezaCon(s, "disponibilidad_") by {
      assert s[0] == 'e';
      OtraInicial(s, "auditorio_");
      OtraInicial(s, "disponibilidad_");
    }
    assert EmpiezaCon(s, "eventos_") by {
      assert s[..8] == "eventos_";
    }
  }

  lemma LeerReservar(id: int)
    ensures Leer(Escribir(Reservar(id))) == Despachar(Reservar(id))
  {
    var s := "reservar_" + IntATexto(id);
    assert s[8] == '_';
    assert IdDe(s) == Some(id) by {
      assert s == "reservar" + "_" + IntATexto(id);
      SegundoCampoTrasPrefijo("reservar", IntATexto(id), "");
      TextoAIntDeIntATexto(id);
    }
    assert s != "ver_auditorios" && s != "mis_reservas" && s != "ayuda" by {
      assert s[0] == 'r';
      OtraInicial(s, "ver_auditorios");
      OtraInicial(s, "mis_reservas");
      OtraInicial(s, "ayuda");
    }
    assert !EmpiezaCon(s, "auditorio_") && !EmpiezaCon(s, "disponibilidad_") && !EmpiezaCon(s, "eventos_") by {
      assert s[0] == 'r';
      OtraInicial(s, "auditorio_");
      OtraInicial(s, "disponibilidad_");
      OtraInicial(s, "eventos_");
    }
    assert EmpiezaCon(s, "reservar_") by {
      assert s[..9] == "reservar_";
    }
  }

  lemma LeerCancelarReserva(id: int)
    ensures Leer(Escribir(CancelarReserva(id))) == Despachar(CancelarReserva(id))
  {
    var s := "cancelar_" + IntATexto(id);
    assert s[8] == '_';
    assert IdDe(s) == Some(id) by {
      assert s == "cancelar" + "_" + IntATexto(id);
      SegundoCampoTrasPrefijo("cancelar", IntATexto(id), "");
      TextoAIntDeIntATexto(id);
    }
    assert s != "ver_auditorios" && s != "mis_reservas" && s != "ayuda" by {
      assert s[0] == 'c';
      OtraInicial(s, "ver_auditorios");
      OtraInicial(s, "mis_reservas");
      OtraInicial(s, "ayuda");
    }
    assert !EmpiezaCon(s, "auditorio_") && !EmpiezaCon(s, "disponibilidad_") && !EmpiezaCon(s, "eventos_") && !EmpiezaCon(s, "reservar_") by {
      assert s[0] == 'c';
      OtraInicial(s, "auditorio_");
      OtraInicial(s, "disponibilidad_");
      OtraInicial(s, "eventos_");
      OtraInicial(s, "reservar_");
    }
    assert EmpiezaCon(s, "cancelar_") by {
      assert s[..9] == "cancelar_";
    }
  }

  /** The last tag is reached past every earlier test. */
  lemma LeerVolverInicio()
    ensures Leer(Escribir(VolverInicio)) == Despachar(VolverInicio)
  {
    var s := "volver_inicio";
    assert s[0] == 'v' && s[1] == 'o';
    OtraInicial(s, "mis_reservas");
    OtraInicial(s, "ayuda");
    OtraInicial(s, "auditorio_");
    OtraInicial(s, "disponibilidad_");
    OtraInicial(s, "eventos_");
    OtraInicial(s, "reservar_");
    OtraInicial(s, "cancelar_");
  }

  /** Every button's data is read back as the action that wrote it. */
  lemma LeerEscribir(a: Accion)
    ensures Leer(Escribir(a)) == Despachar(a)
  {
    match a
    case OpcionesAuditorio(id) => LeerOpcionesAuditorio(id);
    case Disponibilidad(id) => LeerDisponibilidad(id);
    case EventosAuditorio(id) => LeerEventosAuditorio(id);
    case Reservar(id) => LeerReservar(id);
    case CancelarReserva(id) => LeerCancelarReserva(id);
    case VolverInicio => LeerVolverInicio();
    case VerAuditorios =>
    case MisReservas =>
    case Ayuda =>
  }

  /** Only the text up to the next '_' is read as the id. */
  lemma EjemploIdConCola()
    ensures Leer("reservar" + "_" + "7" + "_" + "x") == Despachar(Reservar(7))
  {
    var s := "reservar" + "_" + "7" + "_" + "x";
    SegundoCampoTrasPrefijo("reservar", "7", "x");
    assert s[0] == 'r';
    OtraInicial(s, "ver_auditorios");
    OtraInicial(s, "mis_reservas");
    OtraInicial(s, "ayuda");
    OtraInicial(s, "auditorio_");
    OtraInicial(s, "disponibilidad_");
    OtraInicial(s, "eventos_");
    assert EmpiezaCon(s, "reservar_");
  }

  /** A prefix followed by no integer raises ValueError. */
  lemma EjemploSinId()
    ensures Leer("cancelar" + "_" + "") == ErrorDeValor
  {
    var s := "cancelar" + "_" + "";
    SegundoCampoTrasPrefijo("cancelar", "", "");
    assert s[0] == 'c';
    OtraInicial(s, "ver_auditorios");
    OtraInicial(s, "mis_reservas");
    OtraInicial(s, "ayuda");
    OtraInicial(s, "auditorio_");
    OtraInicial(s, "disponibilidad_");
    OtraInicial(s, "eventos_");
    OtraInicial(s, "reservar_");
    assert EmpiezaCon(s, "cancelar_");
  }

}
