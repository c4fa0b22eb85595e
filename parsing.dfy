/**
 * The text the booking dialog reads and writes: `strptime` with the fixed formats "%d/%m/%Y" and
 * "%H:%M", `strftime` with the same formats, and the description sentinel "sin descripcion".
 *
 * `strptime` matches each directive with a fixed regular expression, then rejects a string with
 * characters left over, then builds the date, which rejects day 29 of February outside leap years,
 * day 31 of a 30-day month and the year 0. The field patterns are:
 *   %d   3[01] | [12]\d | 0[1-9] | [1-9] | " "[1-9]
 *   %m   1[0-2] | 0[1-9] | [1-9]
 *   %Y   \d\d\d\d
 *   %H   2[0-3] | [0-1]\d | \d
 *   %M   [0-5]\d | \d
 * No pattern holds '/' or ':', so each field is the text between two separators, and the last field
 * is the whole rest of the string.
 */
module Parsing {
  import opened Wrappers
  import opened Models
  import opened Texto

  function CampoDia(t: string): (r: Option<int>)
    ensures r.Some? ==> 1 <= r.value <= 31 && 1 <= |t| <= 2
  {
    if |t| == 2 && t[0] == '3' && (t[1] == '0' || t[1] == '1') then Some(30 + ValorDigito(t[1]))
    else if |t| == 2 && (t[0] == '1' || t[0] == '2') && EsDigito(t[1]) then Some(10 * ValorDigito(t[0]) + ValorDigito(t[1]))
    else if |t| == 2 && t[0] == '0' && '1' <= t[1] <= '9' then Some(ValorDigito(t[1]))
    else if |t| == 1 && '1' <= t[0] <= '9' then Some(ValorDigito(t[0]))
    else if |t| == 2 && t[0] == ' ' && '1' <= t[1] <= '9' then Some(ValorDigito(t[1]))
    else None
  }

  function CampoMes(t: string): (r: Option<int>)
    ensures r.Some? ==> 1 <= r.value <= 12 && 1 <= |t| <= 2 && TodoDigitos(t)
  {
    if |t| == 2 && t[0] == '1' && '0' <= t[1] <= '2' then Some(10 + ValorDigito(t[1]))
    else if |t| == 2 && t[0] == '0' && '1' <= t[1] <= '9' then Some(ValorDigito(t[1]))
    else if |t| == 1 && '1' <= t[0] <= '9' then Some(ValorDigito(t[0]))
    else None
  }

  function CampoAnio(t: string): (r: Option<int>)
    ensures r.Some? ==> 0 <= r.value <= 9999 && |t| == 4 && TodoDigitos(t)
  {
    if |t| == 4 && TodoDigitos(t) then
      Some(((ValorDigito(t[0]) * 10 + ValorDigito(t[1])) * 10 + ValorDigito(t[2])) * 10 + ValorDigito(t[3]))
    else None
  }

  function CampoHora(t: string): (r: Option<int>)
    ensures r.Some? ==> 0 <= r.value <= 23 && 1 <= |t| <= 2 && TodoDigitos(t)
  {
    if |t| == 2 && t[0] == '2' && '0' <= t[1] <= '3' then Some(20 + ValorDigito(t[1]))
    else if |t| == 2 && (t[0] == '0' || t[0] == '1') && EsDigito(t[1]) then Some(10 * ValorDigito(t[0]) + ValorDigito(t[1]))
    else if |t| == 1 && EsDigito(t[0]) then Some(ValorDigito(t[0]))
    else None
  }

  function CampoMinuto(t: string): (r: Option<int>)
    ensures r.Some? ==> 0 <= r.value <= 59 && 1 <= |t| <= 2 && TodoDigitos(t)
  {
    if |t| == 2 && '0' <= t[0] <= '5' && EsDigito(t[1]) then Some(10 * ValorDigito(t[0]) + ValorDigito(t[1]))
    else if |t| == 1 && EsDigito(t[0]) then Some(ValorDigito(t[0]))
    else None
  }

  /** The date the three field texts give, when each matches its pattern and the day exists. */
  function CamposFecha(dia: string, mes: string, anio: string): (r: Option<Fecha>)
    ensures r.Some? ==> FechaValida(r.value)
  {
    var d, m, y := CampoDia(dia), CampoMes(mes), CampoAnio(anio);
    if d.Some? && m.Some? && y.Some? && 1 <= y.value && d.value <= DaysInMonth(y.value, m.value)
    then Some(Fecha(y.value, m.value, d.value))
    else None
  }

  /** `datetime.strptime(s, '%d/%m/%Y').date()`, or None where it raises ValueError. */
  function ParseFecha(s: string): (r: Option<Fecha>)
    ensures r.Some? ==> FechaValida(r.value)
  {
    match Indice(s, '/')
    case None => None
    case Some(i) =>
      var resto := s[i + 1..];
      match Indice(resto, '/')
      case None => None
      case Some(j) => CamposFecha(s[..i], resto[..j], resto[j + 1..])
  }

  /** A string with two '/' is read field by field; the year field takes the whole rest. */
  lemma ParseFechaCampos(dia: string, mes: string, anio: string)
    requires '/' !in dia && '/' !in mes
    ensures ParseFecha(dia + "/" + mes + "/" + anio) == CamposFecha(dia, mes, anio)
  {
    var resto := mes + ['/'] + anio;
    var s := dia + ['/'] + resto;
    assert dia + "/" + mes + "/" + anio == s;
    IndiceTras(dia, '/', resto);
    assert s[|dia| + 1..] == resto && s[..|dia|] == dia;
    IndiceTras(mes, '/', anio);
    assert resto[..|mes|] == mes && resto[|mes| + 1..] == anio;
  }

  /** `s` is `dia/mes/anio` with the field widths of %d, %m and %Y. */
  predicate FormaFecha(s: string, dia: string, mes: string, anio: string) {
    s == dia + "/" + mes + "/" + anio && '/' !in dia && '/' !in mes
    && 1 <= |dia| <= 2 && 1 <= |mes| <= 2 && TodoDigitos(mes) && |anio| == 4 && TodoDigitos(anio)
  }

  /**
   * Every accepted date text is a day of one or two characters, a month of one or two digits and
   * a year of exactly four digits, separated by single '/', with nothing after the year.
   */
  lemma ParseFechaForma(s: string)
    requires ParseFecha(s).Some?
    ensures exists dia, mes, anio :: FormaFecha(s, dia, mes, anio)
  {
    var i := Indice(s, '/').value;
    var j := Indice(s[i + 1..], '/').value;
    FormaFechaEnSeparadores(s, i, j);
  }

  /** Split at the two separators `ParseFecha` finds, accepted fields give the shape. */
  lemma FormaFechaEnSeparadores(s: string, i: nat, j: nat)
    requires i < |s| && s[i] == '/' && '/' !in s[..i]
    requires j < |s[i + 1..]| && s[i + 1..][j] == '/' && '/' !in s[i + 1..][..j]
    requires CamposFecha(s[..i], s[i + 1..][..j], s[i + 1..][j + 1..]).Some?
    ensures FormaFecha(s, s[..i], s[i + 1..][..j], s[i + 1..][j + 1..])
  {
    var resto := s[i + 1..];
    var dia, mes, anio := s[..i], resto[..j], resto[j + 1..];
    CamposFechaAnchos(dia, mes, anio);
    assert resto == mes + [resto[j]] + anio;
    assert s == dia + [s[i]] + resto;
    assert s == dia + "/" + mes + "/" + anio;
  }

  /** The fields of an accepted date have the widths their patterns allow. */
  lemma CamposFechaAnchos(dia: string, mes: string, anio: string)
    requires CamposFecha(dia, mes, anio).Some?
    ensures 1 <= |dia| <= 2 && 1 <= |mes| <= 2 && TodoDigitos(mes) && |anio| == 4 && TodoDigitos(anio)
  {
    assert CampoDia(dia).Some? && CampoMes(mes).Some? && CampoAnio(anio).Some?;
  }

  /** The time the two field texts give, when each matches its pattern. */
  function CamposHora(hora: string, minuto: string): (r: Option<Hora>)
    ensures r.Some? ==> r.value % 60 == 0
  {
    var h, m := CampoHora(hora), CampoMinuto(minuto);
    if h.Some? && m.Some? then Some(h.value * 3600 + m.value * 60) else None
  }

  /** `datetime.strptime(s, '%H:%M').time()` in seconds after midnight, or None where it raises ValueError. */
  function ParseHora(s: string): (r: Option<Hora>)
    ensures r.Some? ==> r.value % 60 == 0
  {
    match Indice(s, ':')
    case None => None
    case Some(i) => CamposHora(s[..i], s[i + 1..])
  }

  /** A string with a ':' is read field by field; the minute field takes the whole rest. */
  lemma ParseHoraCampos(hora: string, minuto: string)
    requires ':' !in hora
    ensures ParseHora(hora + ":" + minuto) == CamposHora(hora, minuto)
  {
    var s := hora + ":" + minuto;
    assert s == hora + [':'] + minuto;
    IndiceTras(hora, ':', minuto);
    assert s[..|hora|] == hora && s[|hora| + 1..] == minuto;
  }

  /**
   * Every accepted time text is an hour and a minute of one or two digits each, separated by a
   * single ':', with nothing after the minute.
   */
  lemma ParseHoraForma(s: string)
    requires ParseHora(s).Some?
    ensures exists hora, minuto :: s == hora + ":" + minuto && ':' !in hora
              && 1 <= |hora| <= 2 && TodoDigitos(hora) && 1 <= |minuto| <= 2 && TodoDigitos(minuto)
  {
    var i := Indice(s, ':').value;
    var hora, minuto := s[..i], s[i + 1..];
    assert CamposHora(hora, minuto).Some?;
    assert s == hora + [s[i]] + minuto;
    assert s == hora + ":" + minuto;
  }

  /** Two digits, zero-padded, as `strftime` writes %d, %m, %H and %M. */
  function DosDigitos(n: int): (s: string)
    requires 0 <= n <= 99
    ensures |s| == 2 && TodoDigitos(s)
  {
    [Digito(n / 10), Digito(n % 10)]
  }

  /** Four digits, as `strftime` writes %Y for the years 1000 to 9999. */
  function CuatroDigitos(n: int): (s: string)
    requires 0 <= n <= 9999
    ensures |s| == 4 && TodoDigitos(s)
  {
    var centenas := n % 1000;
    var decenas := centenas % 100;
    [Digito(n / 1000), Digito(centenas / 100), Digito(decenas / 10), Digito(decenas % 10)]
  }

  /** `fecha.strftime('%d/%m/%Y')`. */
  function FormatoFecha(d: Fecha): string
    requires FechaValida(d) && 1000 <= d.year
  {
    DosDigitos(d.day) + "/" + DosDigitos(d.month) + "/" + CuatroDigitos(d.year)
  }

  /** `hora.strftime('%H:%M')`. */
  function FormatoHora(t: Hora): string {
    DosDigitos(t / 3600) + ":" + DosDigitos(t % 3600 / 60)
  }

  lemma CampoDiaDosDigitos(d: int)
    requires 1 <= d <= 31
    ensures CampoDia(DosDigitos(d)) == Some(d)
  {
  }

  lemma CampoMesDosDigitos(m: int)
    requires 1 <= m <= 12
    ensures CampoMes(DosDigitos(m)) == Some(m)
  {
  }

  lemma CampoAnioCuatroDigitos(y: int)
    requires 0 <= y <= 9999
    ensures CampoAnio(CuatroDigitos(y)) == Some(y)
  {
    var centenas := y % 1000;
    var decenas := centenas % 100;
    assert y == 1000 * (y / 1000) + centenas;
    assert centenas == 100 * (centenas / 100) + decenas;
    assert decenas == 10 * (decenas / 10) + decenas % 10;
  }

  /** Every date the dialog echoes back (years 1000 to 9999) parses back to itself. */
  lemma ParseFormatoFecha(d: Fecha)
    requires FechaValida(d) && 1000 <= d.year
    ensures ParseFecha(FormatoFecha(d)) == Some(d)
  {
    ParseFechaCampos(DosDigitos(d.day), DosDigitos(d.month), CuatroDigitos(d.year));
    CampoDiaDosDigitos(d.day);
    CampoMesDosDigitos(d.month);
    CampoAnioCuatroDigitos(d.year);
  }

  /** Every time of day in whole minutes parses back to itself from its "%H:%M" text. */
  lemma ParseFormatoHora(t: Hora)
    requires t % 60 == 0
    ensures ParseHora(FormatoHora(t)) == Some(t)
  {
    ParseHoraCampos(DosDigitos(t / 3600), DosDigitos(t % 3600 / 60));
  }

  /** 29 February exists in a leap year (2024 is one). */
  lemma EjemploBisiesto()
    ensures ParseFecha("29" + "/" + "02" + "/" + "2024") == Some(Fecha(2024, 2, 29))
  {
    ParseFechaCampos("29", "02", "2024");
  }

  /** The unpadded day and month are accepted. */
  lemma EjemploSinCeros()
    ensures ParseFecha("1" + "/" + "6" + "/" + "2025") == Some(Fecha(2025, 6, 1))
  {
    ParseFechaCampos("1", "6", "2025");
  }

  /** A day padded with a space instead of a zero is accepted. */
  lemma EjemploDiaConEspacio()
    ensures ParseFecha(" 1" + "/" + "06" + "/" + "2025") == Some(Fecha(2025, 6, 1))
  {
    ParseFechaCampos(" 1", "06", "2025");
  }

  /** 1900 is divisible by 100 and not by 400, so it is not a leap year and has no 29 February. */
  lemma EjemploNoBisiesto()
    ensures ParseFecha("29" + "/" + "02" + "/" + "1900") == None
  {
    ParseFechaCampos("29", "02", "1900");
  }

  /** Refused: 31 April, month 13 and the year 0. */
  lemma EjemplosFechaInexistente()
    ensures ParseFecha("31" + "/" + "04" + "/" + "2025") == None
    ensures ParseFecha("01" + "/" + "13" + "/" + "2025") == None
    ensures ParseFecha("01" + "/" + "01" + "/" + "0000") == None
  {
    ParseFechaCampos("31", "04", "2025");
    ParseFechaCampos("01", "13", "2025");
    ParseFechaCampos("01", "01", "0000");
  }

  /** Refused: a two-digit year, and text after the year. */
  lemma EjemplosFechaMalEscrita()
    ensures ParseFecha("01" + "/" + "06" + "/" + "25") == None
    ensures ParseFecha("01" + "/" + "06" + "/" + "2025 ") == None
  {
    ParseFechaCampos("01", "06", "25");
    ParseFechaCampos("01", "06", "2025 ");
  }

  /** The hour and the minute may each be written with one digit. */
  lemma EjemploHoraCorta()
    ensures ParseHora("9" + ":" + "5") == Some(32700)
  {
    ParseHoraCampos("9", "5");
  }

  /** Refused: hour 24, minute 60, and a seconds field. */
  lemma EjemplosHoraRechazada()
    ensures ParseHora("24" + ":" + "00") == None
    ensures ParseHora("12" + ":" + "60") == None
    ensures ParseHora("12" + ":" + "30:00") == None
  {
    ParseHoraCampos("24", "00");
    ParseHoraCampos("12", "60");
    ParseHoraCampos("12", "30:00");
  }

  // ---------------------------------------------------------------------------------------------
  // The description step

  /** `str.lower()` on the characters that matter here: A-Z become a-z, everything else is kept. */
  function MinusculaAscii(c: char): char {
    if 'A' <= c <= 'Z' then (c as int + 32) as char else c
  }

  function Minusculas(s: string): string {
    seq(|s|, k requires 0 <= k < |s| => MinusculaAscii(s[k]))
  }

  const SinDescripcion: string := "sin descripcion"

  /** `a` and `b` are equal once upper-case letters are taken as lower-case. */
  predicate IgualesSinMayusculas(a: string, b: string) {
    |a| == |b| && forall k :: 0 <= k < |a| ==> MinusculaAscii(a[k]) == MinusculaAscii(b[k])
  }

  /** The sentinel in any letter case means "no description"; any other text is the description, verbatim. */
  function Descripcion(texto: string): (r: Option<string>)
    ensures r.None? <==> IgualesSinMayusculas(texto, SinDescripcion)
    ensures r.Some? ==> r.value == texto
  {
    if Minusculas(texto) == SinDescripcion then None else Some(texto)
  }

  lemma EjemplosDescripcion()
    ensures Descripcion("SIN DESCRIPCION") == None
    ensures Descripcion("Sin Descripcion") == None
    ensures Descripcion("sin descripción") == Some("sin descripción")
    ensures Descripcion("sin descripcion.") == Some("sin descripcion.")
  {
    assert Minusculas("sin descripción")[13] == 'ó';
  }

}
