/**
 * The calendar event generator (`generarEventosCalendario`): for every day of
 * an inclusive date range, one custody event followed by that day's
 * drop-off and pick-up events, with display names and colours filled in.
 */
module Eventos {
  import opened Wrappers
  import opened Horas
  import opened Fechas
  import opened CalendarData
  import opened Custodia
  import opened Logistica
  import opened Arreglos

  /** A date with the time of day set by `setHours(horas, minutos, 0, 0)`. */
  datatype FechaHora = FechaHora(fecha: Fecha, hora: Hora)

  datatype EventoCalendario =
    | EventoCustodia(
        fecha: Fecha,
        progenitorId: Option<string>,
        progenitorNombre: Option<string>,
        colorFondo: string)
    | EventoActividad(
        fechaHora: FechaHora,
        subTipo: TipoLogistica,
        ninoId: string,
        ninoNombre: string,
        colorActividad: string,
        actividadId: string,
        actividadNombre: string,
        progenitorId: Option<string>,
        progenitorNombre: Option<string>,
        descripcion: string)

  /**
   * The calendar day of the instant that `setHours(horas, minutos, 0, 0)`
   * builds on day `fh.fecha`: hours past 23 and minutes past 59 carry over
   * into later days.
   */
  function DiaDelInstante(fh: FechaHora): (g: Fecha)
    ensures Ordinal(g) == Ordinal(fh.fecha) + ConvertirHoraAMinutos(fh.hora) / 1440
  {
    Avanzar(fh.fecha, ConvertirHoraAMinutos(fh.hora) / 1440)
  }

  /** A valid time of day stays on its own day. */
  lemma SinAcarreo(fh: FechaHora)
    requires HoraValida(fh.hora)
    ensures DiaDelInstante(fh) == fh.fecha
  {
    OrdinalInyectivo(DiaDelInstante(fh), fh.fecha);
  }

  /** "25:00" is one in the morning of the next day. */
  lemma Acarreo(f: Fecha)
    ensures DiaDelInstante(FechaHora(f, Hora(25, 0))) == Siguiente(f)
  {
    OrdinalInyectivo(DiaDelInstante(FechaHora(f, Hora(25, 0))), Siguiente(f));
  }

  /** The calendar day an event was generated for. */
  function DiaDe(e: EventoCalendario): Fecha {
    match e
    case EventoCustodia(f, _, _, _) => f
    case EventoActividad(fh, _, _, _, _, _, _, _, _, _) => fh.fecha
  }

  // ---------------------------------------------------------------------------
  // Child lookups by id, with the source's fallbacks

  function NinoConId(id: string): Nino -> bool {
    (n: Nino) => n.id == id
  }

  /** `niños.find((n) => n.id === id)`. */
  function BuscarNino(id: string, ninos: seq<Nino>): Option<Nino> {
    Encontrar(ninos, NinoConId(id))
  }

  /** The name of the first child with this id, or the id itself. */
  function NombreNino(id: string, ninos: seq<Nino>): (n: string)
    ensures !NinoDeclarado(id, ninos) ==> n == id
    ensures forall i :: 0 <= i < |ninos| && ninos[i].id == id && (forall j :: 0 <= j < i ==> ninos[j].id != id)
                        ==> n == ninos[i].nombre
  {
    match BuscarNino(id, ninos)
    case Some(nino) => nino.nombre
    case None => id
  }

  /** The activity colour of the first child with this id, or grey. */
  function ColorNino(id: string, ninos: seq<Nino>): (c: string)
    ensures !NinoDeclarado(id, ninos) ==> c == "#CCCCCC"
    ensures forall i :: 0 <= i < |ninos| && ninos[i].id == id && (forall j :: 0 <= j < i ==> ninos[j].id != id)
                        ==> c == ninos[i].colorActividad
  {
    match BuscarNino(id, ninos)
    case Some(nino) => nino.colorActividad
    case None => "#CCCCCC"
  }

  function Prefijo(tipo: TipoLogistica): string {
    if tipo == Llevar then "Llevar a" else "Recoger de"
  }

  /** The human-readable text of an obligation: "Llevar a <name> (<title>)" or "Recoger de <name> (<title>)". */
  function Descripcion(tipo: TipoLogistica, nombre: string, actividad: string): (d: string)
    ensures |d| == |Prefijo(tipo)| + |nombre| + |actividad| + 4
    ensures d[..|Prefijo(tipo)|] == if tipo == Llevar then "Llevar a" else "Recoger de"
    ensures d[|d| - 1] == ')'
  {
    Prefijo(tipo) + " " + nombre + " (" + actividad + ")"
  }

  /** The text can be read back: its opening words give the kind, then the name and the title. */
  lemma DescripcionLegible(tipo: TipoLogistica, nombre: string, actividad: string)
    ensures var d := Descripcion(tipo, nombre, actividad);
            && (tipo == Llevar <==> d[0] == 'L')
            && d[|Prefijo(tipo)|] == ' '
            && d[|Prefijo(tipo)| + 1 .. |d| - |actividad| - 3] == nombre
            && d[|d| - |actividad| - 3 .. |d| - |actividad| - 1] == " ("
            && d[|d| - |actividad| - 1 .. |d| - 1] == actividad
  {
    var d := Descripcion(tipo, nombre, actividad);
    var p := Prefijo(tipo);
    assert d == p + " " + nombre + " (" + actividad + ")";
    assert d[|p|] == ' ';
    assert d[|p| + 1 .. |d| - |actividad| - 3] == nombre;
    assert d[|d| - |actividad| - 3 .. |d| - |actividad| - 1] == " (";
    assert d[|d| - |actividad| - 1 .. |d| - 1] == actividad;
  }

  // ---------------------------------------------------------------------------
  // The events of one day and of a range

  /**
   * The custody event of day `f`: the day's custodian with the name and
   * colour of that parent, or no name and white when nobody has custody.
   */
  function EventoDeCustodia(f: Fecha, datos: CalendarData): (e: EventoCalendario)
    ensures e.EventoCustodia? && e.fecha == f
    ensures e.progenitorId == DeterminarProgenitorDelDia(f, datos.regimenTenencia)
    ensures e.progenitorId.None? ==> e.progenitorNombre.None? && e.colorFondo == "#FFFFFF"
    ensures TablaCompleta(datos.regimenTenencia) ==> e.progenitorId.Some?
  {
    var id := DeterminarProgenitorDelDia(f, datos.regimenTenencia);
    EventoCustodia(f, id, EncontrarNombreProgenitor(id, datos.progenitores),
                   EncontrarColorProgenitor(id, datos.progenitores))
  }

  function EventoDeActividad(f: Fecha, ev: EventoLogistica, datos: CalendarData): EventoCalendario {
    EventoActividad(
      FechaHora(f, ev.hora), ev.tipo, ev.ninoId,
      NombreNino(ev.ninoId, datos.ninos), ColorNino(ev.ninoId, datos.ninos),
      ev.actividadId, ev.actividad,
      ev.progenitor, EncontrarNombreProgenitor(ev.progenitor, datos.progenitores),
      Descripcion(ev.tipo, NombreNino(ev.ninoId, datos.ninos), ev.actividad))
  }

  /** EventoDeActividad on day `f` as a function of the logistics event alone. */
  function DeActividad(f: Fecha, datos: CalendarData): EventoLogistica -> EventoCalendario {
    ev => EventoDeActividad(f, ev, datos)
  }

  function ConvertirEventos(f: Fecha, evs: seq<EventoLogistica>, datos: CalendarData): seq<EventoCalendario> {
    Mapear(evs, DeActividad(f, datos))
  }

  /** The events of day `f`: its custody event, then its logistics events in the planner's order. */
  function EventosDelDia(f: Fecha, datos: CalendarData): seq<EventoCalendario> {
    [EventoDeCustodia(f, datos)]
      + ConvertirEventos(f, LogisticaDiaria(f, datos.regimenTenencia, datos.actividades), datos)
  }

  /** The `n` consecutive days starting at `f`. */
  function Dias(f: Fecha, n: nat): (dias: seq<Fecha>)
    ensures |dias| == n
    decreases n
  {
    if n == 0 then [] else [f] + Dias(Siguiente(f), n - 1)
  }

  /** The events of each day in `dias`, one day after the other. */
  function EventosDe(dias: seq<Fecha>, bloque: Fecha -> seq<EventoCalendario>): seq<EventoCalendario> {
    if dias == [] then [] else bloque(dias[0]) + EventosDe(dias[1..], bloque)
  }

  /** `EventosDelDia` as a function of the day alone. */
  function DelDia(datos: CalendarData): Fecha -> seq<EventoCalendario> {
    (f: Fecha) => EventosDelDia(f, datos)
  }

  /** The number of days from `inicio` to `fin` inclusive; none when `fin` comes first. */
  function NumeroDeDias(inicio: Fecha, fin: Fecha): nat {
    if Ordinal(fin) < Ordinal(inicio) then 0 else Ordinal(fin) - Ordinal(inicio) + 1
  }

  function EventosRango(inicio: Fecha, fin: Fecha, datos: CalendarData): seq<EventoCalendario> {
    EventosDe(Dias(inicio, NumeroDeDias(inicio, fin)), DelDia(datos))
  }

  // ---------------------------------------------------------------------------
  // Properties of the generated sequence

  /**
   * A day's events: exactly one custody event, first, naming the day's
   * custodian, then one logistics event per obligation of the planner, in
   * its order, carrying the planner's responsible parent.
   */
  lemma EstructuraDelDia(f: Fecha, datos: CalendarData)
    ensures var e := EventosDelDia(f, datos);
            var l := LogisticaDiaria(f, datos.regimenTenencia, datos.actividades);
            && |e| == 1 + |l|
            && e[0].EventoCustodia? && e[0].fecha == f
            && e[0].progenitorId == DeterminarProgenitorDelDia(f, datos.regimenTenencia)
            && (forall i :: 0 < i < |e| ==> e[i] == EventoDeActividad(f, l[i - 1], datos))
            && (forall i :: 0 < i < |e| ==> e[i].EventoActividad? && e[i].fechaHora.fecha == f
                                            && e[i].progenitorId == l[i - 1].progenitor
                                            && e[i].subTipo == l[i - 1].tipo)
  {
    var l := LogisticaDiaria(f, datos.regimenTenencia, datos.actividades);
    CabezaYMapeo(EventoDeCustodia(f, datos), l, DeActividad(f, datos));
  }

  function EsCustodia(): EventoCalendario -> bool {
    (e: EventoCalendario) => e.EventoCustodia?
  }

  lemma SinCustodias(f: Fecha, evs: seq<EventoLogistica>, datos: CalendarData)
    ensures Filtrar(ConvertirEventos(f, evs, datos), EsCustodia()) == []
  {
    var c := ConvertirEventos(f, evs, datos);
    forall i | 0 <= i < |c| ensures !EsCustodia()(c[i]) {
      assert c[i] == EventoDeActividad(f, evs[i], datos);
    }
    FiltrarNinguno(c, EsCustodia());
  }


  /** A day holds exactly one custody event. */
  lemma CustodiaDelDia(f: Fecha, datos: CalendarData)
    ensures Filtrar(EventosDelDia(f, datos), EsCustodia()) == [EventoDeCustodia(f, datos)]
  {
    var e := EventosDelDia(f, datos);
    var c := ConvertirEventos(f, LogisticaDiaria(f, datos.regimenTenencia, datos.actividades), datos);
    assert e[1..] == c;
    SinCustodias(f, LogisticaDiaria(f, datos.regimenTenencia, datos.actividades), datos);
  }

  /** The days of the range are consecutive: the i-th is `i` days after the first. */
  lemma {:induction false} DiasConsecutivos(f: Fecha, n: nat)
    ensures forall i :: 0 <= i < n ==> Dias(f, n)[i] == Avanzar(f, i)
    ensures forall i :: 0 <= i < n ==> Ordinal(Dias(f, n)[i]) == Ordinal(f) + i
    ensures forall x :: x in Dias(f, n) ==> Ordinal(f) <= Ordinal(x) < Ordinal(f) + n
    decreases n
  {
    if n > 0 {
      var g, m := Siguiente(f), n - 1;
      var d, r := Dias(f, n), Dias(g, m);
      assert d == [f] + r;
      DiasConsecutivos(g, m);
      forall i | 0 < i < n
        ensures d[i] == Avanzar(f, i)
      {
        var k := i - 1;
        assert d[i] == r[k];
      }
      forall x | x in d
        ensures Ordinal(f) <= Ordinal(x) < Ordinal(f) + n
      {
        if x != f {
          assert x in r;
        }
      }
    }
  }

  /** There is exactly one custody event per day, in the order of the days. */
  lemma {:induction false} UnaCustodiaPorDia(dias: seq<Fecha>, bloque: Fecha -> seq<EventoCalendario>,
                                              custodia: Fecha -> EventoCalendario)
    requires forall f :: Filtrar(bloque(f), EsCustodia()) == [custodia(f)]
    ensures |Filtrar(EventosDe(dias, bloque), EsCustodia())| == |dias|
    ensures forall i :: 0 <= i < |dias| ==> Filtrar(EventosDe(dias, bloque), EsCustodia())[i] == custodia(dias[i])
  {
    if dias != [] {
      var dia, resto := bloque(dias[0]), EventosDe(dias[1..], bloque);
      var cs, csResto := Filtrar(dia + resto, EsCustodia()), Filtrar(resto, EsCustodia());
      UnaCustodiaPorDia(dias[1..], bloque, custodia);
      FiltrarConcatenar(dia, resto, EsCustodia());
      assert cs == [custodia(dias[0])] + csResto;
    }
  }

  lemma FechaDeConvertidos(f: Fecha, evs: seq<EventoLogistica>, datos: CalendarData)
    ensures forall e :: e in ConvertirEventos(f, evs, datos) ==> DiaDe(e) == f
  {
  }

  /** All the events of a day are dated on that day. */
  lemma FechaDelDia(f: Fecha, datos: CalendarData)
    ensures forall e :: e in EventosDelDia(f, datos) ==> DiaDe(e) == f
  {
    var l := LogisticaDiaria(f, datos.regimenTenencia, datos.actividades);
    FechaDeConvertidos(f, l, datos);
  }

  predicate PorOrdenDeDias(e: seq<EventoCalendario>) {
    forall i, j :: 0 <= i < j < |e| ==> Ordinal(DiaDe(e[i])) <= Ordinal(DiaDe(e[j]))
  }

  lemma OrdenConcatenado(dia: seq<EventoCalendario>, resto: seq<EventoCalendario>, f: Fecha)
    requires forall x :: x in dia ==> DiaDe(x) == f
    requires forall x :: x in resto ==> Ordinal(f) < Ordinal(DiaDe(x))
    requires PorOrdenDeDias(resto)
    ensures PorOrdenDeDias(dia + resto)
  {
    var e := dia + resto;
    forall i, j | 0 <= i < j < |e|
      ensures Ordinal(DiaDe(e[i])) <= Ordinal(DiaDe(e[j]))
    {
      if j < |dia| {
        assert e[i] in dia && e[j] in dia;
      } else if i < |dia| {
        assert e[i] in dia && e[j] in resto;
      } else {
        assert e[i] == resto[i - |dia|] && e[j] == resto[j - |dia|];
      }
    }
  }

  /** Every event belongs to one of the days. */
  lemma {:induction false} EventosEnSusDias(dias: seq<Fecha>, bloque: Fecha -> seq<EventoCalendario>)
    requires forall f, x :: x in bloque(f) ==> DiaDe(x) == f
    ensures forall e :: e in EventosDe(dias, bloque) ==> DiaDe(e) in dias
  {
    if dias != [] {
      var dia, resto := bloque(dias[0]), EventosDe(dias[1..], bloque);
      assert EventosDe(dias, bloque) == dia + resto;
      EventosEnSusDias(dias[1..], bloque);
      assert forall x :: x in dias[1..] ==> x in dias;
    }
  }

  predicate Crecientes(dias: seq<Fecha>) {
    forall i, j :: 0 <= i < j < |dias| ==> Ordinal(dias[i]) < Ordinal(dias[j])
  }

  /** Over days in increasing order, the events come day by day. */
  lemma {:induction false} EventosPorDia(dias: seq<Fecha>, bloque: Fecha -> seq<EventoCalendario>)
    requires forall f, x :: x in bloque(f) ==> DiaDe(x) == f
    requires Crecientes(dias)
    ensures PorOrdenDeDias(EventosDe(dias, bloque))
  {
    if dias != [] {
      var cola := dias[1..];
      var dia, resto := bloque(dias[0]), EventosDe(cola, bloque);
      assert EventosDe(dias, bloque) == dia + resto;
      assert Crecientes(cola) by {
        forall i, j | 0 <= i < j < |cola| ensures Ordinal(cola[i]) < Ordinal(cola[j]) {
          assert cola[i] == dias[i + 1] && cola[j] == dias[j + 1];
        }
      }
      EventosPorDia(cola, bloque);
      EventosEnSusDias(cola, bloque);
      forall x | x in resto
        ensures Ordinal(dias[0]) < Ordinal(DiaDe(x))
      {
        var k :| 0 <= k < |cola| && cola[k] == DiaDe(x);
        assert cola[k] == dias[k + 1];
      }
      OrdenConcatenado(dia, resto, dias[0]);
    }
  }


  function CustodiaDe(datos: CalendarData): Fecha -> EventoCalendario {
    (f: Fecha) => EventoDeCustodia(f, datos)
  }

  /** Over the range there is one custody event per day, and the i-th is the one of the i-th day. */
  lemma RangoCustodias(inicio: Fecha, fin: Fecha, datos: CalendarData)
    ensures var e, n := EventosRango(inicio, fin, datos), NumeroDeDias(inicio, fin);
            && |Filtrar(e, EsCustodia())| == n
            && (forall i :: 0 <= i < n ==> Filtrar(e, EsCustodia())[i] == EventoDeCustodia(Avanzar(inicio, i), datos))
  {
    var n := NumeroDeDias(inicio, fin);
    var dias := Dias(inicio, n);
    DiasConsecutivos(inicio, n);
    forall f ensures Filtrar(DelDia(datos)(f), EsCustodia()) == [CustodiaDe(datos)(f)] {
      CustodiaDelDia(f, datos);
    }
    UnaCustodiaPorDia(dias, DelDia(datos), CustodiaDe(datos));
  }

  /** Every event of a range falls inside it, and the days never go back. */
  lemma RangoEnOrden(inicio: Fecha, fin: Fecha, datos: CalendarData)
    ensures var e := EventosRango(inicio, fin, datos);
            && (forall i :: 0 <= i < |e| ==> Ordinal(inicio) <= Ordinal(DiaDe(e[i])) <= Ordinal(fin))
            && PorOrdenDeDias(e)
  {
    var n := NumeroDeDias(inicio, fin);
    var dias := Dias(inicio, n);
    var e := EventosDe(dias, DelDia(datos));
    DiasConsecutivos(inicio, n);
    forall f, x | x in DelDia(datos)(f) ensures DiaDe(x) == f {
      FechaDelDia(f, datos);
    }
    EventosEnSusDias(dias, DelDia(datos));
    assert Crecientes(dias);
    EventosPorDia(dias, DelDia(datos));
    forall i | 0 <= i < |e|
      ensures Ordinal(inicio) <= Ordinal(DiaDe(e[i])) <= Ordinal(fin)
    {
      assert e[i] in e;
    }
  }

  /** A non-empty range is its first day followed by the range from the next day. */
  lemma PrimerDiaDelRango(inicio: Fecha, fin: Fecha, datos: CalendarData)
    requires Ordinal(inicio) <= Ordinal(fin)
    ensures EventosRango(inicio, fin, datos) == EventosDelDia(inicio, datos) + EventosRango(Siguiente(inicio), fin, datos)
  {
    var g := Siguiente(inicio);
    var n, m := NumeroDeDias(inicio, fin), NumeroDeDias(g, fin);
    assert m + 1 == n;
    var dias := Dias(inicio, n);
    assert dias == [inicio] + Dias(g, m);
    assert dias[1..] == Dias(g, m);
  }

  /** A one-day range: exactly one custody event, first, then that day's logistics events. */
  lemma RangoDeUnDia(f: Fecha, datos: CalendarData)
    ensures var e := EventosRango(f, f, datos);
            && e == EventosDelDia(f, datos)
            && |e| == 1 + |LogisticaDiaria(f, datos.regimenTenencia, datos.actividades)|
            && e[0] == EventoDeCustodia(f, datos)
            && Filtrar(e, EsCustodia()) == [EventoDeCustodia(f, datos)]
  {
    assert NumeroDeDias(f, f) == 1;
    var dias := Dias(f, 1);
    assert dias == [f];
    UnSoloBloque(f, DelDia(datos));
    EstructuraDelDia(f, datos);
    CustodiaDelDia(f, datos);
  }

  lemma UnSoloBloque(f: Fecha, bloque: Fecha -> seq<EventoCalendario>)
    ensures EventosDe([f], bloque) == bloque(f)
  {
    assert [f][1..] == [];
  }

  // ---------------------------------------------------------------------------
  // The generator as the source writes it


  /** The body of the inner loop: one logistics event as a calendar event, with its lookups. */
  method ConvertirUno(fechaActual: Fecha, evento: EventoLogistica, datos: CalendarData)
    returns (eventoCalendario: EventoCalendario)
    ensures eventoCalendario == EventoDeActividad(fechaActual, evento, datos)
  {
    var nino := BuscarNino(evento.ninoId, datos.ninos);
    var ninoNombre := if nino.Some? then nino.value.nombre else evento.ninoId;
    var colorActividad := if nino.Some? then nino.value.colorActividad else "#CCCCCC";
    var progenitor := BuscarProgenitor(evento.progenitor, datos.progenitores);
    var progenitorNombre := if progenitor.Some? then Some(progenitor.value.nombre) else evento.progenitor;
    eventoCalendario := EventoActividad(
      FechaHora(fechaActual, evento.hora), evento.tipo, evento.ninoId, ninoNombre, colorActividad,
      evento.actividadId, evento.actividad, evento.progenitor, progenitorNombre,
      Descripcion(evento.tipo, ninoNombre, evento.actividad));
  }

  /** The inner loop over a day's logistics events, each turned into a calendar event. */
  method ConvertirLogistica(fechaActual: Fecha, eventosLogistica: seq<EventoLogistica>, datos: CalendarData)
    returns (eventos: seq<EventoCalendario>)
    ensures eventos == ConvertirEventos(fechaActual, eventosLogistica, datos)
  {
    eventos := [];
    var k := 0;
    while k < |eventosLogistica|
      invariant 0 <= k <= |eventosLogistica|
      invariant eventos == ConvertirEventos(fechaActual, eventosLogistica[..k], datos)
    {
      MapearUnoMas(eventosLogistica, k, DeActividad(fechaActual, datos));
      var evento := ConvertirUno(fechaActual, eventosLogistica[k], datos);
      eventos := eventos + [evento];
      k := k + 1;
    }
    assert eventosLogistica[..k] == eventosLogistica;
  }

  /** One iteration of the day loop: the custody event, then the day's logistics events. */
  method EventosDeUnDia(fechaActual: Fecha, datos: CalendarData) returns (eventos: seq<EventoCalendario>)
    ensures eventos == EventosDelDia(fechaActual, datos)
  {
    var progenitorDia := DeterminarProgenitorDelDia(fechaActual, datos.regimenTenencia);
    var eventosLogistica := DeterminarLogisticaDiaria(fechaActual, datos.regimenTenencia, datos.actividades);
    var actividades := ConvertirLogistica(fechaActual, eventosLogistica, datos);
    eventos := [EventoCustodia(fechaActual, progenitorDia,
                               EncontrarNombreProgenitor(progenitorDia, datos.progenitores),
                               EncontrarColorProgenitor(progenitorDia, datos.progenitores))]
               + actividades;
  }

  /** `generarEventosCalendario`: computes exactly EventosRango. */
  method GenerarEventosCalendario(fechaInicio: Fecha, fechaFin: Fecha, datos: CalendarData)
    returns (eventos: seq<EventoCalendario>)
    ensures eventos == EventosRango(fechaInicio, fechaFin, datos)
    ensures Ordinal(fechaFin) < Ordinal(fechaInicio) ==> eventos == []
  {
    eventos := [];
    var fechaActual := fechaInicio;
    while Ordinal(fechaActual) <= Ordinal(fechaFin)
      invariant eventos + EventosRango(fechaActual, fechaFin, datos) == EventosRango(fechaInicio, fechaFin, datos)
      decreases Ordinal(fechaFin) - Ordinal(fechaActual)
    {
      PrimerDiaDelRango(fechaActual, fechaFin, datos);
      var delDia := EventosDeUnDia(fechaActual, datos);
      ghost var resto := EventosRango(Siguiente(fechaActual), fechaFin, datos);
      assert eventos + (delDia + resto) == (eventos + delDia) + resto;
      eventos := eventos + delDia;
      fechaActual := Siguiente(fechaActual);
    }
    RangoVacio(fechaActual, fechaFin, datos);
    RangoVacio(fechaInicio, fechaFin, datos);
  }

  /** A range whose end comes before its start has no events. */
  lemma RangoVacio(inicio: Fecha, fin: Fecha, datos: CalendarData)
    ensures Ordinal(fin) < Ordinal(inicio) ==> EventosRango(inicio, fin, datos) == []
  {
  }
}
