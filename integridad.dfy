/**
 * What the integrity rules of a configuration buy the engine: with a
 * well-formed configuration no generated event falls back to a raw id, an
 * `undefined` parent or a default colour.
 */
module Integridad {
  import opened Wrappers
  import opened Horas
  import opened Fechas
  import opened CalendarData
  import opened Custodia
  import opened Logistica
  import opened Arreglos
  import opened Eventos

  /** A declared parent id is found: its name and background colour are the first match's. */
  lemma ProgenitorEncontrado(id: string, progenitores: seq<Progenitor>)
    requires ProgenitorDeclarado(id, progenitores)
    ensures exists i :: 0 <= i < |progenitores| && progenitores[i].id == id
                        && EncontrarNombreProgenitor(Some(id), progenitores) == Some(progenitores[i].nombre)
                        && EncontrarColorProgenitor(Some(id), progenitores) == progenitores[i].colorFondo
  {
  }

  /** A declared child id is found: its name and activity colour are the first match's. */
  lemma NinoEncontrado(id: string, ninos: seq<Nino>)
    requires NinoDeclarado(id, ninos)
    ensures exists i :: 0 <= i < |ninos| && ninos[i].id == id
                        && NombreNino(id, ninos) == ninos[i].nombre
                        && ColorNino(id, ninos) == ninos[i].colorActividad
  {
  }

  /** Every obligation of the planner belongs to a child that some activity names. */
  lemma NinoDeUnaActividad(f: Fecha, regimen: RegimenTenencia, actividades: seq<Actividad>, ev: EventoLogistica)
    requires ev in LogisticaDiaria(f, regimen, actividades)
    ensures exists j :: 0 <= j < |actividades| && actividades[j].ninoId == ev.ninoId
  {
    var dia := NombreDia(f);
    var g := GrupoOrdenado(actividades, dia, ev.ninoId);
    LogisticaSoloActividades(f, regimen, actividades, ev);
    var i :| 0 <= i < |g|
             && (ev == Llevada(ev.ninoId, g[i], if i == 0 then Ayer(f, regimen) else Hoy(f, regimen))
                 || ev == Recogida(ev.ninoId, g[i], Hoy(f, regimen)));
    OrdenarPermuta(Grupo(actividades, dia, ev.ninoId), MinutosInicio);
    assert g[i] in multiset(g);
    assert g[i] in Grupo(actividades, dia, ev.ninoId);
    GrupoSelecciona(actividades, dia, ev.ninoId, g[i]);
  }

  /** With well-timed schedules, every obligation is at a valid time of day. */
  lemma HoraDeUnaObligacion(f: Fecha, regimen: RegimenTenencia, actividades: seq<Actividad>, ev: EventoLogistica)
    requires HorasOrdenadas(actividades)
    requires ev in LogisticaDiaria(f, regimen, actividades)
    ensures HoraValida(ev.hora)
  {
    var dia := NombreDia(f);
    var g := GrupoOrdenado(actividades, dia, ev.ninoId);
    LogisticaSoloActividades(f, regimen, actividades, ev);
    var i :| 0 <= i < |g|
             && (ev == Llevada(ev.ninoId, g[i], if i == 0 then Ayer(f, regimen) else Hoy(f, regimen))
                 || ev == Recogida(ev.ninoId, g[i], Hoy(f, regimen)));
    OrdenarPermuta(Grupo(actividades, dia, ev.ninoId), MinutosInicio);
    assert g[i] in multiset(g);
    assert g[i] in Grupo(actividades, dia, ev.ninoId);
    GrupoSelecciona(actividades, dia, ev.ninoId, g[i]);
    var j :| 0 <= j < |actividades| && actividades[j].ninoId == ev.ninoId
             && Contribuye(actividades[j], dia) && g[i] == OcurrenciaDe(actividades[j], dia);
    assert HorasDe(actividades[j]);
  }

  /** With a complete table of declared parents, every obligation names a declared parent. */
  lemma ProgenitorDeUnaObligacion(f: Fecha, regimen: RegimenTenencia, progenitores: seq<Progenitor>,
                                  actividades: seq<Actividad>, ev: EventoLogistica)
    requires TablaCompleta(regimen) && TenenciaDeclarada(regimen, progenitores)
    requires ev in LogisticaDiaria(f, regimen, actividades)
    ensures ev.progenitor.Some? && ProgenitorDeclarado(ev.progenitor.value, progenitores)
  {
    var g := GrupoOrdenado(actividades, NombreDia(f), ev.ninoId);
    LogisticaSoloActividades(f, regimen, actividades, ev);
    CustodiaDeclarada(f, regimen, progenitores);
    CustodiaDeclarada(Anterior(f), regimen, progenitores);
  }

  /** Every event of the range lies in the events of one of its days. */
  lemma {:induction false} EnAlgunDia(dias: seq<Fecha>, bloque: Fecha -> seq<EventoCalendario>, e: EventoCalendario)
    requires e in EventosDe(dias, bloque)
    ensures exists k :: 0 <= k < |dias| && e in bloque(dias[k])
  {
    var dia, resto := bloque(dias[0]), EventosDe(dias[1..], bloque);
    assert EventosDe(dias, bloque) == dia + resto;
    if e !in dia {
      EnAlgunDia(dias[1..], bloque, e);
      var k :| 0 <= k < |dias[1..]| && e in bloque(dias[1..][k]);
      assert dias[1..][k] == dias[k + 1];
    }
  }

  /** A custody event of a well-formed configuration shows a declared parent's name and colour. */
  lemma CustodiaSinRespaldo(f: Fecha, datos: CalendarData)
    requires BienFormada(datos)
    ensures var e := EventoDeCustodia(f, datos);
            && e.progenitorId.Some?
            && exists i :: 0 <= i < |datos.progenitores| && datos.progenitores[i].id == e.progenitorId.value
                           && e.progenitorNombre == Some(datos.progenitores[i].nombre)
                           && e.colorFondo == datos.progenitores[i].colorFondo
  {
    CustodiaDeclarada(f, datos.regimenTenencia, datos.progenitores);
    ProgenitorEncontrado(DeterminarProgenitorDelDia(f, datos.regimenTenencia).value, datos.progenitores);
  }

  /** An obligation for a declared child and a declared parent shows their names and the child's colour. */
  lemma ActividadConDeclarados(f: Fecha, ev: EventoLogistica, datos: CalendarData)
    requires NinoDeclarado(ev.ninoId, datos.ninos)
    requires ev.progenitor.Some? && ProgenitorDeclarado(ev.progenitor.value, datos.progenitores)
    ensures var e := EventoDeActividad(f, ev, datos);
            && (exists i :: 0 <= i < |datos.ninos| && datos.ninos[i].id == e.ninoId
                            && e.ninoNombre == datos.ninos[i].nombre
                            && e.colorActividad == datos.ninos[i].colorActividad)
            && e.progenitorId.Some?
            && (exists i :: 0 <= i < |datos.progenitores| && datos.progenitores[i].id == e.progenitorId.value
                            && e.progenitorNombre == Some(datos.progenitores[i].nombre))
  {
    NinoEncontrado(ev.ninoId, datos.ninos);
    ProgenitorEncontrado(ev.progenitor.value, datos.progenitores);
  }

  /** The child and the parent of every obligation of a well-formed configuration are declared. */
  lemma ObligacionDeclarada(f: Fecha, ev: EventoLogistica, datos: CalendarData)
    requires BienFormada(datos)
    requires ev in LogisticaDiaria(f, datos.regimenTenencia, datos.actividades)
    ensures NinoDeclarado(ev.ninoId, datos.ninos)
    ensures ev.progenitor.Some? && ProgenitorDeclarado(ev.progenitor.value, datos.progenitores)
  {
    NinoDeUnaActividad(f, datos.regimenTenencia, datos.actividades, ev);
    var j :| 0 <= j < |datos.actividades| && datos.actividades[j].ninoId == ev.ninoId;
    assert NinoDeclarado(datos.actividades[j].ninoId, datos.ninos);
    ProgenitorDeUnaObligacion(f, datos.regimenTenencia, datos.progenitores, datos.actividades, ev);
  }

  /**
   * Event `e` shows no fallback value: its parent is declared and shown by name,
   * a custody event has that parent's colour, and an obligation shows a declared
   * child's name and colour.
   */
  predicate SinRespaldo(e: EventoCalendario, datos: CalendarData) {
    && e.progenitorId.Some?
    && (exists i :: 0 <= i < |datos.progenitores| && datos.progenitores[i].id == e.progenitorId.value
                    && e.progenitorNombre == Some(datos.progenitores[i].nombre)
                    && (e.EventoCustodia? ==> e.colorFondo == datos.progenitores[i].colorFondo))
    && (e.EventoActividad? ==>
          exists i :: 0 <= i < |datos.ninos| && datos.ninos[i].id == e.ninoId
                      && e.ninoNombre == datos.ninos[i].nombre
                      && e.colorActividad == datos.ninos[i].colorActividad)
  }

  /** No event of a day shows a fallback. */
  lemma DiaSinRespaldo(f: Fecha, datos: CalendarData, e: EventoCalendario)
    requires BienFormada(datos)
    requires e in EventosDelDia(f, datos)
    ensures SinRespaldo(e, datos)
  {
    var l := LogisticaDiaria(f, datos.regimenTenencia, datos.actividades);
    var dia := EventosDelDia(f, datos);
    CabezaYMapeo(EventoDeCustodia(f, datos), l, DeActividad(f, datos));
    assert dia == [EventoDeCustodia(f, datos)] + ConvertirEventos(f, l, datos);
    var m :| 0 <= m < |dia| && dia[m] == e;
    if m == 0 {
      CustodiaSinRespaldo(f, datos);
    } else {
      assert l[m - 1] in l;
      ObligacionDeclarada(f, l[m - 1], datos);
      ActividadConDeclarados(f, l[m - 1], datos);
    }
  }

  /** No event of the range shows a fallback: every name and colour comes from the configuration. */
  lemma RangoSinRespaldo(inicio: Fecha, fin: Fecha, datos: CalendarData, e: EventoCalendario)
    requires BienFormada(datos)
    requires e in EventosRango(inicio, fin, datos)
    ensures SinRespaldo(e, datos)
  {
    var dias := Dias(inicio, NumeroDeDias(inicio, fin));
    EnAlgunDia(dias, DelDia(datos), e);
    var k :| 0 <= k < |dias| && e in DelDia(datos)(dias[k]);
    DiaSinRespaldo(dias[k], datos, e);
  }

  /**
   * With well-timed schedules, `setHours` never carries an obligation into
   * another day: the instant of every logistics event lies on its own day.
   */
  lemma DiaSinAcarreo(f: Fecha, datos: CalendarData, e: EventoCalendario)
    requires HorasOrdenadas(datos.actividades)
    requires e in EventosDelDia(f, datos) && e.EventoActividad?
    ensures DiaDelInstante(e.fechaHora) == DiaDe(e)
  {
    var l := LogisticaDiaria(f, datos.regimenTenencia, datos.actividades);
    var dia := EventosDelDia(f, datos);
    CabezaYMapeo(EventoDeCustodia(f, datos), l, DeActividad(f, datos));
    assert dia == [EventoDeCustodia(f, datos)] + ConvertirEventos(f, l, datos);
    var m :| 0 <= m < |dia| && dia[m] == e;
    assert m != 0;
    assert l[m - 1] in l;
    HoraDeUnaObligacion(f, datos.regimenTenencia, datos.actividades, l[m - 1]);
    SinAcarreo(e.fechaHora);
  }

  /** Over any range, no logistics event of a well-formed configuration spills into another day. */
  lemma RangoSinAcarreo(inicio: Fecha, fin: Fecha, datos: CalendarData, e: EventoCalendario)
    requires BienFormada(datos)
    requires e in EventosRango(inicio, fin, datos) && e.EventoActividad?
    ensures DiaDelInstante(e.fechaHora) == DiaDe(e)
  {
    var dias := Dias(inicio, NumeroDeDias(inicio, fin));
    EnAlgunDia(dias, DelDia(datos), e);
    var k :| 0 <= k < |dias| && e in DelDia(datos)(dias[k]);
    DiaSinAcarreo(dias[k], datos, e);
  }
}
