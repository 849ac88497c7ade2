/**
 * Worked scenarios on concrete dates of 2025 and on the reference
 * configuration.
 */
module Escenarios {
  import opened Wrappers
  import opened Horas
  import opened Fechas
  import opened CalendarData
  import opened Custodia
  import opened Logistica
  import opened Eventos
  import opened Integridad
  import opened Arreglos

  /** Sunday 12 and Monday 13 January 2025. */
  const domingo12: Fecha := DiaDelCalendario(2025, 11)
  const lunes13: Fecha := DiaDelCalendario(2025, 12)

  /** Monday 13 January 2025 is in an even week, and so is the Sunday before it. */
  lemma LunesDeSemanaPar()
    ensures Anterior(lunes13) == domingo12
    ensures NombreDia(lunes13) == "lunes" && EsSemanaParImpar(lunes13) == Par
    ensures NombreDia(domingo12) == "domingo" && EsSemanaParImpar(domingo12) == Par
  {
    DiasDelAnioPropio(lunes13);
    DiasDelAnioPropio(domingo12);
    assert DiaSemana(lunes13) == 1 && DiaSemana(domingo12) == 0;
    assert NumeroSemana(lunes13) == 2 && NumeroSemana(domingo12) == 2;
  }

  /** Under the reference table, Monday 13 is the father's and the Sunday before is the mother's. */
  lemma CustodiaDelLunes()
    ensures DeterminarProgenitorDelDia(lunes13, regimenReferencia) == Some("papa")
    ensures DeterminarProgenitorDelDia(domingo12, regimenReferencia) == Some("mama")
  {
    LunesDeSemanaPar();
  }

  /** The Monday occurrence of "Cole Vico", the first activity of the reference configuration. */
  const coleVicoLunes: Ocurrencia := Ocurrencia("cole-vico", "Cole Vico", Hora(8, 0), Hora(12, 0), "colegio")

  /** On Mondays "Cole Vico" is Vico's only activity, and Vico the only child. */
  lemma ColeVicoSeleccionado()
    ensures Grupo([coleVico], "lunes", "vico") == [coleVicoLunes]
    ensures GrupoOrdenado([coleVico], "lunes", "vico") == [coleVicoLunes]
    ensures Ninos([coleVico], "lunes") == ["vico"]
  {
    assert Contribuye(coleVico, "lunes") && OcurrenciaDe(coleVico, "lunes") == coleVicoLunes;
    assert [coleVico][..0] == [];
  }

  /** Before the sort: the drop-off by Sunday's custodian, then the pick-up by Monday's. */
  lemma ColeVicoObligaciones()
    ensures ObligacionesDelDia(lunes13, regimenReferencia, [coleVico])
            == [Llevada("vico", coleVicoLunes, Some("mama")), Recogida("vico", coleVicoLunes, Some("papa"))]
  {
    LunesDeSemanaPar();
    CustodiaDelLunes();
    ColeVicoSeleccionado();
    assert ["vico"][..0] == [];
    var regimen := regimenReferencia;
    assert Ayer(lunes13, regimen) == Some("mama") && Hoy(lunes13, regimen) == Some("papa");
    assert EventosNino("vico", [coleVicoLunes], Some("mama"), Some("papa"))
           == [Llevada("vico", coleVicoLunes, Some("mama")), Recogida("vico", coleVicoLunes, Some("papa"))];
    assert SinOrdenar([coleVico], "lunes", ["vico"], Some("mama"), Some("papa"))
           == EventosNino("vico", [coleVicoLunes], Some("mama"), Some("papa"));
  }

  /**
   * With only "Cole Vico" (Mondays 08:00 to 12:00), Monday 13 has a drop-off
   * at 08:00 by Sunday's custodian and a pick-up at 12:00 by Monday's.
   */
  lemma ColeVicoElLunes()
    ensures LogisticaDiaria(lunes13, regimenReferencia, [coleVico])
            == [ EventoLogistica("vico", "cole-vico", Llevar, Hora(8, 0), Some("mama"), "Cole Vico"),
                 EventoLogistica("vico", "cole-vico", Recoger, Hora(12, 0), Some("papa"), "Cole Vico") ]
  {
    var llevada := Llevada("vico", coleVicoLunes, Some("mama"));
    var recogida := Recogida("vico", coleVicoLunes, Some("papa"));
    var l := ObligacionesDelDia(lunes13, regimenReferencia, [coleVico]);
    ColeVicoObligaciones();
    assert l == [llevada, recogida];
    assert MinutosEvento(l[0]) == 480 && MinutosEvento(l[1]) == 720;
    assert Ordenada(l, MinutosEvento);
    OrdenarOrdenada(l, MinutosEvento);
  }

  /**
   * Two activities of one child on the same Monday, listed afternoon first:
   * 08:00 to 12:00 and 14:00 to 18:00.
   */
  const tarde: Actividad := Actividad("tarde", "Tarde", "vico", "deporte", ["lunes"],
                                      map["lunes" := Sin(Hora(14, 0), Hora(18, 0))])
  const manana: Actividad := Actividad("manana", "Mañana", "vico", "colegio", ["lunes"],
                                       map["lunes" := Sin(Hora(8, 0), Hora(12, 0))])
  const ocTarde: Ocurrencia := Ocurrencia("tarde", "Tarde", Hora(14, 0), Hora(18, 0), "deporte")
  const ocManana: Ocurrencia := Ocurrencia("manana", "Mañana", Hora(8, 0), Hora(12, 0), "colegio")

  /** The child's group in configuration order: the afternoon activity first. */
  lemma DosActividadesAgrupadas()
    ensures Grupo([tarde, manana], "lunes", "vico") == [ocTarde, ocManana]
    ensures Ninos([tarde, manana], "lunes") == ["vico"]
  {
    assert Contribuye(tarde, "lunes") && OcurrenciaDe(tarde, "lunes") == ocTarde;
    assert Contribuye(manana, "lunes") && OcurrenciaDe(manana, "lunes") == ocManana;
    assert [tarde, manana][..1] == [tarde];
    assert [tarde] [..0] == [];
    assert Grupo([tarde], "lunes", "vico") == [ocTarde];
    assert Ninos([tarde], "lunes") == ["vico"];
  }

  /** Sorted by start time, the morning activity comes first. */
  lemma DosActividadesOrdenadas()
    ensures GrupoOrdenado([tarde, manana], "lunes", "vico") == [ocManana, ocTarde]
  {
    DosActividadesAgrupadas();
    assert [ocTarde, ocManana][..1] == [ocTarde];
    assert Ordenar([ocTarde], MinutosInicio) == [ocTarde];
    assert MinutosInicio(ocManana) == 480 && MinutosInicio(ocTarde) == 840;
    assert Insertar(ocManana, [ocTarde], MinutosInicio) == [ocManana, ocTarde];
  }

  /** The expected obligations of the two-activity Monday, in time order. */
  const cuatro: seq<EventoLogistica> :=
    [ Llevada("vico", ocManana, Some("mama")), Recogida("vico", ocManana, Some("papa")),
      Llevada("vico", ocTarde, Some("papa")), Recogida("vico", ocTarde, Some("papa")) ]

  lemma DosActividadesAtribuidas()
    ensures EventosNino("vico", [ocManana, ocTarde], Some("mama"), Some("papa")) == cuatro
    ensures Ordenada(cuatro, MinutosEvento)
  {
    assert [ocManana, ocTarde][1..] == [ocTarde];
    assert [ocTarde][..0] == [];
    assert EventosSiguientes("vico", [ocTarde], Some("papa"))
           == [Llevada("vico", ocTarde, Some("papa")), Recogida("vico", ocTarde, Some("papa"))];
    assert MinutosEvento(cuatro[0]) == 480 && MinutosEvento(cuatro[1]) == 720;
    assert MinutosEvento(cuatro[2]) == 840 && MinutosEvento(cuatro[3]) == 1080;
  }

  lemma DosActividadesObligaciones()
    ensures ObligacionesDelDia(lunes13, regimenReferencia, [tarde, manana]) == cuatro
  {
    var regimen := regimenReferencia;
    LunesDeSemanaPar();
    CustodiaDelLunes();
    DosActividadesAgrupadas();
    DosActividadesOrdenadas();
    DosActividadesAtribuidas();
    assert Ayer(lunes13, regimen) == Some("mama") && Hoy(lunes13, regimen) == Some("papa");
    assert ["vico"][..0] == [];
    assert SinOrdenar([tarde, manana], "lunes", ["vico"], Some("mama"), Some("papa")) == cuatro;
  }

  /**
   * Four obligations in time order: drop-off at 08:00 by yesterday's
   * custodian, then pick-up at 12:00, drop-off at 14:00 and pick-up at 18:00
   * by today's.
   */
  lemma DosActividadesElLunes()
    ensures LogisticaDiaria(lunes13, regimenReferencia, [tarde, manana])
            == [ EventoLogistica("vico", "manana", Llevar, Hora(8, 0), Some("mama"), "Mañana"),
                 EventoLogistica("vico", "manana", Recoger, Hora(12, 0), Some("papa"), "Mañana"),
                 EventoLogistica("vico", "tarde", Llevar, Hora(14, 0), Some("papa"), "Tarde"),
                 EventoLogistica("vico", "tarde", Recoger, Hora(18, 0), Some("papa"), "Tarde") ]
  {
    DosActividadesObligaciones();
    DosActividadesAtribuidas();
    OrdenarOrdenada(cuatro, MinutosEvento);
  }

  /** Every event the reference configuration generates shows configured names and colours. */
  lemma ReferenciaSinRespaldo(inicio: Fecha, fin: Fecha, e: EventoCalendario)
    requires e in EventosRango(inicio, fin, calendarData)
    ensures SinRespaldo(e, calendarData)
  {
    ReferenciaBienFormada();
    RangoSinRespaldo(inicio, fin, calendarData, e);
  }
}
