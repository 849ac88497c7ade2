/**
 * The configuration the engine runs on: children, parents, the fortnightly
 * tenancy table and the weekly activity timetable, with the reference
 * configuration of the family and the integrity rules it satisfies.
 */
module CalendarData {
  import opened Wrappers
  import opened Horas

  datatype Nino = Nino(id: string, nombre: string, colorActividad: string)

  datatype Progenitor = Progenitor(id: string, nombre: string, colorFondo: string)

  datatype Horario = Horario(inicio: Hora, fin: Hora, nota: Option<string>)

  datatype Actividad = Actividad(
    id: string,
    titulo: string,
    ninoId: string,
    tipo: string,
    diasSemana: seq<string>,
    horarios: map<string, Horario>)

  datatype TipoActividad = TipoActividad(id: string, nombre: string)

  /** Weekday name to parent id, one table for even weeks and one for odd weeks. */
  datatype RegimenTenencia = RegimenTenencia(
    semanasPares: map<string, string>,
    semanasImpares: map<string, string>)

  datatype CalendarData = CalendarData(
    ninos: seq<Nino>,
    progenitores: seq<Progenitor>,
    regimenTenencia: RegimenTenencia,
    actividades: seq<Actividad>,
    tiposActividad: seq<TipoActividad>)

  /** The weekday names indexed by `getDay()`, Sunday first. */
  const DIAS_SEMANA: seq<string> :=
    ["domingo", "lunes", "martes", "miercoles", "jueves", "viernes", "sabado"]

  // ---------------------------------------------------------------------------
  // Integrity rules of a configuration

  /** Both halves of the table name a parent for every weekday. */
  predicate TablaCompleta(r: RegimenTenencia) {
    forall d :: d in DIAS_SEMANA ==> d in r.semanasPares && d in r.semanasImpares
  }

  predicate ProgenitorDeclarado(id: string, progenitores: seq<Progenitor>) {
    exists i :: 0 <= i < |progenitores| && progenitores[i].id == id
  }

  predicate NinoDeclarado(id: string, ninos: seq<Nino>) {
    exists i :: 0 <= i < |ninos| && ninos[i].id == id
  }

  predicate TipoDeclarado(id: string, tipos: seq<TipoActividad>) {
    exists i :: 0 <= i < |tipos| && tipos[i].id == id
  }

  /** Every value of the tenancy table is the id of a declared parent. */
  predicate TenenciaDeclarada(r: RegimenTenencia, progenitores: seq<Progenitor>) {
    && (forall d :: d in r.semanasPares ==> ProgenitorDeclarado(r.semanasPares[d], progenitores))
    && (forall d :: d in r.semanasImpares ==> ProgenitorDeclarado(r.semanasImpares[d], progenitores))
  }

  /** Every weekday the activity lists has a schedule entry. */
  predicate HorariosDe(a: Actividad) {
    forall d :: d in a.diasSemana ==> d in a.horarios
  }

  /** Every schedule entry of the activity is a valid span that starts before it ends. */
  predicate HorasDe(a: Actividad) {
    forall d :: d in a.horarios ==>
      HoraValida(a.horarios[d].inicio) && HoraValida(a.horarios[d].fin)
      && ConvertirHoraAMinutos(a.horarios[d].inicio) < ConvertirHoraAMinutos(a.horarios[d].fin)
  }

  predicate HorariosCompletos(actividades: seq<Actividad>) {
    forall i :: 0 <= i < |actividades| ==> HorariosDe(actividades[i])
  }

  predicate HorasOrdenadas(actividades: seq<Actividad>) {
    forall i :: 0 <= i < |actividades| ==> HorasDe(actividades[i])
  }

  predicate NinosDeclarados(actividades: seq<Actividad>, ninos: seq<Nino>) {
    forall i :: 0 <= i < |actividades| ==> NinoDeclarado(actividades[i].ninoId, ninos)
  }

  predicate TiposDeclarados(actividades: seq<Actividad>, tipos: seq<TipoActividad>) {
    forall i :: 0 <= i < |actividades| ==> TipoDeclarado(actividades[i].tipo, tipos)
  }

  predicate IdsUnicos(actividades: seq<Actividad>) {
    forall i, j :: 0 <= i < j < |actividades| ==> actividades[i].id != actividades[j].id
  }

  predicate BienFormada(datos: CalendarData) {
    && TablaCompleta(datos.regimenTenencia)
    && TenenciaDeclarada(datos.regimenTenencia, datos.progenitores)
    && HorariosCompletos(datos.actividades)
    && HorasOrdenadas(datos.actividades)
    && NinosDeclarados(datos.actividades, datos.ninos)
    && TiposDeclarados(datos.actividades, datos.tiposActividad)
    && IdsUnicos(datos.actividades)
  }

  // ---------------------------------------------------------------------------
  // The reference configuration

  function Sin(inicio: Hora, fin: Hora): Horario {
    Horario(inicio, fin, None)
  }

  /** The reference children, parents, rotation and activity types. */
  const ninosReferencia: seq<Nino> :=
    [ Nino("clara", "Clara", "#FFD6E0"),
      Nino("vico", "Vico", "#D6E5FF") ]

  const progenitoresReferencia: seq<Progenitor> :=
    [ Progenitor("mama", "Mamá", "#E6D6FF"),
      Progenitor("papa", "Papá", "#D6FFE6") ]

  const semanasParesReferencia: map<string, string> :=
    map[ "domingo" := "mama", "lunes" := "papa", "martes" := "mama", "miercoles" := "mama",
         "jueves" := "mama", "viernes" := "papa", "sabado" := "papa" ]

  const semanasImparesReferencia: map<string, string> :=
    map[ "domingo" := "papa", "lunes" := "mama", "martes" := "mama", "miercoles" := "mama",
         "jueves" := "papa", "viernes" := "mama", "sabado" := "mama" ]

  const regimenReferencia: RegimenTenencia :=
    RegimenTenencia(semanasParesReferencia, semanasImparesReferencia)

  const tiposReferencia: seq<TipoActividad> :=
    [ TipoActividad("colegio", "Colegio"),
      TipoActividad("deporte", "Deporte"),
      TipoActividad("danza", "Danza"),
      TipoActividad("idioma", "Idioma") ]

  /** The seven reference activities, in configuration order. */
  const coleVico: Actividad :=
    Actividad("cole-vico", "Cole Vico", "vico", "colegio",
      ["lunes", "martes", "miercoles", "jueves", "viernes"],
      map[ "lunes" := Sin(Hora(8, 0), Hora(12, 0)),
           "martes" := Sin(Hora(8, 0), Hora(12, 0)),
           "miercoles" := Sin(Hora(8, 0), Hora(12, 40)),
           "jueves" := Sin(Hora(8, 0), Hora(12, 0)),
           "viernes" := Sin(Hora(8, 0), Hora(12, 0)) ])

  const coleClara: Actividad :=
    Actividad("cole-clara", "Cole Clara", "clara", "colegio",
      ["lunes", "martes", "miercoles", "jueves", "viernes"],
      map[ "lunes" := Sin(Hora(14, 0), Hora(18, 35)),
           "martes" := Sin(Hora(14, 0), Hora(19, 15)),
           "miercoles" := Sin(Hora(14, 0), Hora(19, 15)),
           "jueves" := Sin(Hora(14, 0), Hora(19, 15)),
           "viernes" := Sin(Hora(14, 0), Hora(19, 15)) ])

  const inglesVico: Actividad :=
    Actividad("ingles-vico", "Inglés Vico", "vico", "idioma",
      ["lunes"],
      map[ "lunes" := Sin(Hora(16, 0), Hora(18, 0)) ])

  const inglesClara: Actividad :=
    Actividad("ingles-clara", "Inglés Clara", "clara", "idioma",
      ["jueves"],
      map[ "jueves" := Horario(Hora(9, 0), Hora(11, 0), Some("Ari/Clari")) ])

  const futbolVico: Actividad :=
    Actividad("futbol-vico", "Fútbol Vico", "vico", "deporte",
      ["lunes", "miercoles"],
      map[ "lunes" := Sin(Hora(18, 30), Hora(20, 0)),
           "miercoles" := Sin(Hora(18, 30), Hora(20, 0)) ])

  const baileClara: Actividad :=
    Actividad("baile-clara", "Baile Clara", "clara", "danza",
      ["lunes", "viernes"],
      map[ "lunes" := Sin(Hora(18, 30), Hora(19, 30)),
           "viernes" := Sin(Hora(19, 30), Hora(20, 30)) ])

  const edFisicaClara: Actividad :=
    Actividad("ed-fisica-clara", "Ed. Física Clara", "clara", "deporte",
      ["lunes", "jueves"],
      map[ "lunes" := Sin(Hora(12, 0), Hora(13, 0)),
           "jueves" := Sin(Hora(12, 0), Hora(13, 0)) ])

  const actividadesReferencia: seq<Actividad> :=
    [coleVico, coleClara, inglesVico, inglesClara, futbolVico, baileClara, edFisicaClara]

  /** The configuration the application ships with. */
  const calendarData: CalendarData :=
    CalendarData(ninosReferencia, progenitoresReferencia, regimenReferencia,
                 actividadesReferencia, tiposReferencia)

  /** An activity of the reference configuration is complete, well timed and declared. */
  predicate ActividadDeReferencia(a: Actividad) {
    HorariosDe(a) && HorasDe(a) && NinoDeclarado(a.ninoId, ninosReferencia)
    && TipoDeclarado(a.tipo, tiposReferencia)
  }

  lemma ReferenciaColeVico()
    ensures ActividadDeReferencia(coleVico)
  {
    assert NinoDeclarado("vico", ninosReferencia) by { assert ninosReferencia[1].id == "vico"; }
    assert TipoDeclarado("colegio", tiposReferencia) by { assert tiposReferencia[0].id == "colegio"; }
  }

  lemma ReferenciaColeClara()
    ensures ActividadDeReferencia(coleClara)
  {
    assert NinoDeclarado("clara", ninosReferencia) by { assert ninosReferencia[0].id == "clara"; }
    assert TipoDeclarado("colegio", tiposReferencia) by { assert tiposReferencia[0].id == "colegio"; }
  }

  lemma ReferenciaIdiomas()
    ensures ActividadDeReferencia(inglesVico) && ActividadDeReferencia(inglesClara)
  {
    assert NinoDeclarado("vico", ninosReferencia) by { assert ninosReferencia[1].id == "vico"; }
    assert NinoDeclarado("clara", ninosReferencia) by { assert ninosReferencia[0].id == "clara"; }
    assert TipoDeclarado("idioma", tiposReferencia) by { assert tiposReferencia[3].id == "idioma"; }
  }

  lemma ReferenciaFutbol()
    ensures ActividadDeReferencia(futbolVico)
  {
    assert NinoDeclarado("vico", ninosReferencia) by { assert ninosReferencia[1].id == "vico"; }
    assert TipoDeclarado("deporte", tiposReferencia) by { assert tiposReferencia[1].id == "deporte"; }
  }

  lemma ReferenciaBaile()
    ensures ActividadDeReferencia(baileClara)
  {
    assert NinoDeclarado("clara", ninosReferencia) by { assert ninosReferencia[0].id == "clara"; }
    assert TipoDeclarado("danza", tiposReferencia) by { assert tiposReferencia[2].id == "danza"; }
  }

  lemma ReferenciaEdFisica()
    ensures ActividadDeReferencia(edFisicaClara)
  {
    assert NinoDeclarado("clara", ninosReferencia) by { assert ninosReferencia[0].id == "clara"; }
    assert TipoDeclarado("deporte", tiposReferencia) by { assert tiposReferencia[1].id == "deporte"; }
  }

  lemma ReferenciaTablaCompleta()
    ensures TablaCompleta(calendarData.regimenTenencia)
  {
  }

  /** Both reference parents are declared. */
  lemma MamaYPapa()
    ensures ProgenitorDeclarado("mama", progenitoresReferencia)
    ensures ProgenitorDeclarado("papa", progenitoresReferencia)
  {
    assert progenitoresReferencia[0].id == "mama";
    assert progenitoresReferencia[1].id == "papa";
  }

  lemma ParesDeclarados()
    ensures forall d :: d in semanasParesReferencia ==> ProgenitorDeclarado(semanasParesReferencia[d], progenitoresReferencia)
  {
    MamaYPapa();
    forall d | d in semanasParesReferencia ensures semanasParesReferencia[d] in {"mama", "papa"} { }
  }

  lemma ImparesDeclarados()
    ensures forall d :: d in semanasImparesReferencia ==> ProgenitorDeclarado(semanasImparesReferencia[d], progenitoresReferencia)
  {
    MamaYPapa();
    forall d | d in semanasImparesReferencia ensures semanasImparesReferencia[d] in {"mama", "papa"} { }
  }

  lemma ReferenciaTenenciaDeclarada()
    ensures TenenciaDeclarada(calendarData.regimenTenencia, calendarData.progenitores)
  {
    ParesDeclarados();
    ImparesDeclarados();
  }

  /** Every reference activity has complete, well-timed schedules for declared children and types. */
  lemma ReferenciaActividades()
    ensures HorariosCompletos(calendarData.actividades)
    ensures HorasOrdenadas(calendarData.actividades)
    ensures NinosDeclarados(calendarData.actividades, calendarData.ninos)
    ensures TiposDeclarados(calendarData.actividades, calendarData.tiposActividad)
  {
    ReferenciaColeVico();
    ReferenciaColeClara();
    ReferenciaIdiomas();
    ReferenciaFutbol();
    ReferenciaBaile();
    ReferenciaEdFisica();
    var a := actividadesReferencia;
    forall i | 0 <= i < |a|
      ensures ActividadDeReferencia(a[i])
    {
    }
  }

  lemma ReferenciaIdsUnicos()
    ensures IdsUnicos(calendarData.actividades)
  {
  }

  /** The reference configuration satisfies every integrity rule. */
  lemma ReferenciaBienFormada()
    ensures BienFormada(calendarData)
  {
    ReferenciaTablaCompleta();
    ReferenciaTenenciaDeclarada();
    ReferenciaActividades();
    ReferenciaIdsUnicos();
  }
}
