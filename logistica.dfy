/**
 * The daily logistics planner (`determinarLogisticaDiaria`): who takes each
 * child to each of the day's activities and who collects them.
 */
module Logistica {
  import opened Wrappers
  import opened Horas
  import opened Fechas
  import opened CalendarData
  import opened Custodia
  import opened Arreglos

  datatype TipoLogistica = Llevar | Recoger

  /** One drop-off ("llevar") or pick-up ("recoger") obligation. */
  datatype EventoLogistica = EventoLogistica(
    ninoId: string,
    actividadId: string,
    tipo: TipoLogistica,
    hora: Hora,
    progenitor: Option<string>,
    actividad: string)

  /** What the planner records of an activity selected for the day. */
  datatype Ocurrencia = Ocurrencia(id: string, titulo: string, inicio: Hora, fin: Hora, tipo: string)

  function MinutosInicio(o: Ocurrencia): int {
    ConvertirHoraAMinutos(o.inicio)
  }

  function MinutosEvento(e: EventoLogistica): int {
    ConvertirHoraAMinutos(e.hora)
  }

  // ---------------------------------------------------------------------------
  // Selection and grouping

  /** The activity recurs on this weekday and has a schedule entry for it. */
  predicate Contribuye(a: Actividad, dia: string) {
    dia in a.diasSemana && dia in a.horarios
  }

  function OcurrenciaDe(a: Actividad, dia: string): Ocurrencia
    requires dia in a.horarios
  {
    Ocurrencia(a.id, a.titulo, a.horarios[dia].inicio, a.horarios[dia].fin, a.tipo)
  }

  /** The occurrences of child `c`'s activities on weekday `dia`, in configuration order. */
  function Grupo(actividades: seq<Actividad>, dia: string, c: string): (g: seq<Ocurrencia>)
    ensures |g| <= |actividades|
  {
    if actividades == [] then []
    else
      var a := actividades[|actividades| - 1];
      Grupo(actividades[..|actividades| - 1], dia, c)
        + (if a.ninoId == c && Contribuye(a, dia) then [OcurrenciaDe(a, dia)] else [])
  }

  predicate Distintos(s: seq<string>) {
    forall i, j :: 0 <= i < j < |s| ==> s[i] != s[j]
  }

  /**
   * The children with at least one activity on weekday `dia`, each once, in
   * the order of their first such activity (the key order of the planner's
   * per-child dictionary).
   */
  function Ninos(actividades: seq<Actividad>, dia: string): seq<string> {
    if actividades == [] then []
    else
      var ini, a := actividades[..|actividades| - 1], actividades[|actividades| - 1];
      var previos := Ninos(ini, dia);
      if Contribuye(a, dia) && a.ninoId !in previos then previos + [a.ninoId] else previos
  }

  /** Each child is listed once, and exactly the children with some occurrence that day are. */
  lemma {:induction false} NinosDistintos(actividades: seq<Actividad>, dia: string)
    ensures Distintos(Ninos(actividades, dia))
    ensures forall c :: c in Ninos(actividades, dia) <==> Grupo(actividades, dia, c) != []
  {
    if actividades != [] {
      var ini, a := actividades[..|actividades| - 1], actividades[|actividades| - 1];
      NinosDistintos(ini, dia);
    }
  }

  /** The sorted group: child `c`'s occurrences by start time, ties in configuration order. */
  function GrupoOrdenado(actividades: seq<Actividad>, dia: string, c: string): seq<Ocurrencia> {
    Ordenar(Grupo(actividades, dia, c), MinutosInicio)
  }

  // ---------------------------------------------------------------------------
  // Attribution

  function Llevada(c: string, o: Ocurrencia, p: Option<string>): EventoLogistica {
    EventoLogistica(c, o.id, Llevar, o.inicio, p, o.titulo)
  }

  function Recogida(c: string, o: Ocurrencia, p: Option<string>): EventoLogistica {
    EventoLogistica(c, o.id, Recoger, o.fin, p, o.titulo)
  }

  /** Both obligations of every occurrence after the first, all for today's parent. */
  function EventosSiguientes(c: string, resto: seq<Ocurrencia>, hoy: Option<string>): seq<EventoLogistica> {
    if resto == [] then []
    else
      var o := resto[|resto| - 1];
      EventosSiguientes(c, resto[..|resto| - 1], hoy) + [Llevada(c, o, hoy), Recogida(c, o, hoy)]
  }

  /** A child's obligations: the first drop-off for yesterday's parent, the rest for today's. */
  function EventosNino(c: string, g: seq<Ocurrencia>, ayer: Option<string>, hoy: Option<string>): seq<EventoLogistica> {
    if g == [] then []
    else [Llevada(c, g[0], ayer), Recogida(c, g[0], hoy)] + EventosSiguientes(c, g[1..], hoy)
  }

  /** The obligations of the children in `ninos`, child after child, before the final sort. */
  function SinOrdenar(actividades: seq<Actividad>, dia: string, ninos: seq<string>,
                      ayer: Option<string>, hoy: Option<string>): seq<EventoLogistica>
  {
    if ninos == [] then []
    else
      var c := ninos[|ninos| - 1];
      SinOrdenar(actividades, dia, ninos[..|ninos| - 1], ayer, hoy)
        + EventosNino(c, GrupoOrdenado(actividades, dia, c), ayer, hoy)
  }

  /** Today's custodian. */
  function Hoy(f: Fecha, regimen: RegimenTenencia): Option<string> {
    DeterminarProgenitorDelDia(f, regimen)
  }

  /** Yesterday's custodian: a full resolution of the previous calendar day. */
  function Ayer(f: Fecha, regimen: RegimenTenencia): (p: Option<string>)
    ensures TablaCompleta(regimen) ==> p.Some? && p.value in regimen.semanasPares.Values + regimen.semanasImpares.Values
  {
    DeterminarProgenitorDelDia(Anterior(f), regimen)
  }

  /** Tomorrow's "yesterday" is today's custodian. */
  lemma AyerDeManana(f: Fecha, regimen: RegimenTenencia)
    ensures Ayer(Siguiente(f), regimen) == Hoy(f, regimen)
  {
    SiguienteAnterior(f);
  }

  /** All obligations of the day for date `f`, child after child, before the final sort. */
  function ObligacionesDelDia(f: Fecha, regimen: RegimenTenencia, actividades: seq<Actividad>): seq<EventoLogistica> {
    var dia := NombreDia(f);
    SinOrdenar(actividades, dia, Ninos(actividades, dia), Ayer(f, regimen), Hoy(f, regimen))
  }

  /** The planner's result for date `f`: all obligations of the day, by time. */
  function LogisticaDiaria(f: Fecha, regimen: RegimenTenencia, actividades: seq<Actividad>): seq<EventoLogistica> {
    Ordenar(ObligacionesDelDia(f, regimen, actividades), MinutosEvento)
  }

  // ---------------------------------------------------------------------------
  // Properties of the planner's result

  /** An activity counts for a day exactly when it lists the weekday and has a schedule for it. */
  lemma {:induction false} GrupoSelecciona(actividades: seq<Actividad>, dia: string, c: string, o: Ocurrencia)
    ensures o in Grupo(actividades, dia, c)
            <==> exists i :: 0 <= i < |actividades| && actividades[i].ninoId == c
                             && Contribuye(actividades[i], dia) && o == OcurrenciaDe(actividades[i], dia)
  {
    if actividades != [] {
      var n := |actividades|;
      var ini := actividades[..n - 1];
      GrupoSelecciona(ini, dia, c, o);
      assert forall i :: 0 <= i < n - 1 ==> ini[i] == actividades[i];
    }
  }

  /** With complete schedules, only the weekday list decides whether an activity counts. */
  lemma ContribuyeConHorarios(a: Actividad, dia: string)
    requires HorariosDe(a)
    ensures Contribuye(a, dia) <==> dia in a.diasSemana
  {
  }

  lemma {:induction false} EventosSiguientesIndices(c: string, resto: seq<Ocurrencia>, hoy: Option<string>)
    ensures |EventosSiguientes(c, resto, hoy)| == 2 * |resto|
    ensures forall i :: 0 <= i < |resto| ==>
              EventosSiguientes(c, resto, hoy)[2 * i] == Llevada(c, resto[i], hoy)
    ensures forall i :: 0 <= i < |resto| ==>
              EventosSiguientes(c, resto, hoy)[2 * i + 1] == Recogida(c, resto[i], hoy)
  {
    if resto != [] {
      EventosSiguientesIndices(c, resto[..|resto| - 1], hoy);
    }
  }

  /**
   * A child with N activities gets 2N obligations: for the i-th activity by
   * start time a drop-off at its start and a pick-up at its end. The first
   * drop-off goes to yesterday's parent, every other obligation to today's.
   */
  lemma EventosNinoIndices(c: string, g: seq<Ocurrencia>, ayer: Option<string>, hoy: Option<string>)
    ensures |EventosNino(c, g, ayer, hoy)| == 2 * |g|
    ensures forall i :: 0 <= i < |g| ==>
              EventosNino(c, g, ayer, hoy)[2 * i] == Llevada(c, g[i], if i == 0 then ayer else hoy)
    ensures forall i :: 0 <= i < |g| ==>
              EventosNino(c, g, ayer, hoy)[2 * i + 1] == Recogida(c, g[i], hoy)
  {
    if g != [] {
      var e := EventosNino(c, g, ayer, hoy);
      EventosSiguientesIndices(c, g[1..], hoy);
      forall i | 0 < i < |g|
        ensures e[2 * i] == Llevada(c, g[i], hoy) && e[2 * i + 1] == Recogida(c, g[i], hoy)
      {
        assert e[2 * i] == EventosSiguientes(c, g[1..], hoy)[2 * (i - 1)];
        assert e[2 * i + 1] == EventosSiguientes(c, g[1..], hoy)[2 * (i - 1) + 1];
      }
    }
  }

  /** The obligations of child `c`. */
  function DelNino(c: string): EventoLogistica -> bool {
    (e: EventoLogistica) => e.ninoId == c
  }

  lemma {:induction false} FiltrarEventosNino(k: string, g: seq<Ocurrencia>, ayer: Option<string>, hoy: Option<string>, c: string)
    ensures Filtrar(EventosNino(k, g, ayer, hoy), DelNino(c)) == if k == c then EventosNino(k, g, ayer, hoy) else []
  {
    var e := EventosNino(k, g, ayer, hoy);
    if g != [] {
      SiguientesDelNino(k, g[1..], hoy);
      assert e == [Llevada(k, g[0], ayer), Recogida(k, g[0], hoy)] + EventosSiguientes(k, g[1..], hoy);
    }
    TodosONinguno(e, k, c);
  }

  /** Every obligation after the first occurrence's belongs to the child. */
  lemma {:induction false} SiguientesDelNino(c: string, resto: seq<Ocurrencia>, hoy: Option<string>)
    ensures forall i :: 0 <= i < |EventosSiguientes(c, resto, hoy)| ==> EventosSiguientes(c, resto, hoy)[i].ninoId == c
  {
    if resto != [] {
      var o := resto[|resto| - 1];
      var previos := EventosSiguientes(c, resto[..|resto| - 1], hoy);
      SiguientesDelNino(c, resto[..|resto| - 1], hoy);
      assert EventosSiguientes(c, resto, hoy) == previos + [Llevada(c, o, hoy), Recogida(c, o, hoy)];
    }
  }

  lemma {:induction false} TodosONinguno(e: seq<EventoLogistica>, k: string, c: string)
    requires forall i :: 0 <= i < |e| ==> e[i].ninoId == k
    ensures Filtrar(e, DelNino(c)) == if k == c then e else []
  {
    if e != [] {
      TodosONinguno(e[1..], k, c);
      assert e == [e[0]] + e[1..];
    }
  }

  /** Listing each child once, the obligations of `c` are exactly its own block. */
  lemma {:induction false} FiltrarSinOrdenar(actividades: seq<Actividad>, dia: string, ninos: seq<string>,
                                             ayer: Option<string>, hoy: Option<string>, c: string)
    requires Distintos(ninos)
    ensures Filtrar(SinOrdenar(actividades, dia, ninos, ayer, hoy), DelNino(c))
            == if c in ninos then EventosNino(c, GrupoOrdenado(actividades, dia, c), ayer, hoy) else []
  {
    if ninos != [] {
      var ini, k := ninos[..|ninos| - 1], ninos[|ninos| - 1];
      assert ninos == ini + [k];
      assert c in ninos <==> c in ini || c == k;
      assert k !in ini;
      FiltrarSinOrdenar(actividades, dia, ini, ayer, hoy, c);
      FiltrarConcatenar(SinOrdenar(actividades, dia, ini, ayer, hoy),
                        EventosNino(k, GrupoOrdenado(actividades, dia, k), ayer, hoy), DelNino(c));
      FiltrarEventosNino(k, GrupoOrdenado(actividades, dia, k), ayer, hoy, c);
    }
  }

  /** The day's obligations of child `c` are its own block, with 2N entries for its N activities. */
  lemma ObligacionesDelNino(f: Fecha, regimen: RegimenTenencia, actividades: seq<Actividad>, c: string)
    ensures Filtrar(ObligacionesDelDia(f, regimen, actividades), DelNino(c))
            == EventosNino(c, GrupoOrdenado(actividades, NombreDia(f), c), Ayer(f, regimen), Hoy(f, regimen))
    ensures |Filtrar(ObligacionesDelDia(f, regimen, actividades), DelNino(c))|
            == 2 * |Grupo(actividades, NombreDia(f), c)|
  {
    var dia := NombreDia(f);
    NinosDistintos(actividades, dia);
    FiltrarSinOrdenar(actividades, dia, Ninos(actividades, dia), Ayer(f, regimen), Hoy(f, regimen), c);
    EventosNinoIndices(c, GrupoOrdenado(actividades, dia, c), Ayer(f, regimen), Hoy(f, regimen));
  }

  /**
   * The planner's result is ordered by time, is a permutation of the day's
   * obligations, and keeps their order among obligations at the same minute.
   */
  lemma LogisticaOrdenada(f: Fecha, regimen: RegimenTenencia, actividades: seq<Actividad>, minuto: int)
    ensures Ordenada(LogisticaDiaria(f, regimen, actividades), MinutosEvento)
    ensures multiset(LogisticaDiaria(f, regimen, actividades)) == multiset(ObligacionesDelDia(f, regimen, actividades))
    ensures Filtrar(LogisticaDiaria(f, regimen, actividades), ConClave(MinutosEvento, minuto))
            == Filtrar(ObligacionesDelDia(f, regimen, actividades), ConClave(MinutosEvento, minuto))
  {
    var todas := ObligacionesDelDia(f, regimen, actividades);
    OrdenarOrdena(todas, MinutosEvento);
    OrdenarPermuta(todas, MinutosEvento);
    OrdenarEstable(todas, MinutosEvento, minuto);
  }

  /** A child with N activities on the day has exactly 2N obligations in the planner's result. */
  lemma LogisticaCuentaPorNino(f: Fecha, regimen: RegimenTenencia, actividades: seq<Actividad>, c: string)
    ensures multiset(Filtrar(LogisticaDiaria(f, regimen, actividades), DelNino(c)))
            == multiset(EventosNino(c, GrupoOrdenado(actividades, NombreDia(f), c), Ayer(f, regimen), Hoy(f, regimen)))
    ensures |Filtrar(LogisticaDiaria(f, regimen, actividades), DelNino(c))|
            == 2 * |Grupo(actividades, NombreDia(f), c)|
  {
    ObligacionesDelNino(f, regimen, actividades, c);
    FiltrarOrdenar(ObligacionesDelDia(f, regimen, actividades), MinutosEvento, DelNino(c));
  }

  lemma EnResultado(f: Fecha, regimen: RegimenTenencia, actividades: seq<Actividad>, e: EventoLogistica)
    ensures e in LogisticaDiaria(f, regimen, actividades)
            <==> e in EventosNino(e.ninoId, GrupoOrdenado(actividades, NombreDia(f), e.ninoId), Ayer(f, regimen), Hoy(f, regimen))
  {
    var todas := ObligacionesDelDia(f, regimen, actividades);
    OrdenarPermuta(todas, MinutosEvento);
    assert e in LogisticaDiaria(f, regimen, actividades) <==> e in multiset(todas);
    ObligacionesDelNino(f, regimen, actividades, e.ninoId);
    FiltrarContiene(todas, DelNino(e.ninoId), e);
  }

  /**
   * Every activity of the day yields its drop-off and its pick-up: the
   * earliest activity's drop-off is yesterday's parent's, all else today's.
   */
  lemma LogisticaCubreActividades(f: Fecha, regimen: RegimenTenencia, actividades: seq<Actividad>, c: string, i: int)
    requires 0 <= i < |Grupo(actividades, NombreDia(f), c)|
    ensures var g := GrupoOrdenado(actividades, NombreDia(f), c);
            && Llevada(c, g[i], if i == 0 then Ayer(f, regimen) else Hoy(f, regimen)) in LogisticaDiaria(f, regimen, actividades)
            && Recogida(c, g[i], Hoy(f, regimen)) in LogisticaDiaria(f, regimen, actividades)
  {
    var g := GrupoOrdenado(actividades, NombreDia(f), c);
    EventosNinoIndices(c, g, Ayer(f, regimen), Hoy(f, regimen));
    var e := EventosNino(c, g, Ayer(f, regimen), Hoy(f, regimen));
    assert e[2 * i] in e && e[2 * i + 1] in e;
    EnResultado(f, regimen, actividades, Llevada(c, g[i], if i == 0 then Ayer(f, regimen) else Hoy(f, regimen)));
    EnResultado(f, regimen, actividades, Recogida(c, g[i], Hoy(f, regimen)));
  }

  /** Each obligation of a child's block is the drop-off or the pick-up of one of its occurrences. */
  lemma MiembroDeEventosNino(c: string, g: seq<Ocurrencia>, ayer: Option<string>, hoy: Option<string>, e: EventoLogistica)
    requires e in EventosNino(c, g, ayer, hoy)
    ensures exists i :: 0 <= i < |g|
              && (e == Llevada(c, g[i], if i == 0 then ayer else hoy) || e == Recogida(c, g[i], hoy))
  {
    var ev := EventosNino(c, g, ayer, hoy);
    EventosNinoIndices(c, g, ayer, hoy);
    var k :| 0 <= k < |ev| && ev[k] == e;
    var m := k / 2;
    assert 2 * m <= k < 2 * m + 2 && m < |g|;
    if k % 2 == 0 {
      assert ev[2 * m] == Llevada(c, g[m], if m == 0 then ayer else hoy);
    } else {
      assert ev[2 * m + 1] == Recogida(c, g[m], hoy);
    }
  }

  /**
   * Nothing else is in the result: each obligation is the drop-off or the
   * pick-up of one of its child's activities that day, and only the drop-off
   * at the child's earliest activity is attributed to yesterday's parent.
   */
  lemma LogisticaSoloActividades(f: Fecha, regimen: RegimenTenencia, actividades: seq<Actividad>, e: EventoLogistica)
    requires e in LogisticaDiaria(f, regimen, actividades)
    ensures var g := GrupoOrdenado(actividades, NombreDia(f), e.ninoId);
            exists i :: 0 <= i < |g|
              && (e == Llevada(e.ninoId, g[i], if i == 0 then Ayer(f, regimen) else Hoy(f, regimen))
                  || e == Recogida(e.ninoId, g[i], Hoy(f, regimen)))
  {
    EnResultado(f, regimen, actividades, e);
    MiembroDeEventosNino(e.ninoId, GrupoOrdenado(actividades, NombreDia(f), e.ninoId), Ayer(f, regimen), Hoy(f, regimen), e);
  }

  // ---------------------------------------------------------------------------
  // The planner as the source writes it, one phase per method

  /** The per-child dictionary and its key order after the first `i` activities. */
  ghost predicate Agrupado(actividades: seq<Actividad>, i: int, dia: string,
                     grupos: map<string, seq<Ocurrencia>>, ninos: seq<string>)
    requires 0 <= i <= |actividades|
  {
    && ninos == Ninos(actividades[..i], dia)
    && (forall c :: c in grupos <==> c in ninos)
    && (forall c :: c in grupos ==> grupos[c] == Grupo(actividades[..i], dia, c))
  }

  /** Child `x`'s group grows by the next activity exactly when it is `x`'s and counts today. */
  lemma GrupoUnaMas(actividades: seq<Actividad>, i: int, dia: string, x: string)
    requires 0 <= i < |actividades|
    ensures Grupo(actividades[..i + 1], dia, x)
            == Grupo(actividades[..i], dia, x)
               + (if actividades[i].ninoId == x && Contribuye(actividades[i], dia)
                  then [OcurrenciaDe(actividades[i], dia)] else [])
  {
    assert actividades[..i + 1][..i] == actividades[..i];
  }

  /** The child order grows by the next activity's child when it is new and counts today. */
  lemma NinosUnaMas(actividades: seq<Actividad>, i: int, dia: string)
    requires 0 <= i < |actividades|
    ensures var a, previos := actividades[i], Ninos(actividades[..i], dia);
            Ninos(actividades[..i + 1], dia)
            == if Contribuye(a, dia) && a.ninoId !in previos then previos + [a.ninoId] else previos
  {
    assert actividades[..i + 1][..i] == actividades[..i];
  }

  /** Appending `o` to key `c` of a dictionary that tracks `antes` makes it track `despues`. */
  lemma AnadirAlGrupo<V>(m: map<string, seq<V>>, antes: string -> seq<V>, despues: string -> seq<V>,
                         c: string, o: V)
    requires forall x :: x in m ==> m[x] == antes(x)
    requires forall x :: despues(x) == antes(x) + (if x == c then [o] else [])
    requires c !in m ==> antes(c) == []
    ensures var m' := m[c := (if c in m then m[c] else []) + [o]];
            forall x :: x in m' ==> m'[x] == despues(x)
  {
  }

  /** The child order after an activity that counts today: its child is added when new. */
  lemma NinosQueCuentan(actividades: seq<Actividad>, i: int, dia: string,
                        grupos: map<string, seq<Ocurrencia>>, ninos: seq<string>)
    requires 0 <= i < |actividades| && Contribuye(actividades[i], dia)
    requires ninos == Ninos(actividades[..i], dia)
    requires forall c :: c in grupos <==> c in ninos
    ensures var c := actividades[i].ninoId;
            (if c in grupos then ninos else ninos + [c]) == Ninos(actividades[..i + 1], dia)
  {
    NinosUnaMas(actividades, i, dia);
  }

  /** The groups after an activity that counts today: its occurrence ends its child's group. */
  lemma GruposQueCuentan(actividades: seq<Actividad>, i: int, dia: string,
                         grupos: map<string, seq<Ocurrencia>>, ninos: seq<string>)
    requires 0 <= i < |actividades| && Contribuye(actividades[i], dia)
    requires ninos == Ninos(actividades[..i], dia)
    requires forall c :: c in grupos <==> c in ninos
    requires forall c :: c in grupos ==> grupos[c] == Grupo(actividades[..i], dia, c)
    ensures var a := actividades[i];
            var c := a.ninoId;
            var grupos' := grupos[c := (if c in grupos then grupos[c] else []) + [OcurrenciaDe(a, dia)]];
            forall x :: x in grupos' ==> grupos'[x] == Grupo(actividades[..i + 1], dia, x)
  {
    var a := actividades[i];
    var c := a.ninoId;
    if c !in grupos {
      NinosDistintos(actividades[..i], dia);
    }
    var antes := x => Grupo(actividades[..i], dia, x);
    var despues := x => Grupo(actividades[..i + 1], dia, x);
    forall x ensures despues(x) == antes(x) + (if x == c then [OcurrenciaDe(a, dia)] else []) {
      GrupoUnaMas(actividades, i, dia, x);
    }
    AnadirAlGrupo(grupos, antes, despues, c, OcurrenciaDe(a, dia));
  }

  /** An activity that counts today opens its child's entry if needed and appends its occurrence. */
  lemma ActividadQueCuenta(actividades: seq<Actividad>, i: int, dia: string,
                           grupos: map<string, seq<Ocurrencia>>, ninos: seq<string>)
    requires 0 <= i < |actividades| && Contribuye(actividades[i], dia)
    requires Agrupado(actividades, i, dia, grupos, ninos)
    ensures var a := actividades[i];
            var c := a.ninoId;
            Agrupado(actividades, i + 1, dia,
                     grupos[c := (if c in grupos then grupos[c] else []) + [OcurrenciaDe(a, dia)]],
                     if c in grupos then ninos else ninos + [c])
  {
    NinosQueCuentan(actividades, i, dia, grupos, ninos);
    GruposQueCuentan(actividades, i, dia, grupos, ninos);
  }

  /** An activity that does not count today leaves the dictionary as it is. */
  lemma ActividadQueNoCuenta(actividades: seq<Actividad>, i: int, dia: string,
                             grupos: map<string, seq<Ocurrencia>>, ninos: seq<string>)
    requires 0 <= i < |actividades| && !Contribuye(actividades[i], dia)
    requires Agrupado(actividades, i, dia, grupos, ninos)
    ensures Agrupado(actividades, i + 1, dia, grupos, ninos)
  {
    NinosUnaMas(actividades, i, dia);
    forall x | x in grupos
      ensures grupos[x] == Grupo(actividades[..i + 1], dia, x)
    {
      GrupoUnaMas(actividades, i, dia, x);
    }
  }

  /** Fills the per-child dictionary with the day's occurrences (the first `forEach`). */
  method AgruparPorNino(actividades: seq<Actividad>, dia: string)
    returns (grupos: map<string, seq<Ocurrencia>>, ninos: seq<string>)
    ensures ninos == Ninos(actividades, dia)
    ensures forall c :: c in grupos <==> c in ninos
    ensures forall c :: c in grupos ==> grupos[c] == Grupo(actividades, dia, c)
  {
    grupos, ninos := map[], [];
    var i := 0;
    while i < |actividades|
      invariant 0 <= i <= |actividades|
      invariant Agrupado(actividades, i, dia, grupos, ninos)
    {
      var a := actividades[i];
      if dia in a.diasSemana && dia in a.horarios {
        ActividadQueCuenta(actividades, i, dia, grupos, ninos);
        if a.ninoId !in grupos {
          grupos := grupos[a.ninoId := []];
          ninos := ninos + [a.ninoId];
        }
        grupos := grupos[a.ninoId := grupos[a.ninoId] + [OcurrenciaDe(a, dia)]];
      } else {
        ActividadQueNoCuenta(actividades, i, dia, grupos, ninos);
      }
      i := i + 1;
    }
    assert actividades[..i] == actividades;
  }

  /**
   * The keys of `m` are the children of `ninos`; the first `j` of them hold
   * `despues`, the rest still `antes`.
   */
  ghost predicate Parcial<V>(m: map<string, V>, ninos: seq<string>, j: int,
                             antes: string -> V, despues: string -> V)
    requires 0 <= j <= |ninos|
  {
    && (forall c :: c in m <==> c in ninos)
    && (forall c :: c in m ==> m[c] == if c in ninos[..j] then despues(c) else antes(c))
  }

  /** Updating the next child's entry advances the boundary by one. */
  lemma ParcialPaso<V>(m: map<string, V>, ninos: seq<string>, j: int,
                       antes: string -> V, despues: string -> V)
    requires Distintos(ninos) && 0 <= j < |ninos|
    requires Parcial(m, ninos, j, antes, despues)
    ensures ninos[j] in m && m[ninos[j]] == antes(ninos[j])
    ensures Parcial(m[ninos[j] := despues(ninos[j])], ninos, j + 1, antes, despues)
  {
    var c := ninos[j];
    assert c !in ninos[..j];
    assert ninos[..j + 1] == ninos[..j] + [c];
  }

  /** Sorts every child's list by start time. */
  method OrdenarGrupos(actividades: seq<Actividad>, dia: string, grupos0: map<string, seq<Ocurrencia>>, ninos: seq<string>)
    returns (grupos: map<string, seq<Ocurrencia>>)
    requires Distintos(ninos)
    requires forall c :: c in grupos0 <==> c in ninos
    requires forall c :: c in grupos0 ==> grupos0[c] == Grupo(actividades, dia, c)
    ensures forall c :: c in grupos <==> c in ninos
    ensures forall c :: c in grupos ==> grupos[c] == GrupoOrdenado(actividades, dia, c)
  {
    ghost var antes := c => Grupo(actividades, dia, c);
    ghost var despues := c => GrupoOrdenado(actividades, dia, c);
    grupos := grupos0;
    assert ninos[..0] == [];
    var j := 0;
    while j < |ninos|
      invariant 0 <= j <= |ninos|
      invariant Parcial(grupos, ninos, j, antes, despues)
    {
      var c := ninos[j];
      ParcialPaso(grupos, ninos, j, antes, despues);
      grupos := grupos[c := Ordenar(grupos[c], MinutosInicio)];
      j := j + 1;
    }
    assert ninos[..j] == ninos;
  }

  /** One more occurrence after the first adds its drop-off and its pick-up, both for today's parent. */
  lemma SiguientesUnaMas(c: string, lista: seq<Ocurrencia>, k: int, hoy: Option<string>)
    requires 1 <= k < |lista|
    ensures EventosSiguientes(c, lista[1..k + 1], hoy)
            == EventosSiguientes(c, lista[1..k], hoy) + [Llevada(c, lista[k], hoy), Recogida(c, lista[k], hoy)]
  {
    assert lista[1..k + 1][..k - 1] == lista[1..k];
  }

  /** The inner `for` from index 1: both obligations of each later occurrence, for today's parent. */
  method EmitirSiguientes(previos: seq<EventoLogistica>, c: string, lista: seq<Ocurrencia>,
                          progenitorHoy: Option<string>)
    returns (eventosLogistica: seq<EventoLogistica>)
    requires |lista| > 0
    ensures eventosLogistica == previos + EventosSiguientes(c, lista[1..], progenitorHoy)
  {
    eventosLogistica := previos;
    assert lista[1..1] == [];
    var k := 1;
    while k < |lista|
      invariant 1 <= k <= |lista|
      invariant eventosLogistica == previos + EventosSiguientes(c, lista[1..k], progenitorHoy)
    {
      var actividad := lista[k];
      SiguientesUnaMas(c, lista, k, progenitorHoy);
      eventosLogistica := eventosLogistica + [EventoLogistica(c, actividad.id, Llevar, actividad.inicio, progenitorHoy, actividad.titulo)];
      eventosLogistica := eventosLogistica + [EventoLogistica(c, actividad.id, Recoger, actividad.fin, progenitorHoy, actividad.titulo)];
      k := k + 1;
    }
    assert lista[1..k] == lista[1..];
  }

  /** Appends one child's obligations: its first drop-off for yesterday's parent, the rest for today's. */
  method EmitirNino(previos: seq<EventoLogistica>, c: string, lista: seq<Ocurrencia>,
                    progenitorAyer: Option<string>, progenitorHoy: Option<string>)
    returns (eventosLogistica: seq<EventoLogistica>)
    ensures eventosLogistica == previos + EventosNino(c, lista, progenitorAyer, progenitorHoy)
  {
    eventosLogistica := previos;
    if |lista| > 0 {
      var primera := lista[0];
      eventosLogistica := eventosLogistica + [EventoLogistica(c, primera.id, Llevar, primera.inicio, progenitorAyer, primera.titulo)];
      eventosLogistica := eventosLogistica + [EventoLogistica(c, primera.id, Recoger, primera.fin, progenitorHoy, primera.titulo)];
      ghost var cabeza := eventosLogistica;
      eventosLogistica := EmitirSiguientes(eventosLogistica, c, lista, progenitorHoy);
      assert cabeza == previos + [Llevada(c, primera, progenitorAyer), Recogida(c, primera, progenitorHoy)];
    }
  }

  lemma {:induction false} UnNinoMas(actividades: seq<Actividad>, dia: string, ninos: seq<string>, j: int,
                                     ayer: Option<string>, hoy: Option<string>)
    requires 0 <= j < |ninos|
    ensures SinOrdenar(actividades, dia, ninos[..j + 1], ayer, hoy)
            == SinOrdenar(actividades, dia, ninos[..j], ayer, hoy)
               + EventosNino(ninos[j], GrupoOrdenado(actividades, dia, ninos[j]), ayer, hoy)
  {
    assert ninos[..j + 1][..j] == ninos[..j];
  }

  /** Emits, child after child in dictionary order, the obligations of its sorted list. */
  method EmitirObligaciones(actividades: seq<Actividad>, dia: string, grupos: map<string, seq<Ocurrencia>>,
                            ninos: seq<string>, progenitorAyer: Option<string>, progenitorHoy: Option<string>)
    returns (eventosLogistica: seq<EventoLogistica>)
    requires forall c :: c in ninos ==> c in grupos && grupos[c] == GrupoOrdenado(actividades, dia, c)
    ensures eventosLogistica == SinOrdenar(actividades, dia, ninos, progenitorAyer, progenitorHoy)
  {
    eventosLogistica := [];
    var j := 0;
    while j < |ninos|
      invariant 0 <= j <= |ninos|
      invariant eventosLogistica == SinOrdenar(actividades, dia, ninos[..j], progenitorAyer, progenitorHoy)
    {
      var c := ninos[j];
      UnNinoMas(actividades, dia, ninos, j, progenitorAyer, progenitorHoy);
      assert c in ninos;
      eventosLogistica := EmitirNino(eventosLogistica, c, grupos[c], progenitorAyer, progenitorHoy);
      j := j + 1;
    }
    assert ninos[..j] == ninos;
  }

  /** `determinarLogisticaDiaria`: computes exactly LogisticaDiaria. */
  method DeterminarLogisticaDiaria(fecha: Fecha, regimen: RegimenTenencia, actividades: seq<Actividad>)
    returns (eventos: seq<EventoLogistica>)
    ensures eventos == LogisticaDiaria(fecha, regimen, actividades)
  {
    var dia := NombreDia(fecha);
    var esPar := EsSemanaParImpar(fecha) == Par;
    var tablaHoy := if esPar then regimen.semanasPares else regimen.semanasImpares;
    var progenitorHoy := if dia in tablaHoy then Some(tablaHoy[dia]) else None;

    var fechaAnterior := Anterior(fecha);
    var diaAnterior := NombreDia(fechaAnterior);
    var esParAnterior := EsSemanaParImpar(fechaAnterior) == Par;
    var tablaAyer := if esParAnterior then regimen.semanasPares else regimen.semanasImpares;
    var progenitorAyer := if diaAnterior in tablaAyer then Some(tablaAyer[diaAnterior]) else None;

    assert progenitorHoy == Hoy(fecha, regimen) && progenitorAyer == Ayer(fecha, regimen);
    var grupos, ninos := AgruparPorNino(actividades, dia);
    NinosDistintos(actividades, dia);
    grupos := OrdenarGrupos(actividades, dia, grupos, ninos);
    var eventosLogistica := EmitirObligaciones(actividades, dia, grupos, ninos, progenitorAyer, progenitorHoy);
    eventos := Ordenar(eventosLogistica, MinutosEvento);
  }
}
