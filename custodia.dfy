/**
 * Week parity and custody resolution (`esSemanaParImpar`,
 * `determinarProgenitorDelDia`) and the parent lookups by id
 * (`encontrarNombreProgenitor`, `encontrarColorProgenitor`).
 */
module Custodia {
  import opened Wrappers
  import opened Fechas
  import opened CalendarData
  import opened Arreglos

  datatype Paridad = Par | Impar

  /** The weekday name of a date, as the key of the tenancy tables. */
  function NombreDia(f: Fecha): (d: string)
    ensures d in DIAS_SEMANA
  {
    DIAS_SEMANA[DiaSemana(f)]
  }

  /**
   * The year `new Date(anio, 0, 1)` builds: JavaScript reads a year argument
   * between 0 and 99 as 1900 to 1999.
   */
  function AnioDelPrimerDia(anio: int): int {
    if 0 <= anio <= 99 then anio + 1900 else anio
  }

  /** `dias`: the whole days from that 1 January to `f`. */
  function DiasDesdeEnero(f: Fecha): int {
    Ordinal(f) - DiasAntesDe(AnioDelPrimerDia(f.anio))
  }

  /** For years outside 0..99 the count is the day of the year. */
  lemma DiasDelAnioPropio(f: Fecha)
    requires f.anio < 0 || 99 < f.anio
    ensures DiasDesdeEnero(f) == f.dia
  {
  }

  /** For years 0..99 the count is negative: 1 January is taken 1900 years later. */
  lemma DiasDeDosCifras(f: Fecha)
    requires 0 <= f.anio <= 99
    ensures DiasDesdeEnero(f) < 0
  {
    AniosOrdenados(f.anio, f.anio + 1900);
  }

  /**
   * The engine's week number: the date's own weekday index plus one plus
   * `dias`, divided by 7 and rounded up (`Math.ceil`, also for a negative
   * sum). It is not the ISO 8601 week number.
   */
  function NumeroSemana(f: Fecha): (k: int)
    ensures 7 * (k - 1) < DiaSemana(f) + 1 + DiasDesdeEnero(f) <= 7 * k
  {
    (DiaSemana(f) + 1 + DiasDesdeEnero(f) + 6) / 7
  }

  /**
   * `numeroSemana % 2 === 0`: JavaScript's remainder of a negative odd number
   * is -1 and of a negative even one -0, so the test is "k is even" for every k.
   */
  function EsSemanaParImpar(f: Fecha): (p: Paridad)
    ensures p == Par <==> NumeroSemana(f) % 2 == 0
  {
    if NumeroSemana(f) % 2 == 0 then Par else Impar
  }

  /** The week number lies one or two above the count of whole weeks since 1 January. */
  lemma NumeroSemanaAcotado(f: Fecha)
    ensures DiasDesdeEnero(f) / 7 + 1 <= NumeroSemana(f) <= DiasDesdeEnero(f) / 7 + 2
  {
    var d := DiasDesdeEnero(f);
    assert d == 7 * (d / 7) + d % 7;
  }

  lemma MasSiete(x: int)
    ensures (x + 7) % 7 == x % 7
    ensures (x + 7 + 6) / 7 == (x + 6) / 7 + 1
  {
  }

  /** Seven days later in the same year, the week number is one higher and the parity flips. */
  lemma SemanaSiguiente(f: Fecha, g: Fecha)
    requires g.anio == f.anio && g.dia == f.dia + 7
    ensures DiaSemana(g) == DiaSemana(f)
    ensures NumeroSemana(g) == NumeroSemana(f) + 1
    ensures EsSemanaParImpar(g) != EsSemanaParImpar(f)
  {
    SieteDias(f, g);
    var x := DiaSemana(f) + 1 + DiasDesdeEnero(f);
    var k, j := NumeroSemana(f), NumeroSemana(g);
    TechoSiete(x, k, j);
    ParidadAlterna(k);
  }

  /** Consecutive integers have different parities. */
  lemma ParidadAlterna(k: int)
    ensures ((k + 1) % 2 == 0) != (k % 2 == 0)
  {
  }

  /** Both k and j are ceilings of sevenths, of x and of x + 7: so j is k + 1. */
  lemma TechoSiete(x: int, k: int, j: int)
    requires 7 * (k - 1) < x <= 7 * k
    requires 7 * (j - 1) < x + 7 <= 7 * j
    ensures j == k + 1
  {
  }

  /** Seven days later in the same year: the same weekday, and seven more days since 1 January. */
  lemma SieteDias(f: Fecha, g: Fecha)
    requires g.anio == f.anio && g.dia == f.dia + 7
    ensures DiaSemana(g) == DiaSemana(f)
    ensures DiasDesdeEnero(g) == DiasDesdeEnero(f) + 7
  {
    var o := Ordinal(f);
    assert Ordinal(g) == o + 7;
    MasSiete(o + 1);
  }

  /**
   * Because the formula adds the date's own weekday, its week number can go
   * down from one day to the next: in 2025, Saturday 4 January is in week 2
   * and Sunday 5 January in week 1.
   */
  lemma SemanaRetrocede()
    ensures var sabado: Fecha := DiaDelCalendario(2025, 3);
            Siguiente(sabado) == DiaDelCalendario(2025, 4)
            && DiaSemana(sabado) == 6
            && NumeroSemana(sabado) == 2 && NumeroSemana(Siguiente(sabado)) == 1
  {
  }

  function Tabla(p: Paridad, r: RegimenTenencia): map<string, string> {
    if p == Par then r.semanasPares else r.semanasImpares
  }

  /**
   * The parent with custody on date `f`: the entry for its weekday in the
   * even-week or odd-week table; None (`undefined`) when the entry is missing.
   */
  function DeterminarProgenitorDelDia(f: Fecha, r: RegimenTenencia): (p: Option<string>)
    ensures p.Some? ==> p.value in Tabla(EsSemanaParImpar(f), r).Values
    ensures p.Some? <==> NombreDia(f) in Tabla(EsSemanaParImpar(f), r)
    ensures TablaCompleta(r) ==> p.Some? && p.value in r.semanasPares.Values + r.semanasImpares.Values
  {
    var tabla := Tabla(EsSemanaParImpar(f), r);
    var dia := NombreDia(f);
    if dia in tabla then Some(tabla[dia]) else None
  }

  /** The table with its even-week and odd-week halves exchanged. */
  function Intercambiar(r: RegimenTenencia): RegimenTenencia {
    RegimenTenencia(r.semanasImpares, r.semanasPares)
  }

  /**
   * The rotation is fortnightly within a year: a week later the other half of
   * the table applies, two weeks later the same parent has custody again.
   */
  lemma {:induction false} RotacionQuincenal(f: Fecha, g: Fecha, h: Fecha, r: RegimenTenencia)
    requires g.anio == f.anio && g.dia == f.dia + 7
    requires h.anio == f.anio && h.dia == f.dia + 14
    ensures DeterminarProgenitorDelDia(g, r) == DeterminarProgenitorDelDia(f, Intercambiar(r))
    ensures DeterminarProgenitorDelDia(h, r) == DeterminarProgenitorDelDia(f, r)
  {
    SemanaSiguiente(f, g);
    SemanaSiguiente(g, h);
  }

  /** With a valid table every date has a custodian, and it is a declared parent. */
  lemma CustodiaDeclarada(f: Fecha, r: RegimenTenencia, progenitores: seq<Progenitor>)
    requires TablaCompleta(r) && TenenciaDeclarada(r, progenitores)
    ensures DeterminarProgenitorDelDia(f, r).Some?
    ensures ProgenitorDeclarado(DeterminarProgenitorDelDia(f, r).value, progenitores)
  {
  }

  // ---------------------------------------------------------------------------
  // Parent lookups by id, with the source's fallbacks

  /** `p.id === id`; an `undefined` id matches no parent. */
  function TieneId(id: Option<string>): Progenitor -> bool {
    (p: Progenitor) => id == Some(p.id)
  }

  /** The first parent with this id (`progenitores.find`). */
  function BuscarProgenitor(id: Option<string>, progenitores: seq<Progenitor>): Option<Progenitor> {
    Encontrar(progenitores, TieneId(id))
  }

  /** The name of the first parent with this id, or the id itself. */
  function EncontrarNombreProgenitor(id: Option<string>, progenitores: seq<Progenitor>): (n: Option<string>)
    ensures id.None? ==> n == id
    ensures id.Some? && !ProgenitorDeclarado(id.value, progenitores) ==> n == id
    ensures forall i :: 0 <= i < |progenitores| && id == Some(progenitores[i].id)
                        && (forall j :: 0 <= j < i ==> progenitores[j].id != progenitores[i].id)
                        ==> n == Some(progenitores[i].nombre)
  {
    match BuscarProgenitor(id, progenitores)
    case Some(p) => Some(p.nombre)
    case None => id
  }

  /** The background colour of the first parent with this id, or white. */
  function EncontrarColorProgenitor(id: Option<string>, progenitores: seq<Progenitor>): (c: string)
    ensures id.None? ==> c == "#FFFFFF"
    ensures id.Some? && !ProgenitorDeclarado(id.value, progenitores) ==> c == "#FFFFFF"
    ensures forall i :: 0 <= i < |progenitores| && id == Some(progenitores[i].id)
                        && (forall j :: 0 <= j < i ==> progenitores[j].id != progenitores[i].id)
                        ==> c == progenitores[i].colorFondo
  {
    match BuscarProgenitor(id, progenitores)
    case Some(p) => p.colorFondo
    case None => "#FFFFFF"
  }
}
