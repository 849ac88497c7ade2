/**
 * Calendar dates as JavaScript's `Date` sees them at local midnight:
 * the proleptic Gregorian calendar, a year and a zero-based day of the year.
 * `getDay()` is DiaSemana, `setDate(getDate() + 1)` is Siguiente and
 * `setDate(getDate() - 1)` is Anterior; both cross month and year ends.
 */
module Fechas {

  predicate EsBisiesto(anio: int) {
    anio % 4 == 0 && (anio % 100 != 0 || anio % 400 == 0)
  }

  function DiasDelAnio(anio: int): (n: nat)
    ensures n == 365 || n == 366
  {
    if EsBisiesto(anio) then 366 else 365
  }

  /** Days from 1 January of year 1 to 1 January of `anio`. */
  function DiasAntesDe(anio: int): int {
    365 * (anio - 1) + (anio - 1) / 4 - (anio - 1) / 100 + (anio - 1) / 400
  }

  datatype DiaDelCalendario = DiaDelCalendario(anio: int, dia: nat)

  /** A date: `dia` is the number of whole days since 1 January of `anio`. */
  type Fecha = f: DiaDelCalendario | f.dia < DiasDelAnio(f.anio)
    witness DiaDelCalendario(1970, 0)

  /** Days since 1 January of year 1. */
  function Ordinal(f: Fecha): int {
    DiasAntesDe(f.anio) + f.dia
  }

  /** `getDay()`: 0 is Sunday ... 6 is Saturday; 1 January of year 1 was a Monday. */
  function DiaSemana(f: Fecha): (w: nat)
    ensures w < 7
  {
    (Ordinal(f) + 1) % 7
  }

  /**
   * The weekday of 1 January of every year agrees with Gauss's rule:
   * (1 + 5 ((y-1) mod 4) + 4 ((y-1) mod 100) + 6 ((y-1) mod 400)) mod 7.
   */
  lemma PrimeroDeEnero(y: int)
    ensures DiaSemana(DiaDelCalendario(y, 0))
            == (1 + 5 * ((y - 1) % 4) + 4 * ((y - 1) % 100) + 6 * ((y - 1) % 400)) % 7
  {
    var x := y - 1;
    var q4, q100, q400 := x / 4, x / 100, x / 400;
    assert x % 4 == x - 4 * q4;
    assert x % 100 == x - 100 * q100;
    assert x % 400 == x - 400 * q400;
    var gauss := 1 + 5 * (x % 4) + 4 * (x % 100) + 6 * (x % 400);
    var ordinal := 365 * x + q4 - q100 + q400;
    assert gauss == ordinal + 1 + 7 * (-50 * x - 3 * q4 - 57 * q100 - 343 * q400);
    MismoResto(gauss, ordinal + 1, -50 * x - 3 * q4 - 57 * q100 - 343 * q400);
  }

  lemma MismoResto(a: int, b: int, k: int)
    requires a == b + 7 * k
    ensures a % 7 == b % 7
  {
    assert b == 7 * (b / 7) + b % 7;
    assert a == 7 * (b / 7 + k) + b % 7;
  }

  /** Days of the Unix epoch and of a leap day fall on their known weekdays. */
  lemma DiasConocidos()
    ensures DiaSemana(DiaDelCalendario(1970, 0)) == 4
    ensures DiaSemana(DiaDelCalendario(2000, 0)) == 6
    ensures DiaSemana(DiaDelCalendario(2024, 59)) == 4
  {
  }

  /** Going from x to x + 1 adds one to x / k exactly when k divides x + 1. */
  lemma Cocientes(x: int)
    ensures (x + 1) / 4 - x / 4 == if (x + 1) % 4 == 0 then 1 else 0
    ensures (x + 1) / 100 - x / 100 == if (x + 1) % 100 == 0 then 1 else 0
    ensures (x + 1) / 400 - x / 400 == if (x + 1) % 400 == 0 then 1 else 0
  {
    assert x == 4 * (x / 4) + x % 4;
    assert x == 100 * (x / 100) + x % 100;
    assert x == 400 * (x / 400) + x % 400;
  }

  /** A century year is a multiple of 4. */
  lemma CentenarioBisiesto(anio: int)
    requires anio % 100 == 0
    ensures anio % 4 == 0
  {
    var q := anio / 100;
    assert anio == 4 * (25 * q);
  }

  /** A multiple of 400 is a century year. */
  lemma CuatrocientosCentenario(anio: int)
    requires anio % 400 == 0
    ensures anio % 100 == 0
  {
    var q := anio / 400;
    assert anio == 100 * (4 * q);
  }

  /** Consecutive years are DiasDelAnio apart. */
  lemma DiasAntesDeSiguiente(anio: int)
    ensures DiasAntesDe(anio + 1) == DiasAntesDe(anio) + DiasDelAnio(anio)
  {
    var x := anio - 1;
    Cocientes(x);
    if anio % 100 == 0 {
      CentenarioBisiesto(anio);
    }
    if anio % 400 == 0 {
      CuatrocientosCentenario(anio);
    }
    assert x + 1 == anio;
    var c4 := if anio % 4 == 0 then 1 else 0;
    var c100 := if anio % 100 == 0 then 1 else 0;
    var c400 := if anio % 400 == 0 then 1 else 0;
    assert DiasAntesDe(anio + 1) - DiasAntesDe(anio) == 365 + c4 - c100 + c400;
    assert DiasDelAnio(anio) == 365 + c4 - c100 + c400;
  }

  /** Every day of an earlier year comes before every day of a later one. */
  lemma {:induction false} AniosOrdenados(a: int, b: int)
    requires a < b
    ensures DiasAntesDe(a) + DiasDelAnio(a) <= DiasAntesDe(b)
    decreases b - a
  {
    DiasAntesDeSiguiente(a);
    if a + 1 < b {
      AniosOrdenados(a + 1, b);
    }
  }

  /** Different dates have different ordinals. */
  lemma OrdinalInyectivo(f: Fecha, g: Fecha)
    ensures Ordinal(f) == Ordinal(g) <==> f == g
    ensures f.anio < g.anio ==> Ordinal(f) < Ordinal(g)
  {
    if f.anio < g.anio {
      AniosOrdenados(f.anio, g.anio);
    } else if g.anio < f.anio {
      AniosOrdenados(g.anio, f.anio);
    }
  }

  /** The next calendar day. */
  function Siguiente(f: Fecha): (g: Fecha)
    ensures Ordinal(g) == Ordinal(f) + 1
  {
    DiasAntesDeSiguiente(f.anio);
    if f.dia + 1 < DiasDelAnio(f.anio) then DiaDelCalendario(f.anio, f.dia + 1)
    else DiaDelCalendario(f.anio + 1, 0)
  }

  /** The previous calendar day. */
  function Anterior(f: Fecha): (g: Fecha)
    ensures Ordinal(g) == Ordinal(f) - 1
  {
    DiasAntesDeSiguiente(f.anio - 1);
    if f.dia > 0 then DiaDelCalendario(f.anio, f.dia - 1)
    else DiaDelCalendario(f.anio - 1, DiasDelAnio(f.anio - 1) - 1)
  }

  lemma RestoSiguiente(x: int)
    ensures (x + 1) % 7 == (x % 7 + 1) % 7
  {
    assert x == 7 * (x / 7) + x % 7;
  }

  /** The weekday advances by one, Saturday wrapping to Sunday. */
  lemma DiaSemanaSiguiente(f: Fecha)
    ensures DiaSemana(Siguiente(f)) == (DiaSemana(f) + 1) % 7
    ensures (DiaSemana(Anterior(f)) + 1) % 7 == DiaSemana(f)
  {
    RestoSiguiente(Ordinal(f) + 1);
    RestoSiguiente(Ordinal(Anterior(f)) + 1);
  }

  lemma SiguienteAnterior(f: Fecha)
    ensures Anterior(Siguiente(f)) == f && Siguiente(Anterior(f)) == f
  {
    OrdinalInyectivo(Anterior(Siguiente(f)), f);
    OrdinalInyectivo(Siguiente(Anterior(f)), f);
  }

  /** The date `n` days after `f`. */
  function Avanzar(f: Fecha, n: nat): (g: Fecha)
    ensures Ordinal(g) == Ordinal(f) + n
    decreases n
  {
    if n == 0 then f else Avanzar(Siguiente(f), n - 1)
  }
}
