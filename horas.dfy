/**
 * Times of day. The configuration writes them as "HH:MM" strings; the model
 * keeps the two numbers that `split(":")` and `parseInt` extract from a
 * well-formed string.
 */
module Horas {

  datatype Hora = Hora(horas: nat, minutos: nat)

  /** A time of day in the 24-hour range 00:00 .. 23:59. */
  predicate HoraValida(h: Hora) {
    h.horas <= 23 && h.minutos <= 59
  }

  /** Minutes since midnight (`convertirHoraAMinutos`). */
  function ConvertirHoraAMinutos(h: Hora): (r: nat)
    ensures HoraValida(h) ==> r <= 1439
    ensures h.minutos <= 59 ==> r / 60 == h.horas && r % 60 == h.minutos
  {
    h.horas * 60 + h.minutos
  }

  /** The inverse of ConvertirHoraAMinutos on the valid range. */
  function DesdeMinutos(m: nat): (h: Hora)
    requires m < 1440
    ensures HoraValida(h) && ConvertirHoraAMinutos(h) == m
  {
    Hora(m / 60, m % 60)
  }

  lemma DesdeMinutosDeHora(h: Hora)
    requires HoraValida(h)
    ensures DesdeMinutos(ConvertirHoraAMinutos(h)) == h
  {
    var m := ConvertirHoraAMinutos(h);
    assert m / 60 == h.horas && m % 60 == h.minutos;
  }

  /** Comparing minutes is comparing (hours, minutes) lexicographically. */
  lemma OrdenDeMinutos(a: Hora, b: Hora)
    requires HoraValida(a) && HoraValida(b)
    ensures ConvertirHoraAMinutos(a) < ConvertirHoraAMinutos(b)
            <==> a.horas < b.horas || (a.horas == b.horas && a.minutos < b.minutos)
    ensures ConvertirHoraAMinutos(a) == ConvertirHoraAMinutos(b) <==> a == b
  {
    var ma, mb := ConvertirHoraAMinutos(a), ConvertirHoraAMinutos(b);
    assert ma / 60 == a.horas && ma % 60 == a.minutos;
    assert mb / 60 == b.horas && mb % 60 == b.minutos;
  }
}
