/**
 * The array operations the engine relies on.
 *
 * `Array.prototype.find` is Encontrar. `Array.prototype.sort` with a
 * comparator `(a, b) => clave(a) - clave(b)` is Ordenar: ECMAScript requires
 * the sort to be stable, so its result is determined (the elements ordered by
 * key, equal keys in their original order), and insertion sort computes
 * exactly that result.
 */
module Arreglos {
  import opened Wrappers

  /** The first element that satisfies `p`, or None when there is none. */
  function Encontrar<T>(s: seq<T>, p: T -> bool): (r: Option<T>)
    ensures r.None? ==> forall i :: 0 <= i < |s| ==> !p(s[i])
    ensures r.Some? ==> exists i :: 0 <= i < |s| && s[i] == r.value && p(s[i])
                                   && forall j :: 0 <= j < i ==> !p(s[j])
  {
    if s == [] then None
    else if p(s[0]) then Some(s[0])
    else
      var r := Encontrar(s[1..], p);
      assert r.Some? ==> exists i :: 0 <= i < |s| && s[i] == r.value && p(s[i])
                                     && forall j :: 0 <= j < i ==> !p(s[j]) by {
        if r.Some? {
          var i :| 0 <= i < |s[1..]| && s[1..][i] == r.value && p(s[1..][i])
                   && forall j :: 0 <= j < i ==> !p(s[1..][j]);
          assert s[i + 1] == r.value;
          assert forall j :: 0 <= j < i + 1 ==> !p(s[j]) by {
            forall j | 0 <= j < i + 1 ensures !p(s[j]) {
              if j > 0 { assert s[j] == s[1..][j - 1]; }
            }
          }
        }
      }
      r
  }

  predicate Ordenada<T>(s: seq<T>, clave: T -> int) {
    forall i, j :: 0 <= i < j < |s| ==> clave(s[i]) <= clave(s[j])
  }

  /** The elements of `s` that satisfy `p`, in their order in `s`. */
  function Filtrar<T>(s: seq<T>, p: T -> bool): (r: seq<T>)
    ensures |r| <= |s|
  {
    if s == [] then []
    else (if p(s[0]) then [s[0]] else []) + Filtrar(s[1..], p)
  }

  lemma {:induction false} FiltrarContiene<T>(s: seq<T>, p: T -> bool, x: T)
    ensures x in Filtrar(s, p) <==> x in s && p(x)
  {
    if s != [] {
      FiltrarContiene(s[1..], p, x);
      assert s == [s[0]] + s[1..];
    }
  }

  lemma {:induction false} FiltrarConcatenar<T>(a: seq<T>, b: seq<T>, p: T -> bool)
    ensures Filtrar(a + b, p) == Filtrar(a, p) + Filtrar(b, p)
  {
    if a == [] {
      assert a + b == b;
    } else {
      var cabeza := if p(a[0]) then [a[0]] else [];
      assert (a + b)[0] == a[0] && (a + b)[1..] == a[1..] + b;
      FiltrarConcatenar(a[1..], b, p);
      calc {
        Filtrar(a + b, p);
        cabeza + Filtrar(a[1..] + b, p);
        cabeza + (Filtrar(a[1..], p) + Filtrar(b, p));
        (cabeza + Filtrar(a[1..], p)) + Filtrar(b, p);
      }
    }
  }

  /** Nothing is kept when no element satisfies `p`. */
  lemma {:induction false} FiltrarNinguno<T>(s: seq<T>, p: T -> bool)
    requires forall i :: 0 <= i < |s| ==> !p(s[i])
    ensures Filtrar(s, p) == []
  {
    if s != [] {
      FiltrarNinguno(s[1..], p);
    }
  }

  /** `g` applied to every element of `s`, in order (`Array.prototype.map`). */
  function Mapear<A, B>(s: seq<A>, g: A -> B): (r: seq<B>)
    ensures |r| == |s|
    ensures forall i :: 0 <= i < |s| ==> r[i] == g(s[i])
  {
    if s == [] then [] else Mapear(s[..|s| - 1], g) + [g(s[|s| - 1])]
  }

  /** Mapping one more element of a prefix appends its image. */
  lemma MapearUnoMas<A, B>(s: seq<A>, k: int, g: A -> B)
    requires 0 <= k < |s|
    ensures Mapear(s[..k + 1], g) == Mapear(s[..k], g) + [g(s[k])]
  {
    assert s[..k + 1][..k] == s[..k];
  }

  /** A leading element followed by a mapped sequence, position by position. */
  lemma CabezaYMapeo<A, B>(c: B, s: seq<A>, g: A -> B)
    ensures var e := [c] + Mapear(s, g);
            && |e| == 1 + |s| && e[0] == c
            && (forall i :: 0 < i < |e| ==> e[i] == g(s[i - 1]))
  {
    var r := Mapear(s, g);
    var e := [c] + r;
    forall i | 0 < i < |e|
      ensures e[i] == g(s[i - 1])
    {
      assert e[i] == r[i - 1];
    }
  }

  /** The test "has key k", for selecting the elements that tie on key k. */
  function ConClave<T>(clave: T -> int, k: int): T -> bool {
    x => clave(x) == k
  }

  /** Inserts `x` after every element whose key is not greater than its own. */
  function Insertar<T>(x: T, s: seq<T>, clave: T -> int): (r: seq<T>)
    ensures |r| == |s| + 1
    ensures r[0] == x || (s != [] && r[0] == s[0])
  {
    if s == [] || clave(x) < clave(s[0]) then [x] + s
    else [s[0]] + Insertar(x, s[1..], clave)
  }

  lemma {:induction false} InsertarPermuta<T>(x: T, s: seq<T>, clave: T -> int)
    ensures multiset(Insertar(x, s, clave)) == multiset(s) + multiset{x}
  {
    if s != [] && clave(x) >= clave(s[0]) {
      InsertarPermuta(x, s[1..], clave);
      assert s == [s[0]] + s[1..];
    }
  }

  /** Inserting into a sorted sequence keeps it sorted. */
  lemma {:induction false} InsertarOrdena<T>(x: T, s: seq<T>, clave: T -> int)
    requires Ordenada(s, clave)
    ensures Ordenada(Insertar(x, s, clave), clave)
  {
    if s != [] && clave(x) >= clave(s[0]) {
      var resto := Insertar(x, s[1..], clave);
      assert Ordenada(s[1..], clave);
      InsertarOrdena(x, s[1..], clave);
      assert clave(s[0]) <= clave(resto[0]);
      var r := [s[0]] + resto;
      forall i, j | 0 <= i < j < |r|
        ensures clave(r[i]) <= clave(r[j])
      {
        if i > 0 {
          assert r[i] == resto[i - 1] && r[j] == resto[j - 1];
        } else {
          assert clave(resto[0]) <= clave(resto[j - 1]) || j == 1;
        }
      }
    }
  }

  /** The stable sort of `s` by `clave`. */
  function Ordenar<T>(s: seq<T>, clave: T -> int): (r: seq<T>)
    ensures |r| == |s|
  {
    if s == [] then []
    else Insertar(s[|s| - 1], Ordenar(s[..|s| - 1], clave), clave)
  }

  /** The sort's result is in key order. */
  lemma {:induction false} OrdenarOrdena<T>(s: seq<T>, clave: T -> int)
    ensures Ordenada(Ordenar(s, clave), clave)
  {
    if s != [] {
      OrdenarOrdena(s[..|s| - 1], clave);
      InsertarOrdena(s[|s| - 1], Ordenar(s[..|s| - 1], clave), clave);
    }
  }

  /** The sort's result is a permutation of its input. */
  lemma {:induction false} OrdenarPermuta<T>(s: seq<T>, clave: T -> int)
    ensures multiset(Ordenar(s, clave)) == multiset(s)
  {
    if s != [] {
      OrdenarPermuta(s[..|s| - 1], clave);
      InsertarPermuta(s[|s| - 1], Ordenar(s[..|s| - 1], clave), clave);
      assert s == s[..|s| - 1] + [s[|s| - 1]];
    }
  }

  lemma {:induction false} FiltrarInsertar<T>(x: T, s: seq<T>, clave: T -> int, p: T -> bool)
    ensures multiset(Filtrar(Insertar(x, s, clave), p))
            == multiset(Filtrar(s, p)) + (if p(x) then multiset{x} else multiset{})
  {
    if s == [] || clave(x) < clave(s[0]) {
      assert ([x] + s)[1..] == s;
    } else {
      var resto := Insertar(x, s[1..], clave);
      assert ([s[0]] + resto)[1..] == resto;
      FiltrarInsertar(x, s[1..], clave, p);
    }
  }

  /** Sorting neither adds nor drops elements that satisfy `p`. */
  lemma {:induction false} FiltrarOrdenar<T>(s: seq<T>, clave: T -> int, p: T -> bool)
    ensures multiset(Filtrar(Ordenar(s, clave), p)) == multiset(Filtrar(s, p))
    ensures |Filtrar(Ordenar(s, clave), p)| == |Filtrar(s, p)|
  {
    if s != [] {
      var ini, x := s[..|s| - 1], s[|s| - 1];
      assert s == ini + [x];
      FiltrarOrdenar(ini, clave, p);
      FiltrarInsertar(x, Ordenar(ini, clave), clave, p);
      FiltrarConcatenar(ini, [x], p);
    }
    assert |multiset(Filtrar(Ordenar(s, clave), p))| == |multiset(Filtrar(s, p))|;
  }

  /** In a sorted sequence nothing after a greater key has key k. */
  lemma {:induction false} SinClaveTrasMayor<T>(s: seq<T>, clave: T -> int, k: int)
    requires Ordenada(s, clave)
    requires s != [] && k < clave(s[0])
    ensures Filtrar(s, ConClave(clave, k)) == []
  {
    if |s| > 1 {
      SinClaveTrasMayor(s[1..], clave, k);
    } else {
      assert s[1..] == [];
    }
  }

  /** Filtering a sequence with a first element: one step of Filtrar. */
  lemma {:induction false} FiltrarCabeza<T>(x: T, s: seq<T>, p: T -> bool)
    ensures Filtrar([x] + s, p) == (if p(x) then [x] else []) + Filtrar(s, p)
  {
    assert ([x] + s)[0] == x && ([x] + s)[1..] == s;
  }

  lemma {:induction false} InsertarDelante<T>(x: T, s: seq<T>, clave: T -> int, k: int)
    requires Ordenada(s, clave)
    requires s == [] || clave(x) < clave(s[0])
    ensures Filtrar([x] + s, ConClave(clave, k))
            == Filtrar(s, ConClave(clave, k)) + (if clave(x) == k then [x] else [])
  {
    FiltrarCabeza(x, s, ConClave(clave, k));
    if clave(x) == k && s != [] {
      SinClaveTrasMayor(s, clave, k);
    }
  }

  lemma {:induction false} InsertarEstable<T>(x: T, s: seq<T>, clave: T -> int, k: int)
    requires Ordenada(s, clave)
    ensures Filtrar(Insertar(x, s, clave), ConClave(clave, k))
            == Filtrar(s, ConClave(clave, k)) + (if clave(x) == k then [x] else [])
  {
    if s == [] || clave(x) < clave(s[0]) {
      InsertarDelante(x, s, clave, k);
    } else {
      var p, t := ConClave(clave, k), s[1..];
      var resto := Insertar(x, t, clave);
      assert Insertar(x, s, clave) == [s[0]] + resto;
      assert Ordenada(t, clave);
      InsertarEstable(x, t, clave, k);
      FiltrarCabeza(s[0], resto, p);
      FiltrarCabeza(s[0], t, p);
      assert s == [s[0]] + t;
      var cabeza, cola := (if p(s[0]) then [s[0]] else []), (if clave(x) == k then [x] else []);
      assert cabeza + (Filtrar(t, p) + cola) == (cabeza + Filtrar(t, p)) + cola;
    }
  }

  /** Stability: the elements that tie on any key keep their relative order. */
  lemma {:induction false} OrdenarEstable<T>(s: seq<T>, clave: T -> int, k: int)
    ensures Filtrar(Ordenar(s, clave), ConClave(clave, k)) == Filtrar(s, ConClave(clave, k))
  {
    if s != [] {
      var ini, x := s[..|s| - 1], s[|s| - 1];
      assert s == ini + [x];
      OrdenarEstable(ini, clave, k);
      OrdenarOrdena(ini, clave);
      InsertarEstable(x, Ordenar(ini, clave), clave, k);
      FiltrarConcatenar(ini, [x], ConClave(clave, k));
      assert Filtrar([x], ConClave(clave, k)) == (if clave(x) == k then [x] else []) + Filtrar([], ConClave(clave, k));
    }
  }

  /** An element whose key is at least every key of `s` goes after all of them. */
  lemma {:induction false} InsertarAlFinal<T>(x: T, s: seq<T>, clave: T -> int)
    requires forall i :: 0 <= i < |s| ==> clave(s[i]) <= clave(x)
    ensures Insertar(x, s, clave) == s + [x]
  {
    if s != [] {
      InsertarAlFinal(x, s[1..], clave);
      assert s == [s[0]] + s[1..];
    }
  }

  /** A sequence already in key order is left as it is. */
  lemma {:induction false} OrdenarOrdenada<T>(s: seq<T>, clave: T -> int)
    requires Ordenada(s, clave)
    ensures Ordenar(s, clave) == s
  {
    if s != [] {
      var ini, x := s[..|s| - 1], s[|s| - 1];
      assert Ordenada(ini, clave);
      OrdenarOrdenada(ini, clave);
      InsertarAlFinal(x, ini, clave);
      assert s == ini + [x];
    }
  }
}
