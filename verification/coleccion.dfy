/** The array operations every hook and page is built from
    (`filter`, `map` with a condition, `find`, `[...new Set(...)]`,
    append), with the facts about them the rest of the model needs. */
module Coleccion {
  import opened Tipos

  /** `ys` is `xs` with some elements deleted, the rest in their order. */
  ghost predicate EsSubsecuencia<T>(ys: seq<T>, xs: seq<T>)
    decreases |xs|
  {
    if ys == [] then true
    else if xs == [] then false
    else (ys[0] == xs[0] && EsSubsecuencia(ys[1..], xs[1..])) || EsSubsecuencia(ys, xs[1..])
  }

  /** `xs.filter(p)`: exactly the elements satisfying `p`, in their
      original order. */
  function Filtrar<T>(xs: seq<T>, p: T -> bool): (ys: seq<T>)
    ensures |ys| <= |xs|
    ensures forall i :: 0 <= i < |ys| ==> p(ys[i]) && ys[i] in xs
    ensures forall i :: 0 <= i < |xs| && p(xs[i]) ==> xs[i] in ys
    ensures EsSubsecuencia(ys, xs)
  {
    if xs == [] then []
    else
      assert xs == [xs[0]] + xs[1..];
      if p(xs[0]) then [xs[0]] + Filtrar(xs[1..], p)
      else Filtrar(xs[1..], p)
  }

  /** Filtering keeps every copy of an element satisfying `p` and no copy
      of any other. */
  lemma {:induction false} FiltrarMultiplicidad<T>(xs: seq<T>, p: T -> bool)
    ensures forall i :: 0 <= i < |xs| ==>
              multiset(Filtrar(xs, p))[xs[i]] == if p(xs[i]) then multiset(xs)[xs[i]] else 0
  {
    if xs != [] {
      var x, resto := xs[0], xs[1..];
      assert xs == [x] + resto;
      FiltrarMultiplicidad(resto, p);
      var fr := Filtrar(resto, p);
      forall i | 0 <= i < |xs|
        ensures multiset(Filtrar(xs, p))[xs[i]] == if p(xs[i]) then multiset(xs)[xs[i]] else 0
      {
        var v := xs[i];
        if v !in resto {
          assert v !in fr;
          assert multiset(fr)[v] == 0 && multiset(resto)[v] == 0;
        } else {
          var j :| 0 <= j < |resto| && resto[j] == v;
          assert multiset(fr)[resto[j]] == if p(v) then multiset(resto)[v] else 0;
        }
      }
    }
  }

  /** Filtering by a condition every element meets keeps the list. */
  lemma {:induction false} FiltrarTodos<T>(xs: seq<T>, p: T -> bool)
    ensures (forall i :: 0 <= i < |xs| ==> p(xs[i])) ==> Filtrar(xs, p) == xs
  {
    if xs != [] {
      FiltrarTodos(xs[1..], p);
    }
  }

  /** Two conditions that agree on every element filter alike. */
  lemma {:induction false} FiltrarCongruente<T>(xs: seq<T>, p: T -> bool, q: T -> bool)
    requires forall i :: 0 <= i < |xs| ==> p(xs[i]) == q(xs[i])
    ensures Filtrar(xs, p) == Filtrar(xs, q)
  {
    if xs != [] {
      FiltrarCongruente(xs[1..], p, q);
    }
  }

  /** Filtering twice is filtering once by the conjunction. */
  lemma {:induction false} FiltrarFiltrar<T>(xs: seq<T>, p: T -> bool, q: T -> bool, pq: T -> bool)
    requires forall i :: 0 <= i < |xs| ==> pq(xs[i]) == (p(xs[i]) && q(xs[i]))
    ensures Filtrar(Filtrar(xs, p), q) == Filtrar(xs, pq)
  {
    if xs != [] {
      FiltrarFiltrar(xs[1..], p, q, pq);
    }
  }

  /** Counts of two conditions that never hold together add up to the
      count of their disjunction. */
  lemma {:induction false} ContarDisjuntos<T>(xs: seq<T>, p: T -> bool, q: T -> bool, pq: T -> bool)
    requires forall i :: 0 <= i < |xs| ==> !(p(xs[i]) && q(xs[i]))
    requires forall i :: 0 <= i < |xs| ==> pq(xs[i]) == (p(xs[i]) || q(xs[i]))
    ensures |Filtrar(xs, p)| + |Filtrar(xs, q)| == |Filtrar(xs, pq)|
  {
    if xs != [] {
      ContarDisjuntos(xs[1..], p, q, pq);
    }
  }

  /** A weaker condition counts at least as many elements. */
  lemma {:induction false} ContarMonotono<T>(xs: seq<T>, p: T -> bool, q: T -> bool)
    requires forall i :: 0 <= i < |xs| ==> p(xs[i]) ==> q(xs[i])
    ensures |Filtrar(xs, p)| <= |Filtrar(xs, q)|
  {
    if xs != [] {
      ContarMonotono(xs[1..], p, q);
    }
  }

  /** Filtering by a condition no element meets leaves nothing. */
  lemma FiltrarNinguno<T>(xs: seq<T>, p: T -> bool)
    ensures (forall i :: 0 <= i < |xs| ==> !p(xs[i])) ==> Filtrar(xs, p) == []
  {
    var ys := Filtrar(xs, p);
    if ys != [] {
      assert p(ys[0]) && ys[0] in xs;
    }
  }

  /** The elements whose key is `v`, in their order. */
  function FiltrarClave<T>(xs: seq<T>, clave: T -> string, v: string): seq<T> {
    Filtrar(xs, x => clave(x) == v)
  }

  /** Filtering by key is filtering by any condition that agrees with
      "the key is `v`". */
  lemma {:induction false} FiltrarClaveComo<T>(xs: seq<T>, clave: T -> string, v: string, p: T -> bool)
    requires forall i :: 0 <= i < |xs| ==> p(xs[i]) == (clave(xs[i]) == v)
    ensures FiltrarClave(xs, clave, v) == Filtrar(xs, p)
  {
    if xs != [] {
      FiltrarClaveComo(xs[1..], clave, v, p);
    }
  }

  /** The number of elements whose key is `v`. */
  function ContarClave<T>(xs: seq<T>, clave: T -> string, v: string): nat {
    |FiltrarClave(xs, clave, v)|
  }

  /** One count per value of `vs`, in the order of `vs`. */
  function ConteosPorClave<T>(xs: seq<T>, clave: T -> string, vs: seq<string>): (ns: seq<nat>)
    ensures |ns| == |vs|
    ensures forall i :: 0 <= i < |vs| ==> ns[i] == ContarClave(xs, clave, vs[i])
  {
    if vs == [] then [] else [ContarClave(xs, clave, vs[0])] + ConteosPorClave(xs, clave, vs[1..])
  }

  function Suma(ns: seq<nat>): nat {
    if ns == [] then 0 else ns[0] + Suma(ns[1..])
  }

  /** Counting per key over distinct values adds up to the number of
      elements whose key is one of the values. */
  lemma {:induction false} SumaConteosPorClave<T>(xs: seq<T>, clave: T -> string, vs: seq<string>)
    requires Distintos(vs)
    ensures Suma(ConteosPorClave(xs, clave, vs)) == |Filtrar(xs, x => clave(x) in vs)|
    ensures (forall i :: 0 <= i < |xs| ==> clave(xs[i]) in vs) ==> Suma(ConteosPorClave(xs, clave, vs)) == |xs|
  {
    FiltrarTodos(xs, x => clave(x) in vs);
    if vs == [] {
      FiltrarNinguno(xs, x => clave(x) in vs);
    } else {
      var resto := vs[1..];
      assert Distintos(resto);
      SumaConteosPorClave(xs, clave, resto);
      assert ConteosPorClave(xs, clave, vs)[1..] == ConteosPorClave(xs, clave, resto);
      ContarDisjuntos(xs, x => clave(x) == vs[0], x => clave(x) in resto, x => clave(x) in vs);
    }
  }

  /** When every key is one of the distinct values, the per-value
      counts add up to the length. */
  lemma SumaConteosCubre<T>(xs: seq<T>, clave: T -> string, vs: seq<string>)
    requires Distintos(vs)
    requires forall i :: 0 <= i < |xs| ==> clave(xs[i]) in vs
    ensures Suma(ConteosPorClave(xs, clave, vs)) == |xs|
  {
    SumaConteosPorClave(xs, clave, vs);
  }

  /** `xs.map(x => toca(x) ? f(x) : x)`: same length and order, the
      touched elements transformed, the others kept. */
  function Reemplazar<T>(xs: seq<T>, toca: T -> bool, f: T -> T): (ys: seq<T>)
    ensures |ys| == |xs|
    ensures forall i :: 0 <= i < |xs| ==> ys[i] == if toca(xs[i]) then f(xs[i]) else xs[i]
  {
    if xs == [] then []
    else [if toca(xs[0]) then f(xs[0]) else xs[0]] + Reemplazar(xs[1..], toca, f)
  }

  /** `xs.map(f)`. */
  function Mapear<T, U>(xs: seq<T>, f: T -> U): (ys: seq<U>)
    ensures |ys| == |xs|
    ensures forall i :: 0 <= i < |xs| ==> ys[i] == f(xs[i])
  {
    if xs == [] then [] else [f(xs[0])] + Mapear(xs[1..], f)
  }

  // ---------------------------------------------------------------------
  // Identifiers

  /** No two records share an identifier. */
  ghost predicate IdsUnicos<T>(xs: seq<T>, id: T -> string) {
    forall i, j :: 0 <= i < j < |xs| ==> id(xs[i]) != id(xs[j])
  }

  /** With unique identifiers, the record at `k` is the only one with its
      identifier. */
  lemma UnicoConId<T>(xs: seq<T>, id: T -> string, k: nat)
    requires IdsUnicos(xs, id) && k < |xs|
    ensures forall i :: 0 <= i < |xs| && id(xs[i]) == id(xs[k]) ==> i == k
  {
  }

  /** Some record carries identifier `k`. */
  ghost predicate TieneId<T>(xs: seq<T>, id: T -> string, k: string) {
    exists i :: 0 <= i < |xs| && id(xs[i]) == k
  }

  /** Appending keeps identifiers unique exactly when the new identifier
      is fresh; nothing in an append checks it. */
  lemma AgregarIdsUnicos<T>(xs: seq<T>, id: T -> string, x: T)
    ensures IdsUnicos(xs + [x], id) <==> IdsUnicos(xs, id) && !TieneId(xs, id, id(x))
  {
    var ys := xs + [x];
    if IdsUnicos(ys, id) {
      assert forall i, j :: 0 <= i < j < |xs| ==> xs[i] == ys[i] && xs[j] == ys[j];
      assert forall i :: 0 <= i < |xs| ==> ys[i] == xs[i] && id(ys[i]) != id(ys[|xs|]);
    }
  }

  /** `xs.map(x => id(x) === k ? f(x) : x)`: the hooks' update by id. */
  function ActualizarPorId<T>(xs: seq<T>, id: T -> string, k: string, f: T -> T): (ys: seq<T>)
    ensures |ys| == |xs|
    ensures forall i :: 0 <= i < |xs| && id(xs[i]) != k ==> ys[i] == xs[i]
    ensures forall i :: 0 <= i < |xs| && id(xs[i]) == k ==> ys[i] == f(xs[i])
    ensures !TieneId(xs, id, k) ==> ys == xs
  {
    Reemplazar(xs, x => id(x) == k, f)
  }

  /** Updating twice is updating once when `f` keeps the identifier and is
      itself idempotent (the soft delete is such an `f`). */
  lemma ActualizarPorIdIdempotente<T>(xs: seq<T>, id: T -> string, k: string, f: T -> T)
    requires forall i :: 0 <= i < |xs| && id(xs[i]) == k ==> id(f(xs[i])) == k && f(f(xs[i])) == f(xs[i])
    ensures ActualizarPorId(ActualizarPorId(xs, id, k, f), id, k, f) == ActualizarPorId(xs, id, k, f)
  {
    var ys := ActualizarPorId(xs, id, k, f);
    var zs := ActualizarPorId(ys, id, k, f);
    forall i | 0 <= i < |xs|
      ensures zs[i] == ys[i]
    {
      if id(xs[i]) == k {
        assert ys[i] == f(xs[i]);
      }
    }
  }

  /** An update whose `f` keeps the identifier keeps every identifier,
      and so keeps them unique exactly when they were. */
  lemma ActualizarPorIdConservaIds<T>(xs: seq<T>, id: T -> string, k: string, f: T -> T)
    requires forall i :: 0 <= i < |xs| && id(xs[i]) == k ==> id(f(xs[i])) == k
    ensures forall i :: 0 <= i < |xs| ==> id(ActualizarPorId(xs, id, k, f)[i]) == id(xs[i])
    ensures IdsUnicos(ActualizarPorId(xs, id, k, f), id) <==> IdsUnicos(xs, id)
  {
  }

  /** `xs.filter(x => id(x) !== k)`: removes every record with id `k`
      and keeps the rest in order. */
  function QuitarPorId<T>(xs: seq<T>, id: T -> string, k: string): (ys: seq<T>)
    ensures EsSubsecuencia(ys, xs)
    ensures forall i :: 0 <= i < |ys| ==> id(ys[i]) != k && ys[i] in xs
    ensures forall i :: 0 <= i < |xs| && id(xs[i]) != k ==> xs[i] in ys
    ensures !TieneId(xs, id, k) ==> ys == xs
    ensures forall i :: 0 <= i < |xs| ==> multiset(ys)[xs[i]] == if id(xs[i]) != k then multiset(xs)[xs[i]] else 0
  {
    var p := x => id(x) != k;
    FiltrarTodos(xs, p);
    FiltrarMultiplicidad(xs, p);
    Filtrar(xs, p)
  }

  /** With unique identifiers, removing a present id shortens the list
      by exactly one. */
  lemma {:induction false} QuitarPorIdUnico<T>(xs: seq<T>, id: T -> string, k: string)
    requires IdsUnicos(xs, id) && TieneId(xs, id, k)
    ensures |QuitarPorId(xs, id, k)| == |xs| - 1
  {
    var p := x => id(x) != k;
    var resto := xs[1..];
    assert forall i, j :: 0 <= i < j < |resto| ==> resto[i] == xs[i + 1] && resto[j] == xs[j + 1];
    if id(xs[0]) == k {
      assert forall j :: 0 <= j < |resto| ==> resto[j] == xs[j + 1] && p(resto[j]);
      FiltrarTodos(resto, p);
    } else {
      var i :| 0 <= i < |xs| && id(xs[i]) == k;
      assert resto[i - 1] == xs[i];
      QuitarPorIdUnico(resto, id, k);
    }
  }

  /** Appending a record with a fresh identifier and then removing that
      identifier gives the original list back. */
  lemma {:induction false} QuitarPorIdAgregado<T>(xs: seq<T>, id: T -> string, x: T)
    requires !TieneId(xs, id, id(x))
    ensures QuitarPorId(xs + [x], id, id(x)) == xs
  {
    var p := y => id(y) != id(x);
    FiltrarConcat(xs, [x], p);
    FiltrarTodos(xs, p);
    assert Filtrar([x], p) == [];
  }

  /** `xs.filter` is a homomorphism for concatenation. */
  lemma {:induction false} FiltrarConcat<T>(xs: seq<T>, ys: seq<T>, p: T -> bool)
    ensures Filtrar(xs + ys, p) == Filtrar(xs, p) + Filtrar(ys, p)
  {
    if xs == [] {
      assert xs + ys == ys;
    } else {
      assert (xs + ys)[1..] == xs[1..] + ys;
      FiltrarConcat(xs[1..], ys, p);
    }
  }

  // ---------------------------------------------------------------------
  // find and Set

  /** The index `xs.findIndex(p)` returns, with `|xs|` for "none". */
  function Buscar<T>(xs: seq<T>, p: T -> bool): (k: nat)
    ensures k <= |xs|
    ensures k < |xs| ==> p(xs[k])
    ensures forall j :: 0 <= j < k ==> !p(xs[j])
  {
    if xs == [] then 0
    else if p(xs[0]) then 0
    else 1 + Buscar(xs[1..], p)
  }

  /** `xs.find(p)`: the first element satisfying `p`, if any. */
  function Encontrar<T>(xs: seq<T>, p: T -> bool): (r: Option<T>)
    ensures r.None? <==> forall i :: 0 <= i < |xs| ==> !p(xs[i])
    ensures r.Some? ==> exists k :: 0 <= k < |xs| && xs[k] == r.value && p(xs[k]) &&
                                    forall j :: 0 <= j < k ==> !p(xs[j])
  {
    var k := Buscar(xs, p);
    if k < |xs| then Some(xs[k]) else None
  }

  /** Finding in a filtered list is finding by the conjunction. */
  lemma {:induction false} EncontrarFiltrar<T>(xs: seq<T>, p: T -> bool, q: T -> bool, pq: T -> bool)
    requires forall i :: 0 <= i < |xs| ==> pq(xs[i]) == (p(xs[i]) && q(xs[i]))
    ensures Encontrar(Filtrar(xs, p), q) == Encontrar(xs, pq)
  {
    if xs != [] {
      EncontrarFiltrar(xs[1..], p, q, pq);
      EncontrarCabeza(xs, pq);
      var f := Filtrar(xs, p);
      if p(xs[0]) {
        assert f != [] && f[0] == xs[0] && f[1..] == Filtrar(xs[1..], p);
        EncontrarCabeza(f, q);
      }
    }
  }

  /** `find` looks at the head first, then at the rest. */
  lemma EncontrarCabeza<T>(xs: seq<T>, p: T -> bool)
    requires xs != []
    ensures Encontrar(xs, p) == if p(xs[0]) then Some(xs[0]) else Encontrar(xs[1..], p)
  {
    if !p(xs[0]) {
      assert Buscar(xs, p) == 1 + Buscar(xs[1..], p);
    }
  }

  /** No element occurs twice. */
  predicate Distintos<T(==)>(xs: seq<T>) {
    forall i, j :: 0 <= i < j < |xs| ==> xs[i] != xs[j]
  }

  /** `[...new Set(xs)]`: each distinct element once. */
  function SinRepetir<T(==)>(xs: seq<T>): (ys: seq<T>)
    ensures forall i :: 0 <= i < |ys| ==> ys[i] in xs
    ensures forall i :: 0 <= i < |xs| ==> xs[i] in ys
    ensures Distintos(ys)
    ensures |ys| <= |xs|
    decreases |xs|
  {
    if xs == [] then []
    else
      var previos := SinRepetir(xs[..|xs| - 1]);
      var x := xs[|xs| - 1];
      assert xs == xs[..|xs| - 1] + [x];
      if x in previos then previos else previos + [x]
  }

  /** The distinct `f`-values of the elements passing `p`: each comes from
      such an element, and each such element's value is among them. */
  lemma ValoresDistintosDe<T, U>(xs: seq<T>, p: T -> bool, f: T -> U)
    ensures var cs := SinRepetir(Mapear(Filtrar(xs, p), f));
            (forall i :: 0 <= i < |cs| ==> exists j :: 0 <= j < |xs| && p(xs[j]) && f(xs[j]) == cs[i]) &&
            (forall j :: 0 <= j < |xs| && p(xs[j]) ==> f(xs[j]) in cs)
  {
    var act := Filtrar(xs, p);
    var todas := Mapear(act, f);
    var cs := SinRepetir(todas);
    forall i | 0 <= i < |cs|
      ensures exists j :: 0 <= j < |xs| && p(xs[j]) && f(xs[j]) == cs[i]
    {
      var k :| 0 <= k < |todas| && todas[k] == cs[i];
      var j :| 0 <= j < |xs| && xs[j] == act[k];
      assert p(xs[j]) && f(xs[j]) == cs[i];
    }
    forall j | 0 <= j < |xs| && p(xs[j])
      ensures f(xs[j]) in cs
    {
      var k :| 0 <= k < |act| && act[k] == xs[j];
      assert todas[k] == f(xs[j]);
    }
  }
}
