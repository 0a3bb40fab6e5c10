/** The generic `useLocalStorage(key, initialValue)` hook: a value read
    lazily from the browser's key/value storage, written back on every
    change, and pushed to every other mounted hook bound to the same key
    through an in-process change event.

    JSON is abstract: `parse` stands for `JSON.parse` (None when it
    throws) and `escribir` for `JSON.stringify` followed by `setItem`
    (None when either throws, for instance on a full quota). */
module Almacen {
  import opened Tipos
  import opened Coleccion

  /** `window.localStorage`: string keys to string values. */
  type Almacenamiento = map<string, string>

  /** `localStorage.getItem(clave)` is truthy: present and not empty. */
  predicate Presente(st: Almacenamiento, clave: string) {
    clave in st && st[clave] != ""
  }

  /** The lazy `useState` initialiser: the parsed stored value, or
      `inicial` when the entry is absent, empty, or does not parse. */
  function Leer<T>(st: Almacenamiento, clave: string, inicial: T, parse: string -> Option<T>): (v: T)
    ensures !Presente(st, clave) ==> v == inicial
    ensures Presente(st, clave) && parse(st[clave]).None? ==> v == inicial
    ensures Presente(st, clave) && parse(st[clave]).Some? ==> v == parse(st[clave]).value
    ensures v != inicial ==> Presente(st, clave) && parse(st[clave]) == Some(v)
  {
    if Presente(st, clave) then parse(st[clave]).GetOr(inicial) else inicial
  }

  /** One mounted hook: the key it is bound to and its React state. */
  datatype Consumidor<T> = Consumidor(clave: string, estado: T)

  /** Storage together with every mounted hook; each one listens to the
      change event while it is mounted. */
  datatype Mundo<T> = Mundo(almacen: Almacenamiento, consumidores: seq<Consumidor<T>>)

  /** Mounting a hook: its state comes from storage; it starts listening. */
  function Montar<T>(w: Mundo<T>, clave: string, inicial: T, parse: string -> Option<T>): (w': Mundo<T>)
    ensures w'.almacen == w.almacen
    ensures |w'.consumidores| == |w.consumidores| + 1
    ensures w'.consumidores[..|w.consumidores|] == w.consumidores
    ensures w'.consumidores[|w.consumidores|].clave == clave
    ensures w'.consumidores[|w.consumidores|].estado == Leer(w.almacen, clave, inicial, parse)
  {
    Mundo(w.almacen, w.consumidores + [Consumidor(clave, Leer(w.almacen, clave, inicial, parse))])
  }

  /** Unmounting hook `i`: the effect's cleanup removes its listener, so
      later events no longer reach it; storage is untouched. */
  function Desmontar<T>(w: Mundo<T>, i: nat): (w': Mundo<T>)
    requires i < |w.consumidores|
    ensures w'.almacen == w.almacen
    ensures |w'.consumidores| == |w.consumidores| - 1
    ensures forall j :: 0 <= j < i ==> w'.consumidores[j] == w.consumidores[j]
    ensures forall j :: i < j < |w.consumidores| ==> w'.consumidores[j - 1] == w.consumidores[j]
  {
    Mundo(w.almacen, w.consumidores[..i] + w.consumidores[i + 1..])
  }

  /** The change event for `clave` carrying `v`: every listener bound to
      `clave` adopts `v`, the others ignore it. */
  function Notificar<T>(cs: seq<Consumidor<T>>, clave: string, v: T): (cs': seq<Consumidor<T>>)
    ensures |cs'| == |cs|
    ensures forall j :: 0 <= j < |cs| && cs[j].clave == clave ==> cs'[j] == Consumidor(clave, v)
    ensures forall j :: 0 <= j < |cs| && cs[j].clave != clave ==> cs'[j] == cs[j]
  {
    Reemplazar(cs, (c: Consumidor<T>) => c.clave == clave, (c: Consumidor<T>) => c.(estado := v))
  }

  /** `setValue(f)` through hook `quien`: the new value is computed from
      that hook's own state and stored in it first; then it is written
      under the hook's key and announced. When the write throws, the
      error is swallowed: the hook keeps the new value, storage is not
      written and no event fires. */
  function Guardar<T>(w: Mundo<T>, quien: nat, f: T -> T, escribir: T -> Option<string>): (w': Mundo<T>)
    requires quien < |w.consumidores|
    ensures |w'.consumidores| == |w.consumidores|
    ensures w'.consumidores[quien] == w.consumidores[quien].(estado := f(w.consumidores[quien].estado))
    ensures var c := w.consumidores[quien];
            var v := f(c.estado);
            escribir(v).None? ==>
              && w'.almacen == w.almacen
              && forall j :: 0 <= j < |w.consumidores| && j != quien ==> w'.consumidores[j] == w.consumidores[j]
    ensures var c := w.consumidores[quien];
            var v := f(c.estado);
            escribir(v).Some? ==>
              && w'.almacen == w.almacen[c.clave := escribir(v).value]
              && forall j :: 0 <= j < |w.consumidores| ==>
                   w'.consumidores[j] == if w.consumidores[j].clave == c.clave
                                         then Consumidor(c.clave, v) else w.consumidores[j]
  {
    var c := w.consumidores[quien];
    var v := f(c.estado);
    var cs := w.consumidores[quien := Consumidor(c.clave, v)];
    match escribir(v)
    case None => Mundo(w.almacen, cs)
    case Some(texto) => Mundo(w.almacen[c.clave := texto], Notificar(cs, c.clave, v))
  }

  /** After a successful write every hook bound to the key holds the new
      value, and so does a hook mounted afterwards, provided the written
      text parses back to the value and is not empty (a JSON array never
      is). */
  lemma {:induction false} GuardarSincroniza<T>(w: Mundo<T>, quien: nat, f: T -> T,
                                                escribir: T -> Option<string>,
                                                parse: string -> Option<T>, inicial: T)
    requires quien < |w.consumidores|
    requires var v := f(w.consumidores[quien].estado);
             escribir(v).Some? && escribir(v).value != "" && parse(escribir(v).value) == Some(v)
    ensures var clave := w.consumidores[quien].clave;
            var v := f(w.consumidores[quien].estado);
            var w' := Guardar(w, quien, f, escribir);
            && (forall j :: 0 <= j < |w'.consumidores| && w'.consumidores[j].clave == clave ==>
                  w'.consumidores[j].estado == v)
            && Leer(w'.almacen, clave, inicial, parse) == v
            && Montar(w', clave, inicial, parse).consumidores[|w'.consumidores|].estado == v
  {
    var clave := w.consumidores[quien].clave;
    var w' := Guardar(w, quien, f, escribir);
    assert Presente(w'.almacen, clave);
  }
}
