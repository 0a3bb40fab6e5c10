/** String operations the pages rely on: `toLowerCase`, `includes`,
    `parseInt` and `Number.prototype.toString`. */
module Texto {
  import opened Tipos

  predicate EsMayuscula(c: char) {
    'A' <= c <= 'Z'
  }

  /** `toLowerCase` on one character: ASCII capitals only. */
  function MinusculaChar(c: char): char {
    if EsMayuscula(c) then (c as int + 32) as char else c
  }

  /** `s.toLowerCase()`: same length, no capital left, every other
      character kept in place. */
  function Minusculas(s: string): (r: string)
    ensures |r| == |s|
    ensures forall i :: 0 <= i < |r| ==> !EsMayuscula(r[i])
    ensures forall i :: 0 <= i < |s| && !EsMayuscula(s[i]) ==> r[i] == s[i]
  {
    if s == [] then [] else [MinusculaChar(s[0])] + Minusculas(s[1..])
  }

  /** Lower-casing twice is lower-casing once. */
  lemma MinusculasIdempotente(s: string)
    ensures Minusculas(Minusculas(s)) == Minusculas(s)
  {
    var t := Minusculas(s);
    assert forall i :: 0 <= i < |t| ==> Minusculas(t)[i] == t[i];
  }

  predicate EmpiezaCon(s: string, t: string) {
    |t| <= |s| && s[..|t|] == t
  }

  /** `s.includes(t)`, scanning `s` from the left. */
  predicate Contiene(s: string, t: string)
    decreases |s|
  {
    EmpiezaCon(s, t) || (s != [] && Contiene(s[1..], t))
  }

  /** Reference definition of `includes`: `t` occurs at some offset. */
  ghost predicate Subcadena(s: string, t: string) {
    exists i :: 0 <= i && Ocurre(s, t, i)
  }

  /** `t` occurs in `s` at offset `i`. */
  predicate Ocurre(s: string, t: string, i: nat) {
    i + |t| <= |s| && s[i..i + |t|] == t
  }

  /** The scanning definition agrees with the reference one. */
  lemma {:induction false} ContieneSiiSubcadena(s: string, t: string)
    ensures Contiene(s, t) <==> Subcadena(s, t)
    decreases |s|
  {
    if EmpiezaCon(s, t) {
      assert Ocurre(s, t, 0);
    } else if s != [] {
      ContieneSiiSubcadena(s[1..], t);
      if Subcadena(s, t) {
        var i :| 0 <= i && Ocurre(s, t, i);
        assert i != 0;
        assert s[1..][i - 1..i - 1 + |t|] == s[i..i + |t|];
        assert Ocurre(s[1..], t, i - 1);
      }
      if Subcadena(s[1..], t) {
        var j :| 0 <= j && Ocurre(s[1..], t, j);
        assert s[j + 1..j + 1 + |t|] == s[1..][j..j + |t|];
        assert Ocurre(s, t, j + 1);
      }
    }
  }

  /** The search test every page uses:
      `campo.toLowerCase().includes(termino.toLowerCase())`. */
  predicate Coincide(campo: string, termino: string): (b: bool)
    ensures b <==> Subcadena(Minusculas(campo), Minusculas(termino))
    ensures termino == "" ==> b
  {
    ContieneSiiSubcadena(Minusculas(campo), Minusculas(termino));
    assert termino == "" ==> Minusculas(termino) == "" && EmpiezaCon(Minusculas(campo), "");
    Contiene(Minusculas(campo), Minusculas(termino))
  }

  /** An empty search term matches every field, so an empty search box
      shows the whole list. */
  lemma {:induction false} TerminoVacioCoincide(campo: string)
    ensures Coincide(campo, "")
  {
    assert Minusculas("") == "";
    assert EmpiezaCon(Minusculas(campo), "");
  }

  /** The search ignores the case of the term: an already lower-cased
      term finds the same fields. */
  lemma CoincideIgnoraMayusculas(campo: string, termino: string)
    ensures Coincide(campo, termino) <==> Coincide(campo, Minusculas(termino))
  {
    MinusculasIdempotente(termino);
  }

  // ---------------------------------------------------------------------
  // parseInt / toString

  /** `Number.MAX_SAFE_INTEGER`, the largest integer a JavaScript number
      holds exactly together with all smaller ones. */
  const MaximoSeguro: int := 9007199254740991

  /** The value of `c` as a digit of a radix up to 36: `0` to `9`, then
      the letters of either case from 10; 36 for any other character. */
  function Cifra(c: char): (d: nat)
    ensures d <= 36
  {
    if '0' <= c <= '9' then c as int - '0' as int
    else if 'a' <= c <= 'z' then c as int - 'a' as int + 10
    else if 'A' <= c <= 'Z' then c as int - 'A' as int + 10
    else 36
  }

  /** `c` is a digit of radix `base`. */
  predicate EsCifra(c: char, base: nat) {
    Cifra(c) < base
  }

  predicate EsDigito(c: char) {
    EsCifra(c, 10)
  }

  /** The characters `parseInt` skips before the number: the WhiteSpace
      and LineTerminator code points of ECMAScript (tab, line feed,
      vertical tab, form feed, carriage return, the space separators of
      Unicode, line and paragraph separators, and the byte order mark). */
  predicate EsEspacio(c: char) {
    var n := c as int;
    || 0x09 <= n <= 0x0D
    || n == 0x20 || n == 0xA0 || n == 0x1680
    || 0x2000 <= n <= 0x200A
    || n == 0x2028 || n == 0x2029 || n == 0x202F || n == 0x205F
    || n == 0x3000 || n == 0xFEFF
  }

  /** The decimal digit for `d`. */
  function CharDigito(d: nat): (c: char)
    requires d < 10
    ensures EsDigito(c) && Cifra(c) == d
  {
    ('0' as int + d) as char
  }

  predicate SoloCifras(s: string, base: nat) {
    forall i :: 0 <= i < |s| ==> EsCifra(s[i], base)
  }

  predicate SoloDigitos(s: string) {
    SoloCifras(s, 10)
  }

  /** The number of leading radix-`base` digits of `s`. */
  function LargoCifras(s: string, base: nat): (k: nat)
    ensures k <= |s|
    ensures SoloCifras(s[..k], base)
    ensures k < |s| ==> !EsCifra(s[k], base)
  {
    if s != [] && EsCifra(s[0], base) then
      var k := 1 + LargoCifras(s[1..], base);
      assert s[..k] == [s[0]] + s[1..][..k - 1];
      k
    else 0
  }

  /** The value of a radix-`base` digit string, most significant digit
      first. */
  function ValorEn(ds: string, base: nat): nat
    requires SoloCifras(ds, base)
    decreases |ds|
  {
    if ds == [] then 0 else base * ValorEn(ds[..|ds| - 1], base) + Cifra(ds[|ds| - 1])
  }

  /** `s` without its leading whitespace. */
  function SinEspacios(s: string): (r: string)
    ensures r == [] || !EsEspacio(r[0])
    ensures |r| <= |s| && r == s[|s| - |r|..]
    ensures forall i :: 0 <= i < |s| - |r| ==> EsEspacio(s[i])
  {
    if s != [] && EsEspacio(s[0]) then SinEspacios(s[1..]) else s
  }

  /** `t` without one leading `+` or `-`. */
  function SinSigno(t: string): string {
    if t != [] && (t[0] == '-' || t[0] == '+') then t[1..] else t
  }

  /** `u` starts with `0x` or `0X`, which switches `parseInt` without a
      radix argument to radix 16. */
  predicate PrefijoHex(u: string) {
    |u| >= 2 && u[0] == '0' && (u[1] == 'x' || u[1] == 'X')
  }

  /** `parseInt(s)` without a radix argument: leading whitespace, an
      optional sign, then the longest run of decimal digits, or of
      hexadecimal digits after a `0x`/`0X` prefix. `None` plays the role
      of `NaN`, which is what `parseInt` yields when that run is empty. */
  function ParseInt(s: string): (r: Option<int>)
    ensures r.None? <==>
      var u := SinSigno(SinEspacios(s));
      if PrefijoHex(u) then |u| == 2 || !EsCifra(u[2], 16)
      else u == [] || !EsDigito(u[0])
    ensures var t := SinEspacios(s);
      r.Some? && r.value != 0 ==> (r.value < 0 <==> t[0] == '-')
  {
    var t := SinEspacios(s);
    var u := SinSigno(t);
    var base := if PrefijoHex(u) then 16 else 10;
    var cs := if PrefijoHex(u) then u[2..] else u;
    var k := LargoCifras(cs, base);
    if k == 0 then None
    else
      var v: int := ValorEn(cs[..k], base);
      if t[0] == '-' then Some(-v) else Some(v)
  }

  /** `parseInt(s) || 0`: `NaN` falls back to zero, so a blank form field
      or one holding no number reads as zero. */
  function EnteroOCero(s: string): (r: int)
    ensures ParseInt(s).None? ==> r == 0
    ensures ParseInt(s).Some? ==> r == ParseInt(s).value
    ensures SinEspacios(s) == [] ==> r == 0
  {
    ParseInt(s).GetOr(0)
  }

  /** The decimal digits of `n` without leading zeros. */
  function Digitos(n: nat): (r: string)
    ensures |r| >= 1 && SoloDigitos(r)
    ensures ValorEn(r, 10) == n
    ensures r[0] == '0' <==> n == 0
    decreases n
  {
    if n < 10 then [CharDigito(n)]
    else
      var r := Digitos(n / 10) + [CharDigito(n % 10)];
      assert r[..|r| - 1] == Digitos(n / 10);
      r
  }

  /** `n.toString()` for an integer value: a minus sign exactly for a
      negative number, then the digits of its magnitude, with no leading
      zero unless the number is zero. */
  function Mostrar(n: int): (r: string)
    ensures |r| >= 1 && !EsEspacio(r[0])
    ensures r[0] == '-' <==> n < 0
    ensures var ds := if n < 0 then r[1..] else r;
      && |ds| >= 1 && SoloDigitos(ds)
      && ValorEn(ds, 10) == (if n < 0 then -n else n)
      && (ds[0] == '0' <==> n == 0)
  {
    if n < 0 then "-" + Digitos(-n) else Digitos(n)
  }

  /** What `parseInt` sees in the text of an integer: no whitespace, the
      digits right after the optional minus sign, no hexadecimal prefix. */
  lemma MostrarEnPartes(n: int)
    ensures var s := Mostrar(n);
            var ds := if n < 0 then s[1..] else s;
            && SinEspacios(s) == s && SinSigno(s) == ds
            && !PrefijoHex(ds) && LargoCifras(ds, 10) == |ds|
  {
    var s := Mostrar(n);
    var ds := if n < 0 then s[1..] else s;
    assert SinEspacios(s) == s;
    assert !PrefijoHex(ds) by {
      if |ds| >= 2 { assert EsDigito(ds[1]); }
    }
  }

  /** Showing a safe integer and parsing it back gives the integer: the
      round trip a form makes when it shows a stored number for editing
      and parses it again on submit. */
  lemma ParseIntMostrar(n: int)
    requires -MaximoSeguro <= n <= MaximoSeguro
    ensures ParseInt(Mostrar(n)) == Some(n)
    ensures EnteroOCero(Mostrar(n)) == n
  {
    var s := Mostrar(n);
    var ds := if n < 0 then s[1..] else s;
    MostrarEnPartes(n);
    assert ds[..|ds|] == ds;
  }

  /** The text `toString` shows for any integer parses as a number, and
      as that very number when the integer is safe. */
  lemma MostrarSeLee(n: int)
    ensures ParseInt(Mostrar(n)).Some?
    ensures -MaximoSeguro <= n <= MaximoSeguro ==> EnteroOCero(Mostrar(n)) == n
  {
    if -MaximoSeguro <= n <= MaximoSeguro {
      ParseIntMostrar(n);
    } else {
      MostrarEnPartes(n);
    }
  }

  /** `parseInt` skips a leading no-break space and reads a hexadecimal
      number after `0x`, keeping the sign in front of the prefix. */
  lemma ParseIntHexadecimal()
    ensures ParseInt("\U{00A0}-0x1f") == Some(-31)
  {
    var s := "\U{00A0}-0x1f";
    var t := "-0x1f";
    SaltaNoSeparable(s, t);
    var u := t[1..];
    assert SinSigno(t) == u && u[0] == '0' && u[1] == 'x';
    var cs := u[2..];
    UnoEfeHexadecimal(cs);
    assert cs[..2] == cs;
  }

  lemma SaltaNoSeparable(s: string, t: string)
    requires s == "\U{00A0}-0x1f" && t == "-0x1f"
    ensures SinEspacios(s) == t
  {
    assert EsEspacio(s[0]) && s[1..] == t;
    assert t[0] == '-' && !EsEspacio(t[0]);
  }

  lemma UnoEfeHexadecimal(cs: string)
    requires cs == "1f"
    ensures LargoCifras(cs, 16) == 2 && ValorEn(cs, 16) == 31
  {
    assert |cs| == 2 && cs[0] == '1' && cs[1] == 'f';
    assert LargoCifras(cs[1..], 16) == 1;
    assert cs[..1][..0] == [];
    assert ValorEn(cs[..1], 16) == 1;
  }

  /** `parseInt` stops at the first character that is not a digit. */
  lemma ParseIntPrefijo()
    ensures ParseInt("12px") == Some(12)
  {
    var s := "12px";
    assert !EsEspacio(s[0]) && s[0] == '1';
    assert SinEspacios(s) == s && SinSigno(s) == s && !PrefijoHex(s);
    assert LargoCifras(s[2..], 10) == 0;
    assert LargoCifras(s[1..], 10) == 1;
    assert LargoCifras(s, 10) == 2;
    var ds := s[..2];
    assert ds[..1][..0] == [];
    assert ValorEn(ds[..1], 10) == 1;
  }

  /** The value `parseInt` reads from decimal text in general: any
      leading whitespace, an optional sign, a run of decimal digits (leading
      zeros and `+` allowed, no `0x` prefix) and any tail that does not
      start with a digit give the signed value of the digits. */
  lemma {:induction false} ParseIntDecimal(w: string, signo: string, ds: string, x: string)
    requires forall i :: 0 <= i < |w| ==> EsEspacio(w[i])
    requires signo == "" || signo == "+" || signo == "-"
    requires |ds| >= 1 && SoloDigitos(ds)
    requires !PrefijoHex(ds + x)
    requires x == [] || !EsDigito(x[0])
    ensures var v: int := ValorEn(ds, 10);
            ParseInt(w + signo + ds + x) == Some(if signo == "-" then -v else v)
  {
    var t := signo + ds + x;
    PartesDecimales(w, signo, ds, x);
    ParseIntDecimalEnPartes(w + signo + ds + x, t, ds + x, |ds|, ValorEn(ds, 10), signo == "-");
  }

  /** What `ParseInt` needs to know about whitespace, a sign, a digit run
      and a tail, each established on its own. */
  lemma PartesDecimales(w: string, signo: string, ds: string, x: string)
    requires forall i :: 0 <= i < |w| ==> EsEspacio(w[i])
    requires signo == "" || signo == "+" || signo == "-"
    requires |ds| >= 1 && SoloDigitos(ds)
    requires x == [] || !EsDigito(x[0])
    ensures var t := signo + ds + x;
            && SinEspacios(w + signo + ds + x) == t
            && SinSigno(t) == ds + x && t != [] && (t[0] == '-' <==> signo == "-")
            && LargoCifras(ds + x, 10) == |ds| && (ds + x)[..|ds|] == ds
  {
    var t := signo + ds + x;
    SignoDecimal(signo, ds, x);
    SaltaEspaciosAntes(w, signo, ds, x);
    LargoDeDigitos(ds, x);
    assert (ds + x)[..|ds|] == ds;
  }

  /** An optional sign before a digit run: the text starts with neither
      whitespace nor any sign but its own. */
  lemma SignoDecimal(signo: string, ds: string, x: string)
    requires signo == "" || signo == "+" || signo == "-"
    requires |ds| >= 1 && EsDigito(ds[0])
    ensures var t := signo + ds + x;
            && t != [] && !EsEspacio(t[0])
            && SinSigno(t) == ds + x
            && (t[0] == '-' <==> signo == "-")
  {
    var t := signo + ds + x;
    if signo == [] {
      assert t == ds + x && t[0] == ds[0];
    } else {
      assert t[1..] == ds + x;
    }
  }

  lemma SaltaEspaciosAntes(w: string, signo: string, ds: string, x: string)
    requires forall i :: 0 <= i < |w| ==> EsEspacio(w[i])
    requires signo + ds + x != [] && !EsEspacio((signo + ds + x)[0])
    ensures SinEspacios(w + signo + ds + x) == signo + ds + x
  {
    var t := signo + ds + x;
    assert w + signo + ds + x == w + t;
    SaltaEspacios(w, t);
  }

  /** How `ParseInt` reads text whose whitespace, sign and digit run are
      already known, when it carries no hexadecimal prefix. */
  lemma ParseIntDecimalEnPartes(s: string, t: string, u: string, k: nat, v: int, negativo: bool)
    requires SinEspacios(s) == t && SinSigno(t) == u && !PrefijoHex(u)
    requires 1 <= k && LargoCifras(u, 10) == k && v == ValorEn(u[..k], 10)
    requires t != [] && (t[0] == '-' <==> negativo)
    ensures ParseInt(s) == Some(if negativo then -v else v)
  {
  }

  /** Leading whitespace is skipped whatever follows it. */
  lemma {:induction false} SaltaEspacios(w: string, t: string)
    requires forall i :: 0 <= i < |w| ==> EsEspacio(w[i])
    requires t == [] || !EsEspacio(t[0])
    ensures SinEspacios(w + t) == t
  {
    if w != [] {
      assert (w + t)[1..] == w[1..] + t;
      SaltaEspacios(w[1..], t);
    }
  }

  /** The digit run of `ds + x` is exactly `ds` when `x` does not start
      with a digit. */
  lemma {:induction false} LargoDeDigitos(ds: string, x: string)
    requires SoloDigitos(ds)
    requires x == [] || !EsDigito(x[0])
    ensures LargoCifras(ds + x, 10) == |ds|
  {
    if ds != [] {
      assert (ds + x)[1..] == ds[1..] + x;
      LargoDeDigitos(ds[1..], x);
    } else {
      assert ds + x == x;
    }
  }

  /** A hexadecimal prefix with no digit after it is `NaN`. */
  lemma ParseIntPrefijoVacio()
    ensures ParseInt("0x") == None
  {
    var s := "0x";
    assert !EsEspacio(s[0]);
    assert SinEspacios(s) == s && SinSigno(s) == s && PrefijoHex(s);
  }

  /** A sign with no digit after it is `NaN`. */
  lemma ParseIntSignoSolo()
    ensures ParseInt(" +") == None
  {
    var s := " +";
    assert EsEspacio(s[0]) && s[1..] == "+" && !EsEspacio('+');
    assert SinEspacios(s) == "+" && SinSigno("+") == [];
  }
}
