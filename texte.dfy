/** The parts of java.lang.String and java.lang.Integer that the application's
    rules depend on: trim, contains, indexOf, decimal printing and parsing,
    hexadecimal printing, upper-casing and single-character replace. */
module Texte {
  import opened Commun

  // ---------------------------------------------------------------- trim

  /** String.trim removes every leading and trailing char up to U+0020. */
  predicate EstEspaceTrim(c: char) {
    c <= ' '
  }

  function TrimDebut(s: string): (r: string)
    ensures |r| <= |s| && r == s[|s| - |r|..]
    ensures forall i :: 0 <= i < |s| - |r| ==> EstEspaceTrim(s[i])
    ensures r != [] ==> !EstEspaceTrim(r[0])
  {
    if s != [] && EstEspaceTrim(s[0]) then TrimDebut(s[1..]) else s
  }

  function TrimFin(s: string): (r: string)
    ensures |r| <= |s| && r == s[..|r|]
    ensures forall i :: |r| <= i < |s| ==> EstEspaceTrim(s[i])
  {
    if s != [] && EstEspaceTrim(s[|s| - 1]) then TrimFin(s[..|s| - 1]) else s
  }

  function Trim(s: string): string {
    TrimFin(TrimDebut(s))
  }

  /** `s.trim().isEmpty()` holds exactly when every char of `s` is at most U+0020. */
  lemma TrimVide(s: string)
    ensures Trim(s) == [] <==> forall i :: 0 <= i < |s| ==> EstEspaceTrim(s[i])
  {
    var d := TrimDebut(s);
    if d != [] {
      assert TrimFin(d) != [] by {
        assert !EstEspaceTrim(d[0]);
      }
      assert !EstEspaceTrim(s[|s| - |d|]);
    }
  }

  // ------------------------------------------------------ contains, indexOf

  /** `s.contains(motif)`. */
  function Contient(s: string, motif: string): bool
    decreases |s|
  {
    if motif <= s then true
    else if s == [] then false
    else Contient(s[1..], motif)
  }

  /** A string contains anything placed inside it. */
  lemma {:induction false} ContientMilieu(a: string, motif: string, b: string)
    ensures Contient(a + motif + b, motif)
  {
    if a == [] {
      assert a + motif + b == motif + b;
    } else {
      ContientMilieu(a[1..], motif, b);
      assert (a + motif + b)[1..] == a[1..] + motif + b;
    }
  }

  /** A string cannot contain a pattern whose first char it lacks. */
  lemma {:induction false} ContientPremierCaractere(s: string, motif: string)
    requires motif != [] && motif[0] !in s
    ensures !Contient(s, motif)
  {
    if s != [] {
      assert s[0] in s;
      ContientPremierCaractere(s[1..], motif);
    }
  }

  /** `s.indexOf(c)`: the first position of `c`, or -1. */
  function IndexOf(s: string, c: char): (r: int)
    ensures -1 <= r < |s|
    ensures r == -1 <==> c !in s
    ensures r >= 0 ==> s[r] == c && c !in s[..r]
  {
    if s == [] then -1
    else if s[0] == c then 0
    else
      var k := IndexOf(s[1..], c);
      assert s == [s[0]] + s[1..];
      if k == -1 then -1
      else
        assert s[..k + 1] == [s[0]] + s[1..][..k];
        k + 1
  }

  // ------------------------------------------------------- decimal numbers

  predicate EstChiffre(c: char) {
    '0' <= c <= '9'
  }

  function Chiffre(d: nat): (c: char)
    requires d < 10
    ensures EstChiffre(c) && c as int - '0' as int == d
  {
    (d + '0' as int) as char
  }

  /** `Integer.toString(n)` for a non-negative `n`. */
  function EnDecimal(n: nat): (r: string)
    ensures r != [] && forall i :: 0 <= i < |r| ==> EstChiffre(r[i])
  {
    if n < 10 then [Chiffre(n)] else EnDecimal(n / 10) + [Chiffre(n % 10)]
  }

  /** The value of a run of decimal digits. */
  function ValeurChiffres(s: string): nat
    requires QueDesChiffres(s)
  {
    if s == [] then 0
    else
      assert EstChiffre(s[|s| - 1]);
      ValeurChiffres(s[..|s| - 1]) * 10 + (s[|s| - 1] as int - '0' as int)
  }

  predicate QueDesChiffres(s: string) {
    forall i :: 0 <= i < |s| ==> EstChiffre(s[i])
  }

  /** `Integer.parseInt(s)`: an optional sign then at least one decimal digit;
      anything else throws NumberFormatException (here `None`). */
  function ParseInt(s: string): (r: Option<int>)
    ensures r.Some? ==> s != []
  {
    if s == [] then None
    else if s[0] == '-' || s[0] == '+' then
      if |s| > 1 && QueDesChiffres(s[1..]) then
        var v: int := ValeurChiffres(s[1..]);
        Some(if s[0] == '-' then -v else v)
      else None
    else if QueDesChiffres(s) then Some(ValeurChiffres(s))
    else None
  }

  lemma {:induction false} ValeurEnDecimal(n: nat)
    ensures ValeurChiffres(EnDecimal(n)) == n
  {
    if n >= 10 {
      ValeurEnDecimal(n / 10);
      var s := EnDecimal(n);
      assert s[..|s| - 1] == EnDecimal(n / 10);
    }
  }

  /** Printing a natural number in decimal and parsing it back gives the number. */
  lemma ParseEnDecimal(n: nat)
    ensures ParseInt(EnDecimal(n)) == Some(n)
  {
    ValeurEnDecimal(n);
  }

  // --------------------------------------------------- hexadecimal numbers

  /** A lowercase hexadecimal digit, as Integer.toHexString prints it. */
  function ChiffreHex(d: nat): (c: char)
    requires d < 16
    ensures '0' <= c <= '9' || 'a' <= c <= 'f'
  {
    if d < 10 then (d + '0' as int) as char else (d - 10 + 'a' as int) as char
  }

  /** `Integer.toHexString(n)` for a non-negative `n`: lowercase, no leading zero. */
  function EnHexadecimal(n: nat): (r: string)
    ensures r != []
  {
    if n < 16 then [ChiffreHex(n)] else EnHexadecimal(n / 16) + [ChiffreHex(n % 16)]
  }

  // ------------------------------------------------ upper case and replace

  /** `Character.toUpperCase` restricted to ASCII letters and the accented
      lowercase letters é, è and à; every other char is left unchanged. */
  function MajusculeCar(c: char): char {
    if 'a' <= c <= 'z' then (c as int - 'a' as int + 'A' as int) as char
    else if c == 'é' then 'É'
    else if c == 'è' then 'È'
    else if c == 'à' then 'À'
    else c
  }

  /** `s.toUpperCase()` under the same restriction. */
  function Majuscules(s: string): (r: string)
    ensures |r| == |s| && forall i :: 0 <= i < |s| ==> r[i] == MajusculeCar(s[i])
  {
    if s == [] then [] else [MajusculeCar(s[0])] + Majuscules(s[1..])
  }

  /** `s.replace(de, vers)` for one-char strings `de` and `vers`. */
  function Remplacer(s: string, de: char, vers: char): (r: string)
    ensures |r| == |s|
    ensures forall i :: 0 <= i < |s| ==> r[i] == if s[i] == de then vers else s[i]
  {
    if s == [] then [] else [if s[0] == de then vers else s[0]] + Remplacer(s[1..], de, vers)
  }
}
