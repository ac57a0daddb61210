/** ValidationUtil: static checks that either return normally or throw a
    ValidationException naming the offending field. */
module Util {
  import opened Commun
  import opened Texte

  /** One constructor per message the checks can throw. */
  datatype ValidationException =
    | ChampVide(champ: string)
    | LongueurInsuffisante(champ: string, longueurMin: int)
    | EmailInvalide
    | MontantNonPositif(champ: string)
    | EntierNonPositif(champ: string)
    | DateNonFuture(champ: string)

  /** `estVide`: null, or nothing left once trimmed. */
  function EstVide(s: Option<string>): (vide: bool)
    ensures vide <==> s.None? || forall i :: 0 <= i < |s.value| ==> EstEspaceTrim(s.value[i])
  {
    if s.None? then true
    else
      TrimVide(s.value);
      Trim(s.value) == []
  }

  /** `validerNonVide`: passes exactly when the string holds a char above U+0020. */
  function ValiderNonVide(s: Option<string>, champ: string): (r: Outcome<ValidationException>)
    ensures r == Pass <==> s.Some? && exists i :: 0 <= i < |s.value| && !EstEspaceTrim(s.value[i])
    ensures r.Fail? ==> r.error == ChampVide(champ)
  {
    if EstVide(s) then Fail(ChampVide(champ)) else Pass
  }

  /** `validerLongueurMin`: the emptiness check comes first; the length compared
      with the minimum is that of the untrimmed string. */
  function ValiderLongueurMin(s: Option<string>, longueurMin: int, champ: string): (r: Outcome<ValidationException>)
    ensures r == Pass <==> !EstVide(s) && |s.value| >= longueurMin
    ensures r == Fail(ChampVide(champ)) <==> EstVide(s)
    ensures r == Fail(LongueurInsuffisante(champ, longueurMin)) <==> !EstVide(s) && |s.value| < longueurMin
  {
    match ValiderNonVide(s, champ)
    case Fail(e) => Fail(e)
    case Pass => if |s.value| < longueurMin then Fail(LongueurInsuffisante(champ, longueurMin)) else Pass
  }

  // ------------------------------------------------------------ EMAIL_PATTERN

  /** The class `[A-Za-z0-9+_.-]`. */
  predicate CaractereLocal(c: char) {
    'A' <= c <= 'Z' || 'a' <= c <= 'z' || '0' <= c <= '9' || c == '+' || c == '_' || c == '.' || c == '-'
  }

  /** The line terminators that `.` does not match in java.util.regex without DOTALL. */
  predicate FinDeLigne(c: char) {
    c == '\n' || c == '\r' || c == '\U{0085}' || c == '\U{2028}' || c == '\U{2029}'
  }

  /** `^[A-Za-z0-9+_.-]+@(.+)$` matches the whole of `s` with its '@' at `k`. */
  predicate CorrespondA(s: string, k: int) {
    && 0 < k < |s| - 1
    && (forall i :: 0 <= i < k ==> CaractereLocal(s[i]))
    && s[k] == '@'
    && (forall i :: k < i < |s| ==> !FinDeLigne(s[i]))
  }

  /** The length of the longest prefix of `s` made of class characters. */
  function LongueurLocale(s: string): (n: nat)
    ensures n <= |s|
    ensures forall i :: 0 <= i < n ==> CaractereLocal(s[i])
    ensures n < |s| ==> !CaractereLocal(s[n])
  {
    if s != [] && CaractereLocal(s[0]) then 1 + LongueurLocale(s[1..]) else 0
  }

  /** `EMAIL_PATTERN.matcher(s).matches()`. Since '@' is not a class character,
      the only split the regex can use is at the first char outside the class. */
  function CorrespondEmail(s: string): (r: bool)
    ensures r <==> exists k :: CorrespondA(s, k)
  {
    var n := LongueurLocale(s);
    assert forall k :: CorrespondA(s, k) ==> k == n by {
      forall k | CorrespondA(s, k) ensures k == n {
        assert !CaractereLocal(s[k]);
        assert n < |s| ==> !CaractereLocal(s[n]);
      }
    }
    CorrespondA(s, n)
  }

  /** `validerEmail`: a blank address is reported as an empty field, any other
      address that the pattern rejects as invalid. */
  function ValiderEmail(email: Option<string>): (r: Outcome<ValidationException>)
    ensures r == Pass <==> email.Some? && exists k :: CorrespondA(email.value, k)
    ensures r == Fail(ChampVide("email")) <==> EstVide(email)
    ensures r == Fail(EmailInvalide) <==> !EstVide(email) && !exists k :: CorrespondA(email.value, k)
  {
    assert email.Some? && CorrespondEmail(email.value) ==> !EstEspaceTrim(email.value[0]) by {
      if email.Some? && CorrespondEmail(email.value) {
        var k :| CorrespondA(email.value, k);
        assert CaractereLocal(email.value[0]);
      }
    }
    match ValiderNonVide(email, "email")
    case Fail(e) => Fail(e)
    case Pass => if CorrespondEmail(email.value) then Pass else Fail(EmailInvalide)
  }

  // ------------------------------------------------------------ numbers, dates

  /** `validerMontantPositif`: null and every amount up to and including zero fail. */
  function ValiderMontantPositif(montant: Option<real>, champ: string): (r: Outcome<ValidationException>)
    ensures r == Pass <==> montant.Some? && montant.value > 0.0
    ensures r.Fail? ==> r.error == MontantNonPositif(champ)
  {
    if montant.None? || montant.value <= 0.0 then Fail(MontantNonPositif(champ)) else Pass
  }

  /** `validerEntierPositif`. */
  function ValiderEntierPositif(valeur: int, champ: string): (r: Outcome<ValidationException>)
    ensures r == Pass <==> valeur >= 1
    ensures r.Fail? ==> r.error == EntierNonPositif(champ)
  {
    if valeur <= 0 then Fail(EntierNonPositif(champ)) else Pass
  }

  /** `validerDateFuture`: fails for null and for instants strictly before
      `maintenant`; the current instant itself passes. */
  function ValiderDateFuture(date: Option<int>, maintenant: int, champ: string): (r: Outcome<ValidationException>)
    ensures r == Pass <==> date.Some? && date.value >= maintenant
    ensures r.Fail? ==> r.error == DateNonFuture(champ)
  {
    if date.None? || date.value < maintenant then Fail(DateNonFuture(champ)) else Pass
  }
}
