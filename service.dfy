/** Package `service`: the business rules of the Long-keyed stack, between the
    controller and FabriqueDAO's tables. Each service checks its arguments in
    a fixed order and throws a ServiceException at the first failing check;
    DAO failures are rethrown as ServiceException too. */
module Service {
  import opened Commun
  import opened Texte
  import opened Util
  import opened Modele
  import opened Fabrique

  /** One constructor per ServiceException message. */
  datatype Motif =
    | NomVide | PrenomVide | EmailVide | MotDePasseVide
    | CapaciteNonPositive | DureeNonPositive | PrixNegatif
    | IdNul
    | UtilisateurIdNul | AttractionIdNul | DateReservationNulle | NombrePersonnesNonPositif
    | UtilisateurNonTrouve | AttractionNonTrouvee | ReservationNonTrouvee
    | EmailNonTrouve | MotDePasseIncorrect | EmailDejaUtilise
    | AttractionIndisponible | StatutVide
    | SuppressionImpossible
    | ErreurDao

  /** What a service call throws: its own checked exception, or the
      NullPointerException a null argument causes further down. */
  datatype Echec = ServiceException(motif: Motif) | NullPointerException

  // ============================================== hexadecimal of a digest

  /** A Java `byte`. */
  type Octet = b: int | -128 <= b <= 127

  /** `0xff & b`: the byte read as unsigned. */
  function NonSigne(b: Octet): (v: nat)
    ensures v < 256 && (v - b) % 256 == 0
  {
    if b < 0 then b + 256 else b
  }

  /** The inverse of `NonSigne`: the byte whose unsigned value is `v`. */
  function Signe(v: nat): Octet
    requires v < 256
  {
    if v >= 128 then v - 256 else v
  }

  predicate ChiffreHexMinuscule(c: char) {
    '0' <= c <= '9' || 'a' <= c <= 'f'
  }

  /** The value of a lowercase hexadecimal digit. */
  function ValeurHex(c: char): (v: nat)
    ensures v < 16
  {
    if '0' <= c <= '9' then c as int - '0' as int
    else if 'a' <= c <= 'f' then c as int - 'a' as int + 10
    else 0
  }

  /** The hex digits built by `hacher` for one byte: `Integer.toHexString(0xff & b)`,
      with a '0' in front when it has a single digit. */
  function HexOctet(b: Octet): (h: string)
    ensures |h| == 2 && ChiffreHexMinuscule(h[0]) && ChiffreHexMinuscule(h[1])
    ensures 16 * ValeurHex(h[0]) + ValeurHex(h[1]) == NonSigne(b)
  {
    var v := NonSigne(b);
    var hex := EnHexadecimal(v);
    DeuxChiffresAuPlus(v);
    if |hex| == 1 then "0" + hex else hex
  }

  /** `Integer.toHexString` of a value below 256: one digit below 16, two from 16 on. */
  lemma DeuxChiffresAuPlus(v: nat)
    requires v < 256
    ensures v < 16 ==> EnHexadecimal(v) == [ChiffreHex(v)] && ValeurHex(ChiffreHex(v)) == v
    ensures v >= 16 ==> EnHexadecimal(v) == [ChiffreHex(v / 16), ChiffreHex(v % 16)] &&
                        ValeurHex(ChiffreHex(v / 16)) == v / 16 && ValeurHex(ChiffreHex(v % 16)) == v % 16
  {
    if v >= 16 {
      assert EnHexadecimal(v / 16) == [ChiffreHex(v / 16)];
    }
  }

  /** The lowercase, zero-padded hexadecimal text of a digest. */
  function Hex(octets: seq<Octet>): (h: string)
    ensures |h| == 2 * |octets|
    ensures forall i :: 0 <= i < |h| ==> ChiffreHexMinuscule(h[i])
  {
    if octets == [] then []
    else Hex(octets[..|octets| - 1]) + HexOctet(octets[|octets| - 1])
  }

  /** Reads a digest back from its hexadecimal text, two digits per byte. */
  function DecoderHex(h: string): seq<Octet>
    decreases |h|
  {
    if |h| < 2 then []
    else DecoderHex(h[..|h| - 2]) + [Signe(16 * ValeurHex(h[|h| - 2]) + ValeurHex(h[|h| - 1]))]
  }

  /** Reading two more digits appends one byte. */
  lemma DecoderHexAjout(t: string, d: string)
    requires |d| == 2
    ensures DecoderHex(t + d) == DecoderHex(t) + [Signe(16 * ValeurHex(d[0]) + ValeurHex(d[1]))]
  {
    var h := t + d;
    assert h[..|h| - 2] == t;
  }

  /** The hexadecimal text of a digest reads back as that digest. */
  lemma {:induction false} DecoderHexInverse(octets: seq<Octet>)
    ensures DecoderHex(Hex(octets)) == octets
  {
    if octets != [] {
      var debut, b := octets[..|octets| - 1], octets[|octets| - 1];
      DecoderHexInverse(debut);
      var d := HexOctet(b);
      DecoderHexAjout(Hex(debut), d);
      assert Signe(16 * ValeurHex(d[0]) + ValeurHex(d[1])) == b;
      assert octets == debut + [b];
    }
  }

  /** Two digests have the same text exactly when they are equal: comparing
      stored hashes as strings compares the digests. */
  lemma HexInjectif(a: seq<Octet>, b: seq<Octet>)
    ensures Hex(a) == Hex(b) <==> a == b
  {
    if Hex(a) == Hex(b) {
      DecoderHexInverse(a);
      DecoderHexInverse(b);
    }
  }

  // ====================================================== ServiceAttraction

  /** The attraction after `mettreAJour`'s setters: the name, capacity,
      duration, price, minimum age and minimum height are replaced exactly
      when the new value is acceptable; description, availability and image
      are always replaced. */
  function Fusionner(a: Attraction, nom: Option<string>, description: Option<string>, capacite: int, duree: int,
                     prix: Option<real>, ageMinimum: int, tailleMinimum: int, estDisponible: bool,
                     imageUrl: Option<string>): (b: Attraction)
    ensures b.id == a.id && b.dateCreation == a.dateCreation && b.dateModification == a.dateModification
    ensures !EstVide(nom) ==> b.nom == nom.value
    ensures EstVide(nom) ==> b.nom == a.nom
    ensures capacite > 0 ==> b.capacite == capacite
    ensures capacite <= 0 ==> b.capacite == a.capacite
    ensures duree > 0 ==> b.duree == duree
    ensures duree <= 0 ==> b.duree == a.duree
    ensures prix.Some? && prix.value >= 0.0 ==> b.prix == prix.value
    ensures prix.None? || prix.value < 0.0 ==> b.prix == a.prix
    ensures ageMinimum >= 0 ==> b.ageMiniRequis == ageMinimum
    ensures ageMinimum < 0 ==> b.ageMiniRequis == a.ageMiniRequis
    ensures tailleMinimum >= 0 ==> b.tailleMinRequise == tailleMinimum
    ensures tailleMinimum < 0 ==> b.tailleMinRequise == a.tailleMinRequise
    ensures b.description == description && b.estDisponible == estDisponible && b.imageUrl == imageUrl
  {
    var n := if !EstVide(nom) then nom.value else a.nom;
    var c := if capacite > 0 then capacite else a.capacite;
    var d := if duree > 0 then duree else a.duree;
    var p := if prix.Some? && prix.value >= 0.0 then prix.value else a.prix;
    var g := if ageMinimum >= 0 then ageMinimum else a.ageMiniRequis;
    var t := if tailleMinimum >= 0 then tailleMinimum else a.tailleMinRequise;
    Attraction(a.id, n, description, p, c, d, g, t, imageUrl, estDisponible, a.dateCreation, a.dateModification)
  }

  /** What `creer` guarantees of an attraction it stores. */
  predicate AttractionValide(a: Attraction) {
    a.capacite > 0 && a.duree > 0 && a.prix >= 0.0
  }

  /** A valid attraction stays valid through any update. */
  lemma FusionnerPreserveValidite(a: Attraction, nom: Option<string>, description: Option<string>, capacite: int,
                                  duree: int, prix: Option<real>, ageMinimum: int, tailleMinimum: int,
                                  estDisponible: bool, imageUrl: Option<string>)
    requires AttractionValide(a)
    ensures AttractionValide(Fusionner(a, nom, description, capacite, duree, prix, ageMinimum, tailleMinimum,
                                       estDisponible, imageUrl))
  {
  }

  /** The same update applied twice gives what it gives once. */
  lemma FusionnerIdempotent(a: Attraction, nom: Option<string>, description: Option<string>, capacite: int,
                            duree: int, prix: Option<real>, ageMinimum: int, tailleMinimum: int,
                            estDisponible: bool, imageUrl: Option<string>)
    ensures var b := Fusionner(a, nom, description, capacite, duree, prix, ageMinimum, tailleMinimum, estDisponible, imageUrl);
            Fusionner(b, nom, description, capacite, duree, prix, ageMinimum, tailleMinimum, estDisponible, imageUrl) == b
  {
  }

  /** An update of stored attraction `ancienne` by an `a` carrying its key,
      creation date and the new modification date replaces that row by `a`. */
  lemma MiseAJourAttraction(avant: seq<Attraction>, apres: seq<Attraction>, ancienne: Attraction, a: Attraction,
                            maintenant: int)
    requires ClesDistinctes(avant, CleAttraction)
    requires ancienne in avant && a.id == ancienne.id && a.dateCreation == ancienne.dateCreation
    requires a.dateModification == maintenant
    requires AttractionsMisesAJour(avant, apres, a, maintenant)
    ensures Remplace(avant, apres, AttractionDeCle(a.id), a)
  {
    var k :| 0 <= k < |avant| && avant[k] == ancienne;
    forall i | 0 <= i < |avant| && avant[i].id == a.id
      ensures avant[i] == ancienne
    {
      assert CleAttraction(avant[i]) == CleAttraction(avant[k]);
    }
  }

  class ServiceAttraction {
    const db: Tables

    constructor (db: Tables)
      ensures this.db == db
    {
      this.db := db;
    }

    /** `creer`: the name, capacity, duration and price are checked in that
        order; a valid attraction is stored with the given fields, created and
        modified `maintenant`. */
    method Creer(nom: Option<string>, description: Option<string>, capacite: int, duree: int, prix: Option<real>,
                 ageMinimum: int, tailleMinimum: int, estDisponible: bool, imageUrl: Option<string>,
                 maintenant: int, echec: bool)
      returns (r: Result<Attraction, Echec>)
      requires db.Valid()
      modifies db
      ensures db.Valid()
      ensures EstVide(nom) ==> r == Err(ServiceException(NomVide))
      ensures !EstVide(nom) && capacite <= 0 ==> r == Err(ServiceException(CapaciteNonPositive))
      ensures !EstVide(nom) && capacite > 0 && duree <= 0 ==> r == Err(ServiceException(DureeNonPositive))
      ensures !EstVide(nom) && capacite > 0 && duree > 0 && (prix.None? || prix.value < 0.0) ==>
                r == Err(ServiceException(PrixNegatif))
      ensures r.Ok? <==> !EstVide(nom) && capacite > 0 && duree > 0 && prix.Some? && prix.value >= 0.0 && !echec
      ensures r.Err? ==> db.attractions == old(db.attractions)
      ensures r.Ok? ==> AttractionValide(r.value) && !EstVide(Some(r.value.nom)) &&
                        r.value == Attraction(old(db.prochainAttraction), nom.value, description, prix.value, capacite, duree,
                                              ageMinimum, tailleMinimum, imageUrl, estDisponible, maintenant, maintenant) &&
                        db.attractions == old(db.attractions) + [r.value]
      ensures db.utilisateurs == old(db.utilisateurs) && db.reservations == old(db.reservations)
    {
      if EstVide(nom) {
        return Err(ServiceException(NomVide));
      }
      if capacite <= 0 {
        return Err(ServiceException(CapaciteNonPositive));
      }
      if duree <= 0 {
        return Err(ServiceException(DureeNonPositive));
      }
      if prix.None? || prix.value < 0.0 {
        return Err(ServiceException(PrixNegatif));
      }
      var attraction := Attraction(0, nom.value, description, prix.value, capacite, duree, ageMinimum, tailleMinimum,
                                   imageUrl, estDisponible, maintenant, maintenant);
      var cree := db.CreerAttraction(attraction, echec);
      if cree.None? {
        return Err(ServiceException(ErreurDao));
      }
      r := Ok(cree.value);
    }

    /** `mettreAJour`: rejects a null or unknown key; otherwise the stored
        attraction becomes its `Fusionner` image, modified `maintenant`. */
    method MettreAJour(id: Option<int>, nom: Option<string>, description: Option<string>, capacite: int, duree: int,
                       prix: Option<real>, ageMinimum: int, tailleMinimum: int, estDisponible: bool,
                       imageUrl: Option<string>, maintenant: int, echec: bool)
      returns (r: Result<Attraction, Echec>)
      requires db.Valid()
      modifies db
      ensures db.Valid()
      ensures id.None? ==> r == Err(ServiceException(IdNul))
      ensures id.Some? && old(db.TrouverAttraction(id.value)).None? ==> r == Err(ServiceException(AttractionNonTrouvee))
      ensures r.Ok? <==> id.Some? && old(db.TrouverAttraction(id.value)).Some? && !echec
      ensures r.Err? ==> db.attractions == old(db.attractions)
      ensures r.Ok? ==> r.value == Fusionner(old(db.TrouverAttraction(id.value)).value, nom, description, capacite, duree,
                                             prix, ageMinimum, tailleMinimum, estDisponible, imageUrl)
                                     .(dateModification := maintenant)
      ensures r.Ok? ==> Remplace(old(db.attractions), db.attractions, AttractionDeCle(id.value), r.value)
      ensures db.utilisateurs == old(db.utilisateurs) && db.reservations == old(db.reservations)
    {
      if id.None? {
        return Err(ServiceException(IdNul));
      }
      var trouvee := db.TrouverAttraction(id.value);
      if trouvee.None? {
        return Err(ServiceException(AttractionNonTrouvee));
      }
      var ancienne := trouvee.value;
      var attraction := Fusionner(ancienne, nom, description, capacite, duree, prix, ageMinimum, tailleMinimum,
                                  estDisponible, imageUrl).(dateModification := maintenant);
      assert attraction.id == ancienne.id && attraction.dateCreation == ancienne.dateCreation;
      var ok := db.MettreAJourAttraction(attraction, maintenant, echec);
      if !ok {
        return Err(ServiceException(ErreurDao));
      }
      MiseAJourAttraction(old(db.attractions), db.attractions, ancienne, attraction, maintenant);
      r := Ok(attraction);
    }

    /** `supprimer`: fails for a null key and when no row was removed. */
    method Supprimer(id: Option<int>, echec: bool) returns (r: Outcome<Echec>)
      requires db.Valid()
      modifies db
      ensures db.Valid()
      ensures id.None? ==> r == Fail(ServiceException(IdNul))
      ensures r == Pass <==> id.Some? && !echec && exists i :: 0 <= i < |old(db.attractions)| && old(db.attractions)[i].id == id.value
      ensures id.Some? && !echec && r.Fail? ==> r == Fail(ServiceException(SuppressionImpossible))
      ensures r == Pass ==> db.attractions == Sans(old(db.attractions), AttractionDeCle(id.value))
      ensures r.Fail? ==> db.attractions == old(db.attractions)
      ensures db.utilisateurs == old(db.utilisateurs) && db.reservations == old(db.reservations)
    {
      if id.None? {
        return Fail(ServiceException(IdNul));
      }
      var supprime := db.SupprimerAttraction(id.value, echec);
      if echec {
        return Fail(ServiceException(ErreurDao));
      }
      if !supprime {
        SansRien(old(db.attractions), AttractionDeCle(id.value));
        return Fail(ServiceException(SuppressionImpossible));
      }
      r := Pass;
    }
  }

  // ===================================================== ServiceUtilisateur

  /** No two users share an email address. */
  predicate EmailsUniques(utilisateurs: seq<Utilisateur>) {
    forall i, j :: 0 <= i < j < |utilisateurs| ==> utilisateurs[i].email != utilisateurs[j].email
  }

  /** Rewriting rows without touching their emails keeps the emails unique. */
  lemma EmailsConserves(avant: seq<Utilisateur>, apres: seq<Utilisateur>)
    requires |apres| == |avant|
    requires forall i :: 0 <= i < |avant| ==> apres[i].email == avant[i].email
    ensures EmailsUniques(avant) ==> EmailsUniques(apres)
  {
  }

  /** A user appended under a new email keeps the emails unique. */
  lemma EmailsUniquesAjout(avant: seq<Utilisateur>, u: Utilisateur)
    requires forall i :: 0 <= i < |avant| ==> avant[i].email != u.email
    ensures EmailsUniques(avant) ==> EmailsUniques(avant + [u])
  {
    var apres := avant + [u];
    forall i, j | 0 <= i < j < |apres| && EmailsUniques(avant)
      ensures apres[i].email != apres[j].email
    {
      assert apres[i] == avant[i];
      if j < |avant| {
        assert apres[j] == avant[j];
      }
    }
  }

  /** An update of stored row `ancien` by a `u` carrying its key, creation date
      and the new modification date replaces that row by `u`; if `u` keeps
      its email, emails stay unique. */
  lemma MiseAJourRemplace(avant: seq<Utilisateur>, apres: seq<Utilisateur>, ancien: Utilisateur, u: Utilisateur,
                          maintenant: int)
    requires ClesDistinctes(avant, CleUtilisateur)
    requires ancien in avant && u.id == ancien.id && u.dateCreation == ancien.dateCreation
    requires u.dateModification == maintenant
    requires UtilisateursMisAJour(avant, apres, u, maintenant)
    ensures Remplace(avant, apres, UtilisateurDeCle(u.id), u)
    ensures u.email == ancien.email && EmailsUniques(avant) ==> EmailsUniques(apres)
  {
    var k :| 0 <= k < |avant| && avant[k] == ancien;
    forall i | 0 <= i < |avant| && avant[i].id == u.id
      ensures avant[i] == ancien
    {
      assert CleUtilisateur(avant[i]) == CleUtilisateur(avant[k]);
    }
    if u.email == ancien.email {
      EmailsConserves(avant, apres);
    }
  }

  /** The fields of `creer` that must not be blank, all filled in. */
  predicate Renseignes(nom: Option<string>, prenom: Option<string>, email: Option<string>, motDePasse: Option<string>) {
    !EstVide(nom) && !EstVide(prenom) && !EstVide(email) && !EstVide(motDePasse)
  }

  class ServiceUtilisateur {
    const db: Tables
    /** SHA-256 of `motDePasse.getBytes()`. */
    const sha256: string -> seq<Octet>

    constructor (db: Tables, sha256: string -> seq<Octet>)
      ensures this.db == db && this.sha256 == sha256
    {
      this.db := db;
      this.sha256 := sha256;
    }

    /** `hacher`: the digest of the password, two hex digits per byte. */
    method Hacher(motDePasse: string) returns (hexString: string)
      ensures hexString == Hex(sha256(motDePasse))
      ensures |hexString| == 2 * |sha256(motDePasse)|
    {
      var hash := sha256(motDePasse);
      hexString := "";
      for i := 0 to |hash|
        invariant hexString == Hex(hash[..i])
      {
        var hex := EnHexadecimal(NonSigne(hash[i]));
        assert hash[..i + 1][..i] == hash[..i];
        assert Hex(hash[..i + 1]) == hexString + HexOctet(hash[i]);
        if |hex| == 1 {
          hexString := hexString + "0";
          assert hexString + hex == Hex(hash[..i + 1]);
        }
        hexString := hexString + hex;
      }
      assert hash[..|hash|] == hash;
    }

    /** `obtenirParEmail`: a blank email is rejected; otherwise the first user
        with that email, or none. */
    function ObtenirParEmail(email: Option<string>): (r: Result<Option<Utilisateur>, Echec>)
      reads db
      ensures r.Err? <==> EstVide(email)
      ensures r.Err? ==> r.error == ServiceException(EmailVide)
      ensures r.Ok? ==> (r.value.None? <==> forall i :: 0 <= i < |db.utilisateurs| ==> db.utilisateurs[i].email != email.value)
      ensures r.Ok? && r.value.Some? ==>
                exists i :: 0 <= i < |db.utilisateurs| && db.utilisateurs[i] == r.value.value &&
                            r.value.value.email == email.value &&
                            forall j :: 0 <= j < i ==> db.utilisateurs[j].email != email.value
    {
      if EstVide(email) then Err(ServiceException(EmailVide))
      else
        var utilisateurs := db.UtilisateursParEmail(email.value);
        SansPremier(db.utilisateurs, AutreEmail(email.value));
        if utilisateurs == [] then Ok(None) else Ok(Some(utilisateurs[0]))
    }

    /** What `connecter` returns: the checks on the arguments, then the user
        found by email, accepted only if its stored hash is the hash of the
        given password. */
    function Authentifier(email: Option<string>, motDePasse: Option<string>): (r: Result<Utilisateur, Echec>)
      reads db
      ensures r == Err(ServiceException(EmailVide)) <==> EstVide(email)
      ensures r == Err(ServiceException(MotDePasseVide)) <==> !EstVide(email) && EstVide(motDePasse)
      ensures r == Err(ServiceException(EmailNonTrouve)) <==>
                !EstVide(email) && !EstVide(motDePasse) &&
                forall i :: 0 <= i < |db.utilisateurs| ==> db.utilisateurs[i].email != email.value
      ensures r.Ok? ==> r.value in db.utilisateurs && r.value.email == email.value &&
                        r.value.motDePasse == Hex(sha256(motDePasse.value))
      ensures r.Ok? <==> !EstVide(email) && !EstVide(motDePasse) && ObtenirParEmail(email).value.Some? &&
                         ObtenirParEmail(email).value.value.motDePasse == Hex(sha256(motDePasse.value))
      ensures r.Ok? ==> r.value == ObtenirParEmail(email).value.value
      ensures r == Err(ServiceException(MotDePasseIncorrect)) <==>
                !EstVide(email) && !EstVide(motDePasse) && ObtenirParEmail(email).value.Some? &&
                ObtenirParEmail(email).value.value.motDePasse != Hex(sha256(motDePasse.value))
      ensures r.Ok? || r.error.ServiceException?
    {
      if EstVide(email) then Err(ServiceException(EmailVide))
      else if EstVide(motDePasse) then Err(ServiceException(MotDePasseVide))
      else
        var trouve := ObtenirParEmail(email);
        if trouve.value.None? then Err(ServiceException(EmailNonTrouve))
        else if trouve.value.value.motDePasse == Hex(sha256(motDePasse.value)) then Ok(trouve.value.value)
        else Err(ServiceException(MotDePasseIncorrect))
    }

    /** `connecter`. */
    method Connecter(email: Option<string>, motDePasse: Option<string>) returns (r: Result<Utilisateur, Echec>)
      ensures r == Authentifier(email, motDePasse)
    {
      if EstVide(email) {
        return Err(ServiceException(EmailVide));
      }
      if EstVide(motDePasse) {
        return Err(ServiceException(MotDePasseVide));
      }
      var trouve := ObtenirParEmail(email);
      if trouve.value.None? {
        return Err(ServiceException(EmailNonTrouve));
      }
      var utilisateur := trouve.value.value;
      var motDePasseHache := Hacher(motDePasse.value);
      if utilisateur.motDePasse != motDePasseHache {
        return Err(ServiceException(MotDePasseIncorrect));
      }
      r := Ok(utilisateur);
    }

    /** `creer`: the four text fields are checked in order, then the email
        must be unused; the user is stored with the hash of the password,
        created and modified `maintenant`. */
    method Creer(nom: Option<string>, prenom: Option<string>, email: Option<string>, motDePasse: Option<string>,
                 telephone: Option<string>, estAdmin: bool, maintenant: int, echec: bool)
      returns (r: Result<Utilisateur, Echec>)
      requires db.Valid()
      modifies db
      ensures db.Valid()
      ensures EstVide(nom) ==> r == Err(ServiceException(NomVide))
      ensures !EstVide(nom) && EstVide(prenom) ==> r == Err(ServiceException(PrenomVide))
      ensures !EstVide(nom) && !EstVide(prenom) && EstVide(email) ==> r == Err(ServiceException(EmailVide))
      ensures !EstVide(nom) && !EstVide(prenom) && !EstVide(email) && EstVide(motDePasse) ==>
                r == Err(ServiceException(MotDePasseVide))
      ensures Renseignes(nom, prenom, email, motDePasse) &&
              (exists i :: 0 <= i < |old(db.utilisateurs)| && old(db.utilisateurs)[i].email == email.value) ==>
                r == Err(ServiceException(EmailDejaUtilise))
      ensures r.Ok? <==> Renseignes(nom, prenom, email, motDePasse) && !echec &&
                         forall i :: 0 <= i < |old(db.utilisateurs)| ==> old(db.utilisateurs)[i].email != email.value
      ensures r.Err? ==> r.error.ServiceException? && db.utilisateurs == old(db.utilisateurs)
      ensures r.Ok? ==> r.value == Utilisateur(old(db.prochainUtilisateur), nom.value, prenom.value, email.value,
                                               Hex(sha256(motDePasse.value)), telephone, estAdmin, maintenant, maintenant) &&
                        db.utilisateurs == old(db.utilisateurs) + [r.value]
      ensures r.Ok? ==> Authentifier(email, motDePasse) == Ok(r.value)
      ensures EmailsUniques(old(db.utilisateurs)) ==> EmailsUniques(db.utilisateurs)
      ensures db.attractions == old(db.attractions) && db.reservations == old(db.reservations)
    {
      if EstVide(nom) {
        return Err(ServiceException(NomVide));
      }
      if EstVide(prenom) {
        return Err(ServiceException(PrenomVide));
      }
      if EstVide(email) {
        return Err(ServiceException(EmailVide));
      }
      if EstVide(motDePasse) {
        return Err(ServiceException(MotDePasseVide));
      }
      var existant := ObtenirParEmail(email);
      if existant.value.Some? {
        return Err(ServiceException(EmailDejaUtilise));
      }
      r := Enregistrer(nom.value, prenom.value, email.value, motDePasse.value, telephone, estAdmin, maintenant, echec);
    }

    /** The end of `creer`, once the checks have passed: the user is built with
        the hash of its password and handed to the data-access layer. */
    method Enregistrer(nom: string, prenom: string, email: string, motDePasse: string, telephone: Option<string>,
                       estAdmin: bool, maintenant: int, echec: bool)
      returns (r: Result<Utilisateur, Echec>)
      requires db.Valid()
      requires !EstVide(Some(email)) && !EstVide(Some(motDePasse))
      requires forall i :: 0 <= i < |db.utilisateurs| ==> db.utilisateurs[i].email != email
      modifies db
      ensures db.Valid()
      ensures r.Ok? <==> !echec
      ensures r.Err? ==> r == Err(ServiceException(ErreurDao)) && db.utilisateurs == old(db.utilisateurs)
      ensures r.Ok? ==> r.value == Utilisateur(old(db.prochainUtilisateur), nom, prenom, email, Hex(sha256(motDePasse)),
                                               telephone, estAdmin, maintenant, maintenant) &&
                        db.utilisateurs == old(db.utilisateurs) + [r.value]
      ensures r.Ok? ==> Authentifier(Some(email), Some(motDePasse)) == Ok(r.value)
      ensures EmailsUniques(old(db.utilisateurs)) ==> EmailsUniques(db.utilisateurs)
      ensures db.attractions == old(db.attractions) && db.reservations == old(db.reservations)
    {
      var hache := Hacher(motDePasse);
      var utilisateur := Utilisateur(0, nom, prenom, email, hache, telephone, estAdmin, maintenant, maintenant);
      var cree := db.CreerUtilisateur(utilisateur, echec);
      if cree.None? {
        return Err(ServiceException(ErreurDao));
      }
      var u := cree.value;
      AuthentifierApresAjout(old(db.utilisateurs), u, email, motDePasse);
      EmailsUniquesAjout(old(db.utilisateurs), u);
      r := Ok(u);
    }

    /** A user appended under an email no earlier user has is the one the
        email and password then authenticate. */
    lemma AuthentifierApresAjout(avant: seq<Utilisateur>, u: Utilisateur, email: string, motDePasse: string)
      requires db.utilisateurs == avant + [u]
      requires u.email == email && forall i :: 0 <= i < |avant| ==> avant[i].email != email
      requires !EstVide(Some(email)) && !EstVide(Some(motDePasse))
      requires u.motDePasse == Hex(sha256(motDePasse))
      ensures Authentifier(Some(email), Some(motDePasse)) == Ok(u)
    {
      var p := AutreEmail(email);
      SansAjout(avant, u, p);
      SansTout(avant, p);
      assert ObtenirParEmail(Some(email)) == Ok(Some(u));
    }

    /** The user after `mettreAJour`'s setters: name and first name change
        only to non-blank values, the password only to the hash of a
        non-blank one, the telephone always; the rest is kept. */
    function Modifie(u: Utilisateur, nom: Option<string>, prenom: Option<string>, telephone: Option<string>,
                     motDePasse: Option<string>): (v: Utilisateur)
      ensures v.id == u.id && v.email == u.email && v.admin == u.admin
      ensures v.dateCreation == u.dateCreation && v.dateModification == u.dateModification
      ensures !EstVide(nom) ==> v.nom == nom.value
      ensures EstVide(nom) ==> v.nom == u.nom
      ensures !EstVide(prenom) ==> v.prenom == prenom.value
      ensures EstVide(prenom) ==> v.prenom == u.prenom
      ensures !EstVide(motDePasse) ==> v.motDePasse == Hex(sha256(motDePasse.value))
      ensures EstVide(motDePasse) ==> v.motDePasse == u.motDePasse
      ensures v.telephone == telephone
    {
      u.(nom := if !EstVide(nom) then nom.value else u.nom,
         prenom := if !EstVide(prenom) then prenom.value else u.prenom,
         telephone := telephone,
         motDePasse := if !EstVide(motDePasse) then Hex(sha256(motDePasse.value)) else u.motDePasse)
    }

    /** The same profile update applied twice gives what it gives once. */
    lemma ModifieIdempotent(u: Utilisateur, nom: Option<string>, prenom: Option<string>, telephone: Option<string>,
                            motDePasse: Option<string>)
      ensures Modifie(Modifie(u, nom, prenom, telephone, motDePasse), nom, prenom, telephone, motDePasse) ==
              Modifie(u, nom, prenom, telephone, motDePasse)
    {
    }

    /** The setters of `mettreAJour`, in the order it calls them. */
    method AppliquerSetters(u: Utilisateur, nom: Option<string>, prenom: Option<string>, telephone: Option<string>,
                            motDePasse: Option<string>)
      returns (utilisateur: Utilisateur)
      ensures utilisateur == Modifie(u, nom, prenom, telephone, motDePasse)
    {
      var n, p, m := u.nom, u.prenom, u.motDePasse;
      if !EstVide(nom) {
        n := nom.value;
      }
      if !EstVide(prenom) {
        p := prenom.value;
      }
      if !EstVide(motDePasse) {
        m := Hacher(motDePasse.value);
      }
      utilisateur := u.(nom := n, prenom := p, telephone := telephone, motDePasse := m);
    }

    /** `mettreAJour`: rejects a null or unknown key; otherwise the stored
        user becomes its `Modifie` image, modified `maintenant`. */
    method MettreAJour(id: Option<int>, nom: Option<string>, prenom: Option<string>, telephone: Option<string>,
                       motDePasse: Option<string>, maintenant: int, echec: bool)
      returns (r: Result<Utilisateur, Echec>)
      requires db.Valid()
      modifies db
      ensures db.Valid()
      ensures id.None? ==> r == Err(ServiceException(IdNul))
      ensures id.Some? && old(db.TrouverUtilisateur(id.value)).None? ==> r == Err(ServiceException(UtilisateurNonTrouve))
      ensures r.Ok? <==> id.Some? && old(db.TrouverUtilisateur(id.value)).Some? && !echec
      ensures r.Err? ==> db.utilisateurs == old(db.utilisateurs)
      ensures r.Ok? ==> r.value == Modifie(old(db.TrouverUtilisateur(id.value)).value, nom, prenom, telephone, motDePasse)
                                     .(dateModification := maintenant)
      ensures r.Ok? ==> Remplace(old(db.utilisateurs), db.utilisateurs, UtilisateurDeCle(id.value), r.value)
      ensures EmailsUniques(old(db.utilisateurs)) ==> EmailsUniques(db.utilisateurs)
      ensures db.attractions == old(db.attractions) && db.reservations == old(db.reservations)
    {
      if id.None? {
        return Err(ServiceException(IdNul));
      }
      var trouve := db.TrouverUtilisateur(id.value);
      if trouve.None? {
        return Err(ServiceException(UtilisateurNonTrouve));
      }
      var ancien := trouve.value;
      var utilisateur := AppliquerSetters(ancien, nom, prenom, telephone, motDePasse);
      utilisateur := utilisateur.(dateModification := maintenant);
      assert utilisateur.id == ancien.id && utilisateur.email == ancien.email &&
             utilisateur.dateCreation == ancien.dateCreation;
      var ok := db.MettreAJourUtilisateur(utilisateur, maintenant, echec);
      if !ok {
        return Err(ServiceException(ErreurDao));
      }
      MiseAJourRemplace(old(db.utilisateurs), db.utilisateurs, ancien, utilisateur, maintenant);
      r := Ok(utilisateur);
    }

    /** `definirAdmin`: only the admin flag and the modification date change. */
    method DefinirAdmin(id: Option<int>, estAdmin: bool, maintenant: int, echec: bool)
      returns (r: Result<Utilisateur, Echec>)
      requires db.Valid()
      modifies db
      ensures db.Valid()
      ensures id.None? ==> r == Err(ServiceException(IdNul))
      ensures id.Some? && old(db.TrouverUtilisateur(id.value)).None? ==> r == Err(ServiceException(UtilisateurNonTrouve))
      ensures r.Ok? <==> id.Some? && old(db.TrouverUtilisateur(id.value)).Some? && !echec
      ensures r.Err? ==> db.utilisateurs == old(db.utilisateurs)
      ensures r.Ok? ==> r.value == old(db.TrouverUtilisateur(id.value)).value.(admin := estAdmin, dateModification := maintenant)
      ensures r.Ok? ==> Remplace(old(db.utilisateurs), db.utilisateurs, UtilisateurDeCle(id.value), r.value)
      ensures EmailsUniques(old(db.utilisateurs)) ==> EmailsUniques(db.utilisateurs)
      ensures db.attractions == old(db.attractions) && db.reservations == old(db.reservations)
    {
      if id.None? {
        return Err(ServiceException(IdNul));
      }
      var trouve := db.TrouverUtilisateur(id.value);
      if trouve.None? {
        return Err(ServiceException(UtilisateurNonTrouve));
      }
      var utilisateur := trouve.value.(admin := estAdmin, dateModification := maintenant);
      var ok := db.MettreAJourUtilisateur(utilisateur, maintenant, echec);
      if !ok {
        return Err(ServiceException(ErreurDao));
      }
      MiseAJourRemplace(old(db.utilisateurs), db.utilisateurs, trouve.value, utilisateur, maintenant);
      r := Ok(utilisateur);
    }

    /** `supprimer`: fails for a null key and when no row was removed. */
    method Supprimer(id: Option<int>, echec: bool) returns (r: Outcome<Echec>)
      requires db.Valid()
      modifies db
      ensures db.Valid()
      ensures id.None? ==> r == Fail(ServiceException(IdNul))
      ensures r == Pass <==> id.Some? && !echec && exists i :: 0 <= i < |old(db.utilisateurs)| && old(db.utilisateurs)[i].id == id.value
      ensures id.Some? && !echec && r.Fail? ==> r == Fail(ServiceException(SuppressionImpossible))
      ensures r == Pass ==> db.utilisateurs == Sans(old(db.utilisateurs), UtilisateurDeCle(id.value))
      ensures r.Fail? ==> db.utilisateurs == old(db.utilisateurs)
      ensures db.attractions == old(db.attractions) && db.reservations == old(db.reservations)
    {
      if id.None? {
        return Fail(ServiceException(IdNul));
      }
      var supprime := db.SupprimerUtilisateur(id.value, echec);
      if echec {
        return Fail(ServiceException(ErreurDao));
      }
      if !supprime {
        SansRien(old(db.utilisateurs), UtilisateurDeCle(id.value));
        return Fail(ServiceException(SuppressionImpossible));
      }
      r := Pass;
    }
  }

  // ===================================================== ServiceReservation

  /** The status every new reservation starts in. */
  const EnAttente := "En attente"

  /** The price of a reservation: the attraction's price times the number of
      people, as `BigDecimal.multiply` computes it. */
  function PrixTotal(prix: real, nombrePersonnes: int): real {
    prix * nombrePersonnes as real
  }

  /** The arguments `reserver` checks before any lookup, all acceptable. */
  predicate ArgumentsValides(utilisateurId: Option<int>, attractionId: Option<int>, dateReservation: Option<int>,
                             nombrePersonnes: int)
  {
    utilisateurId.Some? && attractionId.Some? && dateReservation.Some? && nombrePersonnes > 0
  }

  /** A list query as the service sees it: a statement the data-access layer
      rejects surfaces as a ServiceException. */
  function Lignes(requete: Option<seq<Reservation>>): Result<seq<Reservation>, Echec> {
    match requete
    case None => Err(ServiceException(ErreurDao))
    case Some(l) => Ok(l)
  }

  /** An update of stored reservation `ancien` by an `r` carrying its key and
      creation date and the new modification date replaces that row by `r`. */
  lemma MiseAJourReservation(avant: seq<Reservation>, apres: seq<Reservation>, ancien: Reservation, r: Reservation,
                             maintenant: int)
    requires ClesDistinctes(avant, CleReservation)
    requires ancien in avant && r.id == ancien.id && r.dateCreation == ancien.dateCreation
    requires r.dateModification == maintenant
    requires ReservationsMisesAJour(avant, apres, r, maintenant)
    ensures Remplace(avant, apres, ReservationDeCle(r.id), r)
  {
    var k :| 0 <= k < |avant| && avant[k] == ancien;
    forall i | 0 <= i < |avant| && avant[i].id == r.id
      ensures avant[i] == ancien
    {
      assert CleReservation(avant[i]) == CleReservation(avant[k]);
    }
  }

  class ServiceReservation {
    const db: Tables

    constructor (db: Tables)
      ensures this.db == db
    {
      this.db := db;
    }

    /** `obtenirParUtilisateur` as written: it asks the data-access layer for
        column "utilisateur.id", which table `reservations` does not have, so
        the query is rejected and every call with an id fails. */
    function ObtenirParUtilisateurTelQuel(utilisateurId: Option<int>): (r: Result<seq<Reservation>, Echec>)
      reads db
      ensures utilisateurId.None? ==> r == Err(ServiceException(UtilisateurIdNul))
      ensures utilisateurId.Some? ==> r == Err(ServiceException(ErreurDao))
    {
      if utilisateurId.None? then Err(ServiceException(UtilisateurIdNul))
      else
        Lignes(db.TrouverReservationsParAttribut("utilisateur.id", utilisateurId.value))
    }

    /** `obtenirParAttraction` as written, with column "attraction.id": it
        fails in the same way. */
    function ObtenirParAttractionTelQuel(attractionId: Option<int>): (r: Result<seq<Reservation>, Echec>)
      reads db
      ensures attractionId.None? ==> r == Err(ServiceException(AttractionIdNul))
      ensures attractionId.Some? ==> r == Err(ServiceException(ErreurDao))
    {
      if attractionId.None? then Err(ServiceException(AttractionIdNul))
      else
        Lignes(db.TrouverReservationsParAttribut("attraction.id", attractionId.value))
    }

    /** `obtenirParUtilisateur` with the column the data-access layer itself
        uses for this query ("utilisateur_id"): the user's joined reservations. */
    function ObtenirParUtilisateur(utilisateurId: Option<int>): (r: Result<seq<Reservation>, Echec>)
      reads db
      ensures r.Err? <==> utilisateurId.None?
      ensures r.Err? ==> r.error == ServiceException(UtilisateurIdNul)
      ensures r.Ok? ==> forall i :: 0 <= i < |r.value| ==>
                r.value[i] in db.reservations && r.value[i].utilisateurId == utilisateurId.value &&
                db.TrouverUtilisateur(r.value[i].utilisateurId).Some? && db.TrouverAttraction(r.value[i].attractionId).Some?
      ensures r.Ok? ==> forall i ::
                (0 <= i < |db.reservations| && db.reservations[i].utilisateurId == utilisateurId.value &&
                 db.TrouverUtilisateur(db.reservations[i].utilisateurId).Some? &&
                 db.TrouverAttraction(db.reservations[i].attractionId).Some?) ==> db.reservations[i] in r.value
    {
      if utilisateurId.None? then Err(ServiceException(UtilisateurIdNul))
      else
        Lignes(db.TrouverReservationsParAttribut("utilisateur_id", utilisateurId.value))
    }

    /** `obtenirParAttraction` with column "attraction_id": the attraction's
        joined reservations. */
    function ObtenirParAttraction(attractionId: Option<int>): (r: Result<seq<Reservation>, Echec>)
      reads db
      ensures r.Err? <==> attractionId.None?
      ensures r.Err? ==> r.error == ServiceException(AttractionIdNul)
      ensures r.Ok? ==> forall i :: 0 <= i < |r.value| ==>
                r.value[i] in db.reservations && r.value[i].attractionId == attractionId.value &&
                db.TrouverUtilisateur(r.value[i].utilisateurId).Some? && db.TrouverAttraction(r.value[i].attractionId).Some?
      ensures r.Ok? ==> forall i ::
                (0 <= i < |db.reservations| && db.reservations[i].attractionId == attractionId.value &&
                 db.TrouverUtilisateur(db.reservations[i].utilisateurId).Some? &&
                 db.TrouverAttraction(db.reservations[i].attractionId).Some?) ==> db.reservations[i] in r.value
    {
      if attractionId.None? then Err(ServiceException(AttractionIdNul))
      else
        Lignes(db.TrouverReservationsParAttribut("attraction_id", attractionId.value))
    }

    /** Where a user has a reservation the join keeps, the query as written
        fails while the corrected one lists it. */
    lemma ColonneErronee(utilisateurId: int, k: int)
      requires 0 <= k < |db.reservations| && db.reservations[k].utilisateurId == utilisateurId
      requires db.TrouverUtilisateur(utilisateurId).Some? && db.TrouverAttraction(db.reservations[k].attractionId).Some?
      ensures ObtenirParUtilisateurTelQuel(Some(utilisateurId)).Err?
      ensures ObtenirParUtilisateur(Some(utilisateurId)).Ok? &&
              db.reservations[k] in ObtenirParUtilisateur(Some(utilisateurId)).value
    {
    }

    /** `reserver`: the arguments are checked in order, then the user and the
        attraction are looked up and the attraction must be open; the new
        reservation costs the attraction's price per person and starts
        "En attente". A missing time passes the checks and makes the
        data-access layer throw a NullPointerException. */
    method Reserver(utilisateurId: Option<int>, attractionId: Option<int>, dateReservation: Option<int>,
                    heureReservation: Option<int>, nombrePersonnes: int, commentaire: Option<string>,
                    maintenant: int, echec: bool)
      returns (r: Result<Reservation, Echec>)
      requires db.Valid()
      modifies db
      ensures db.Valid()
      ensures utilisateurId.None? ==> r == Err(ServiceException(UtilisateurIdNul))
      ensures utilisateurId.Some? && attractionId.None? ==> r == Err(ServiceException(AttractionIdNul))
      ensures utilisateurId.Some? && attractionId.Some? && dateReservation.None? ==>
                r == Err(ServiceException(DateReservationNulle))
      ensures utilisateurId.Some? && attractionId.Some? && dateReservation.Some? && nombrePersonnes <= 0 ==>
                r == Err(ServiceException(NombrePersonnesNonPositif))
      ensures (ArgumentsValides(utilisateurId, attractionId, dateReservation, nombrePersonnes) &&
               old(db.TrouverUtilisateur(utilisateurId.value)).None?) ==>
                r == Err(ServiceException(UtilisateurNonTrouve))
      ensures (ArgumentsValides(utilisateurId, attractionId, dateReservation, nombrePersonnes) &&
               old(db.TrouverUtilisateur(utilisateurId.value)).Some? &&
               old(db.TrouverAttraction(attractionId.value)).None?) ==>
                r == Err(ServiceException(AttractionNonTrouvee))
      ensures ArgumentsValides(utilisateurId, attractionId, dateReservation, nombrePersonnes) &&
              old(db.TrouverUtilisateur(utilisateurId.value)).Some? &&
              old(db.TrouverAttraction(attractionId.value)).Some? &&
              !old(db.TrouverAttraction(attractionId.value)).value.estDisponible ==>
                r == Err(ServiceException(AttractionIndisponible))
      ensures ArgumentsValides(utilisateurId, attractionId, dateReservation, nombrePersonnes) &&
              old(db.TrouverUtilisateur(utilisateurId.value)).Some? &&
              old(db.TrouverAttraction(attractionId.value)).Some? &&
              old(db.TrouverAttraction(attractionId.value)).value.estDisponible && heureReservation.None? ==>
                r == Err(NullPointerException)
      ensures r.Ok? <==> ArgumentsValides(utilisateurId, attractionId, dateReservation, nombrePersonnes) &&
                         old(db.TrouverUtilisateur(utilisateurId.value)).Some? &&
                         old(db.TrouverAttraction(attractionId.value)).Some? &&
                         old(db.TrouverAttraction(attractionId.value)).value.estDisponible &&
                         heureReservation.Some? && !echec
      ensures r.Err? ==> db.reservations == old(db.reservations)
      ensures r.Ok? ==> r.value == Reservation(old(db.prochainReservation), utilisateurId.value, attractionId.value,
                                               dateReservation.value, heureReservation.value, nombrePersonnes,
                                               PrixTotal(old(db.TrouverAttraction(attractionId.value)).value.prix, nombrePersonnes),
                                               EnAttente, commentaire, maintenant, maintenant) &&
                        db.reservations == old(db.reservations) + [r.value]
      ensures r.Ok? ==> db.TrouverReservation(r.value.id) == Some(r.value)
      ensures db.utilisateurs == old(db.utilisateurs) && db.attractions == old(db.attractions)
    {
      if utilisateurId.None? {
        return Err(ServiceException(UtilisateurIdNul));
      }
      if attractionId.None? {
        return Err(ServiceException(AttractionIdNul));
      }
      if dateReservation.None? {
        return Err(ServiceException(DateReservationNulle));
      }
      if nombrePersonnes <= 0 {
        return Err(ServiceException(NombrePersonnesNonPositif));
      }
      var utilisateur := db.TrouverUtilisateur(utilisateurId.value);
      if utilisateur.None? {
        return Err(ServiceException(UtilisateurNonTrouve));
      }
      var attraction := db.TrouverAttraction(attractionId.value);
      if attraction.None? {
        return Err(ServiceException(AttractionNonTrouvee));
      }
      if !attraction.value.estDisponible {
        return Err(ServiceException(AttractionIndisponible));
      }
      r := Inserer(utilisateur.value, attraction.value, dateReservation.value, heureReservation, nombrePersonnes,
                   commentaire, maintenant, echec);
    }

    /** The end of `reserver`, once the user and the attraction are found: the
        row is built and handed to the data-access layer, which reads the time
        before it writes anything. */
    method Inserer(utilisateur: Utilisateur, attraction: Attraction, dateReservation: int, heureReservation: Option<int>,
                   nombrePersonnes: int, commentaire: Option<string>, maintenant: int, echec: bool)
      returns (r: Result<Reservation, Echec>)
      requires db.Valid()
      requires utilisateur in db.utilisateurs && attraction in db.attractions
      modifies db
      ensures db.Valid()
      ensures heureReservation.None? ==> r == Err(NullPointerException)
      ensures heureReservation.Some? && echec ==> r == Err(ServiceException(ErreurDao))
      ensures r.Ok? <==> heureReservation.Some? && !echec
      ensures r.Err? ==> db.reservations == old(db.reservations)
      ensures r.Ok? ==> r.value == Reservation(old(db.prochainReservation), utilisateur.id, attraction.id, dateReservation,
                                               heureReservation.value, nombrePersonnes,
                                               PrixTotal(attraction.prix, nombrePersonnes), EnAttente, commentaire,
                                               maintenant, maintenant) &&
                        db.reservations == old(db.reservations) + [r.value]
      ensures r.Ok? ==> db.TrouverReservation(r.value.id) == Some(r.value)
      ensures db.utilisateurs == old(db.utilisateurs) && db.attractions == old(db.attractions)
    {
      if heureReservation.None? {
        return Err(NullPointerException);
      }
      var prixTotal := PrixTotal(attraction.prix, nombrePersonnes);
      var reservation := Reservation(0, utilisateur.id, attraction.id, dateReservation, heureReservation.value,
                                     nombrePersonnes, prixTotal, EnAttente, commentaire, maintenant, maintenant);
      var sonUtilisateur, sonAttraction := db.TrouverUtilisateur(utilisateur.id), db.TrouverAttraction(attraction.id);
      assert sonUtilisateur.Some? && sonAttraction.Some?;
      var cree := db.CreerReservation(reservation, echec);
      if cree.None? {
        return Err(ServiceException(ErreurDao));
      }
      assert db.TrouverUtilisateur(utilisateur.id) == sonUtilisateur;
      assert db.TrouverAttraction(attraction.id) == sonAttraction;
      db.DerniereTrouvee(cree.value);
      r := Ok(cree.value);
    }

    /** `mettreAJourStatut`: rejects a null key or a blank status, and a
        reservation the data-access layer does not find; otherwise only the
        status and the modification date change, and the reservation is then
        found with its new status. */
    method MettreAJourStatut(id: Option<int>, statut: Option<string>, maintenant: int, echec: bool)
      returns (r: Result<Reservation, Echec>)
      requires db.Valid()
      modifies db
      ensures db.Valid()
      ensures id.None? ==> r == Err(ServiceException(IdNul))
      ensures id.Some? && EstVide(statut) ==> r == Err(ServiceException(StatutVide))
      ensures id.Some? && !EstVide(statut) && old(db.TrouverReservation(id.value)).None? ==>
                r == Err(ServiceException(ReservationNonTrouvee))
      ensures r.Ok? <==> id.Some? && !EstVide(statut) && old(db.TrouverReservation(id.value)).Some? && !echec
      ensures r.Err? ==> db.reservations == old(db.reservations)
      ensures r.Ok? ==> r.value == old(db.TrouverReservation(id.value)).value.(statut := statut.value,
                                                                               dateModification := maintenant)
      ensures r.Ok? ==> Remplace(old(db.reservations), db.reservations, ReservationDeCle(id.value), r.value)
      ensures r.Ok? ==> db.TrouverReservation(id.value) == Some(r.value)
      ensures db.utilisateurs == old(db.utilisateurs) && db.attractions == old(db.attractions)
    {
      if id.None? {
        return Err(ServiceException(IdNul));
      }
      if EstVide(statut) {
        return Err(ServiceException(StatutVide));
      }
      var trouvee := db.TrouverReservation(id.value);
      if trouvee.None? {
        return Err(ServiceException(ReservationNonTrouvee));
      }
      r := ChangerStatut(trouvee.value, statut.value, maintenant, echec);
    }

    /** The end of `mettreAJourStatut`, once the reservation is found: the new
        status is written back through the data-access layer. */
    method ChangerStatut(ancienne: Reservation, statut: string, maintenant: int, echec: bool)
      returns (r: Result<Reservation, Echec>)
      requires db.Valid() && db.TrouverReservation(ancienne.id) == Some(ancienne)
      modifies db
      ensures db.Valid()
      ensures r.Ok? <==> !echec
      ensures r.Err? ==> r == Err(ServiceException(ErreurDao)) && db.reservations == old(db.reservations)
      ensures r.Ok? ==> r.value == ancienne.(statut := statut, dateModification := maintenant)
      ensures r.Ok? ==> Remplace(old(db.reservations), db.reservations, ReservationDeCle(ancienne.id), r.value)
      ensures r.Ok? ==> db.TrouverReservation(ancienne.id) == Some(r.value)
      ensures db.utilisateurs == old(db.utilisateurs) && db.attractions == old(db.attractions)
    {
      var reservation := ancienne.(statut := statut, dateModification := maintenant);
      var utilisateur, attraction := db.TrouverUtilisateur(ancienne.utilisateurId), db.TrouverAttraction(ancienne.attractionId);
      assert utilisateur.Some? && attraction.Some?;
      var ok := db.MettreAJourReservation(reservation, maintenant, echec);
      if !ok {
        return Err(ServiceException(ErreurDao));
      }
      MiseAJourReservation(old(db.reservations), db.reservations, ancienne, reservation, maintenant);
      PremierTelRemplace(old(db.reservations), db.reservations, ReservationDeCle(ancienne.id), reservation);
      assert db.TrouverUtilisateur(reservation.utilisateurId) == utilisateur;
      assert db.TrouverAttraction(reservation.attractionId) == attraction;
      r := Ok(reservation);
    }

    /** `annuler`: fails for a null key and when no row was removed; after a
        cancellation no row has that key, so cancelling again fails. */
    method Annuler(id: Option<int>, echec: bool) returns (r: Outcome<Echec>)
      requires db.Valid()
      modifies db
      ensures db.Valid()
      ensures id.None? ==> r == Fail(ServiceException(IdNul))
      ensures r == Pass <==> id.Some? && !echec && exists i :: 0 <= i < |old(db.reservations)| && old(db.reservations)[i].id == id.value
      ensures id.Some? && !echec && r.Fail? ==> r == Fail(ServiceException(SuppressionImpossible))
      ensures r == Pass ==> db.reservations == Sans(old(db.reservations), ReservationDeCle(id.value)) &&
                            forall i :: 0 <= i < |db.reservations| ==> db.reservations[i].id != id.value
      ensures r.Fail? ==> db.reservations == old(db.reservations)
      ensures db.utilisateurs == old(db.utilisateurs) && db.attractions == old(db.attractions)
    {
      if id.None? {
        return Fail(ServiceException(IdNul));
      }
      var supprime := db.SupprimerReservation(id.value, echec);
      if echec {
        return Fail(ServiceException(ErreurDao));
      }
      if !supprime {
        SansRien(old(db.reservations), ReservationDeCle(id.value));
        return Fail(ServiceException(SuppressionImpossible));
      }
      r := Pass;
    }
  }
}
