/** ReservationController and ConnexionController of the int-keyed stack,
    working on the in-memory database `Base`. "Today" is the parameter
    `aujourdhui`; the failure of a SQL write is a flag. */
module Controller {
  import opened Commun
  import opened Model
  import opened Dao

  // ----------------------------------------------------------- discounts

  /** A reduction applies to a child (under 12), a senior (over 60) or a member,
      according to its criterion. */
  predicate Applicable(r: Reduction, age: int, typeUtilisateur: TypeUtilisateur) {
    || (r.critere == ENFANT && age < 12)
    || (r.critere == SENIOR && age > 60)
    || (r.critere == FIDELITE && typeUtilisateur == MEMBRE)
  }

  /** The position of the first reduction of the catalogue that applies. */
  function PremiereApplicable(rs: seq<Reduction>, age: int, typeUtilisateur: TypeUtilisateur): (k: Option<nat>)
    ensures k.None? <==> forall i :: 0 <= i < |rs| ==> !Applicable(rs[i], age, typeUtilisateur)
    ensures k.Some? ==> k.value < |rs| && Applicable(rs[k.value], age, typeUtilisateur) &&
                        forall j :: 0 <= j < k.value ==> !Applicable(rs[j], age, typeUtilisateur)
  {
    if rs == [] then None
    else if Applicable(rs[0], age, typeUtilisateur) then Some(0)
    else
      match PremiereApplicable(rs[1..], age, typeUtilisateur)
      case None => None
      case Some(k) => Some(k + 1)
  }

  /** The amount and the flag an invoice carries. */
  datatype Tarification = Tarification(montant: real, reductionAppliquee: bool)

  /** The invoice for a base amount: reduced by the first applicable reduction's
      percentage, or the base amount itself when none applies. */
  function Tarif(base: real, age: int, typeUtilisateur: TypeUtilisateur, rs: seq<Reduction>): (t: Tarification)
    ensures t.reductionAppliquee <==> exists i :: 0 <= i < |rs| && Applicable(rs[i], age, typeUtilisateur)
    ensures !t.reductionAppliquee ==> t.montant == base
  {
    match PremiereApplicable(rs, age, typeUtilisateur)
    case None => Tarification(base, false)
    case Some(k) => Tarification(base * (1.0 - rs[k].pourcentage as real / 100.0), true)
  }

  /** Reductions never stack: when the reduction at `i` is the first that
      applies, the amount is the base reduced by its percentage alone, whatever
      the reductions after it. */
  lemma PremiereSeulement(base: real, age: int, typeUtilisateur: TypeUtilisateur, rs: seq<Reduction>, i: nat)
    requires i < |rs| && Applicable(rs[i], age, typeUtilisateur)
    requires forall j :: 0 <= j < i ==> !Applicable(rs[j], age, typeUtilisateur)
    ensures Tarif(base, age, typeUtilisateur, rs) ==
            Tarification(base * (1.0 - rs[i].pourcentage as real / 100.0), true)
  {
  }

  /** Only the catalogue order decides which reduction wins: a child member
      gets the ENFANT or the FIDELITE percentage, whichever comes first. */
  lemma OrdreDuCatalogue(base: real, age: int, enfant: Reduction, fidelite: Reduction)
    requires age < 12
    requires enfant.critere == ENFANT && fidelite.critere == FIDELITE
    ensures Tarif(base, age, MEMBRE, [enfant, fidelite]).montant == base * (1.0 - enfant.pourcentage as real / 100.0)
    ensures Tarif(base, age, MEMBRE, [fidelite, enfant]).montant == base * (1.0 - fidelite.pourcentage as real / 100.0)
  {
    PremiereSeulement(base, age, MEMBRE, [enfant, fidelite], 0);
    PremiereSeulement(base, age, MEMBRE, [fidelite, enfant], 0);
  }

  /** The guard `age < 12 || age > 60 || MEMBRE` around the scan is redundant:
      when it is false no reduction applies, so scanning would give the base
      amount and no flag, as skipping the scan does. */
  lemma GardeRedondante(base: real, age: int, typeUtilisateur: TypeUtilisateur, rs: seq<Reduction>)
    requires !(age < 12 || age > 60 || typeUtilisateur == MEMBRE)
    ensures Tarif(base, age, typeUtilisateur, rs) == Tarification(base, false)
  {
  }

  /** The scan of `reserverAttraction`: the first applicable reduction of the
      catalogue is applied to the amount, then the scan stops. */
  method AppliquerReduction(montantInitial: real, age: int, typeUtilisateur: TypeUtilisateur, reductions: seq<Reduction>)
    returns (montant: real, reductionAppliquee: bool)
    ensures Tarification(montant, reductionAppliquee) == Tarif(montantInitial, age, typeUtilisateur, reductions)
  {
    montant := montantInitial;
    reductionAppliquee := false;
    for i := 0 to |reductions|
      invariant !reductionAppliquee && montant == montantInitial
      invariant forall j :: 0 <= j < i ==> !Applicable(reductions[j], age, typeUtilisateur)
    {
      var r := reductions[i];
      var applicable :=
        || (r.critere == ENFANT && age < 12)
        || (r.critere == SENIOR && age > 60)
        || (r.critere == FIDELITE && typeUtilisateur == MEMBRE);
      if applicable {
        montant := montant * (1.0 - r.pourcentage as real / 100.0);
        reductionAppliquee := true;
        PremiereSeulement(montantInitial, age, typeUtilisateur, reductions, i);
        return;
      }
    }
  }

  // ------------------------------------------------------------- booking

  /** How `reserverAttraction` ends: a boolean, or the NullPointerException
      raised when the attraction or the user is not found after the insert. */
  datatype Issue = Retour(ok: bool) | ExceptionPointeurNul

  /** The reservation `reserverAttraction` builds, before it has a key. */
  function Demande(idUtilisateur: int, idAttraction: int, date: int, heure: Option<Heure>, nbBillets: int): Reservation {
    Reservation(0, idUtilisateur, idAttraction, date, heure, nbBillets, CONFIRMEE)
  }

  /** The undiscounted amount: unit price times tickets. */
  function MontantBase(a: Attraction, nbBillets: int): real {
    a.prix * nbBillets as real
  }

  /** The invoice `reserverAttraction` derives for a reservation of `nbBillets`
      tickets of `a` by `u`, before it has a key. */
  function FactureDue(a: Attraction, u: Utilisateur, nbBillets: int, rs: seq<Reduction>,
                      idReservation: int, aujourdhui: int): Facture
  {
    var t := Tarif(MontantBase(a, nbBillets), u.age, u.typeUtilisateur, rs);
    Facture(0, idReservation, t.montant, aujourdhui, t.reductionAppliquee)
  }

  /** Lines 39-70 of `reserverAttraction`: the price, the discount scan behind its
      guard and the invoice insert, whose result is ignored. */
  method Facturer(db: Base, a: Attraction, u: Utilisateur, idReservation: int, nbBillets: int,
                  aujourdhui: int, echecFacture: bool)
    requires db.Valid()
    modifies db
    ensures db.Valid()
    ensures db.utilisateurs == old(db.utilisateurs) && db.attractions == old(db.attractions)
    ensures db.reductions == old(db.reductions) && db.reservations == old(db.reservations)
    ensures db.factures == old(db.factures) +
              (if echecFacture then []
               else [FactureDue(a, u, nbBillets, Catalogue(db.reductions), idReservation, aujourdhui)
                       .(id := old(db.prochainFacture))])
  {
    var montantTotal := MontantBase(a, nbBillets);
    var reductionAppliquee := false;
    var age := u.age;
    if age < 12 || age > 60 || u.typeUtilisateur == MEMBRE {
      var reductions := db.GetAllReductions();
      montantTotal, reductionAppliquee := AppliquerReduction(montantTotal, age, u.typeUtilisateur, reductions);
    } else {
      GardeRedondante(montantTotal, age, u.typeUtilisateur, Catalogue(db.reductions));
    }
    assert Tarification(montantTotal, reductionAppliquee) ==
           Tarif(MontantBase(a, nbBillets), u.age, u.typeUtilisateur, Catalogue(db.reductions));
    var facture := Facture(0, idReservation, montantTotal, aujourdhui, reductionAppliquee);
    assert facture == FactureDue(a, u, nbBillets, Catalogue(db.reductions), idReservation, aujourdhui);
    var _ := db.InsertFacture(facture, echecFacture);
  }

  /** `reserverAttraction`. Invalid input is refused; otherwise one CONFIRMEE
      reservation is inserted, then the attraction and the user are read back
      and an invoice dated today is derived. A missing attraction or user (a
      guest, for one) raises after the reservation row exists; the result of
      the invoice insert is ignored. */
  method ReserverAttraction(db: Base, idUtilisateur: int, idAttraction: int, date: int, heure: Option<Heure>,
                            nbBillets: int, aujourdhui: int, echecReservation: bool, echecFacture: bool)
    returns (issue: Issue)
    requires db.Valid()
    modifies db
    ensures db.Valid()
    ensures db.utilisateurs == old(db.utilisateurs) && db.attractions == old(db.attractions)
    ensures db.reductions == old(db.reductions)
    ensures nbBillets <= 0 || date < aujourdhui || echecReservation ==>
              issue == Retour(false) && db.reservations == old(db.reservations) && db.factures == old(db.factures)
    ensures nbBillets > 0 && date >= aujourdhui && !echecReservation ==>
              old(db.prochainReservation) > 0 &&
              db.reservations == old(db.reservations) +
                [VersLigne(Demande(idUtilisateur, idAttraction, date, heure, nbBillets)
                             .(id := old(db.prochainReservation)), old(db.prochainReservation))]
    ensures nbBillets > 0 && date >= aujourdhui && !echecReservation &&
            (db.AttractionParId(idAttraction).None? || db.UtilisateurParId(idUtilisateur).None?) ==>
              issue == ExceptionPointeurNul && db.factures == old(db.factures)
    ensures nbBillets > 0 && date >= aujourdhui && !echecReservation &&
            db.AttractionParId(idAttraction).Some? && db.UtilisateurParId(idUtilisateur).Some? ==>
              issue == Retour(true) &&
              db.factures == old(db.factures) +
                (if echecFacture then []
                 else [FactureDue(db.AttractionParId(idAttraction).value, db.UtilisateurParId(idUtilisateur).value,
                                  nbBillets, Catalogue(db.reductions), old(db.prochainReservation), aujourdhui)
                         .(id := old(db.prochainFacture))])
  {
    if nbBillets <= 0 || date < aujourdhui {
      return Retour(false);
    }
    var reservation := Demande(idUtilisateur, idAttraction, date, heure, nbBillets);
    var idReservation := db.InsertReservation(reservation, echecReservation);
    if idReservation > 0 {
      reservation := reservation.(id := idReservation);
      var a := db.AttractionParId(idAttraction);
      var u := db.UtilisateurParId(idUtilisateur);
      if a.None? || u.None? {
        return ExceptionPointeurNul;
      }
      Facturer(db, a.value, u.value, idReservation, nbBillets, aujourdhui, echecFacture);
      return Retour(true);
    }
    return Retour(false);
  }

  /** A guest (user 0) who books valid tickets is left with a reservation row
      and no invoice, and the call raises. */
  method ReserverCommeInvite(db: Base, idAttraction: int, date: int, nbBillets: int, aujourdhui: int)
    returns (issue: Issue)
    requires db.Valid() && nbBillets > 0 && date >= aujourdhui
    modifies db
    ensures issue == ExceptionPointeurNul
    ensures |db.reservations| == |old(db.reservations)| + 1 && db.reservations[|old(db.reservations)|].idUtilisateur.None?
    ensures db.factures == old(db.factures)
  {
    db.InviteInconnu();
    issue := ReserverAttraction(db, 0, idAttraction, date, None, nbBillets, aujourdhui, false, false);
  }

  /** Rewriting the only row with key `id` with its status set to ANNULEE. */
  lemma LigneAnnulee(avant: seq<LigneReservation>, apres: seq<LigneReservation>, k: int, id: int)
    requires 0 <= k < |avant| && avant[k].id == id
    requires forall i :: 0 <= i < |avant| && avant[i].id == id ==> i == k
    requires LignesReecrites(avant, apres, avant[k].(statut := "ANNULEE"))
    ensures |apres| == |avant|
    ensures forall i :: 0 <= i < |apres| ==>
              apres[i] == if avant[i].id == id then avant[i].(statut := "ANNULEE") else avant[i]
  {
  }

  /** `annulerReservation`: the reservation with that key gets status ANNULEE
      and nothing else changes; an unknown key gives false. */
  method AnnulerReservation(db: Base, idReservation: int) returns (ok: bool)
    requires db.Valid()
    modifies db
    ensures db.Valid()
    ensures ok <==> exists i :: 0 <= i < |old(db.reservations)| && old(db.reservations)[i].id == idReservation
    ensures |db.reservations| == |old(db.reservations)|
    ensures forall i :: 0 <= i < |db.reservations| ==>
              db.reservations[i] == if old(db.reservations)[i].id == idReservation
                                    then old(db.reservations)[i].(statut := "ANNULEE")
                                    else old(db.reservations)[i]
    ensures db.utilisateurs == old(db.utilisateurs) && db.attractions == old(db.attractions)
    ensures db.factures == old(db.factures) && db.reductions == old(db.reductions)
  {
    var r := db.ReservationParId(idReservation);
    if r.Some? {
      ghost var k := db.LigneDeCle(idReservation);
      ghost var avant := db.reservations;
      RelectureReecriture(avant[k], ANNULEE);
      var annulee := r.value.(statut := ANNULEE);
      assert VersLigne(annulee, annulee.id) == avant[k].(statut := "ANNULEE");
      ok := db.UpdateReservation(annulee);
      LigneAnnulee(avant, db.reservations, k, idReservation);
    } else {
      ok := false;
    }
  }

  // ------------------------------------------------------- registration

  /** `ConnexionController.connecter`: the user found by email, when its stored
      password equals the given one exactly. */
  function Connecter(db: Base, email: string, motDePasse: string): (u: Option<Utilisateur>)
    reads db
    ensures u.Some? ==> u.value in db.utilisateurs && u.value.email == email && u.value.motDePasse == motDePasse
    ensures u.None? <==> db.UtilisateurParEmail(email).None? || db.UtilisateurParEmail(email).value.motDePasse != motDePasse
  {
    var trouve := db.UtilisateurParEmail(email);
    if trouve.Some? && trouve.value.motDePasse == motDePasse then trouve else None
  }

  /** `ConnexionController.inscrire`: a taken email gives false and no insert;
      otherwise one user is inserted, dated today, who can then log in. */
  method Inscrire(db: Base, nom: string, email: string, motDePasse: string, typeUtilisateur: TypeUtilisateur,
                  age: int, aujourdhui: int, echec: bool) returns (ok: bool)
    requires db.Valid()
    modifies db
    ensures db.Valid()
    ensures old(db.UtilisateurParEmail(email)).Some? ==> !ok && db.utilisateurs == old(db.utilisateurs)
    ensures old(db.UtilisateurParEmail(email)).None? ==>
              ok == !echec &&
              db.utilisateurs == old(db.utilisateurs) +
                (if echec then []
                 else [Utilisateur(old(db.prochainUtilisateur), nom, email, motDePasse, typeUtilisateur, age, aujourdhui)])
    ensures ok ==> Connecter(db, email, motDePasse) ==
                   Some(Utilisateur(old(db.prochainUtilisateur), nom, email, motDePasse, typeUtilisateur, age, aujourdhui))
    ensures db.attractions == old(db.attractions) && db.reservations == old(db.reservations)
    ensures db.factures == old(db.factures) && db.reductions == old(db.reductions)
  {
    if db.UtilisateurParEmail(email).Some? {
      return false;
    }
    ghost var avant := db.utilisateurs;
    var nouveau := Utilisateur(0, nom, email, motDePasse, typeUtilisateur, age, aujourdhui);
    ok := db.InsertUtilisateur(nouveau, echec);
    if ok {
      PremierTelApresAjout(avant, nouveau.(id := old(db.prochainUtilisateur)), UtilisateurDeMail(email));
    }
  }
}
