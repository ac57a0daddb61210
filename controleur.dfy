/** The controller of the Long-keyed stack: a session holding the connected
    user, and the guards (connected, administrator, owner) it checks before
    handing a request to the services. */
module Controleur {
  import opened Commun
  import opened Util
  import opened Modele
  import opened Fabrique
  import opened Service

  /** What a ControleurException reports. */
  datatype Refus =
    | NonConnecte               // nobody is connected
    | NonAdministrateur         // the connected user is not an administrator
    | ReservationInconnue       // the reservation to cancel is not found
    | PasProprietaire           // neither an administrator nor the reservation's owner
    | Enveloppe(motif: Motif)   // a ServiceException, wrapped

  /** How a controller call fails. A NullPointerException is unchecked and
      goes through the controller unchanged. */
  datatype Erreur = ControleurException(refus: Refus) | NullPointerException

  /** The controller's `catch (ServiceException e)`: the service's failure,
      rethrown as a ControleurException. */
  function Propager(e: Echec): (f: Erreur)
    ensures e.ServiceException? <==> f.ControleurException?
    ensures e.ServiceException? ==> f.refus == Enveloppe(e.motif)
  {
    match e
    case ServiceException(m) => ControleurException(Enveloppe(m))
    case NullPointerException => Erreur.NullPointerException
  }

  /** The same, on a call that returns a value. */
  function PropagerResultat<T>(r: Result<T, Echec>): (s: Result<T, Erreur>)
    ensures s.Ok? <==> r.Ok?
    ensures s.Ok? ==> s.value == r.value
    ensures s.Err? ==> s.error == Propager(r.error)
  {
    match r
    case Ok(v) => Ok(v)
    case Err(e) => Err(Propager(e))
  }

  /** The same, on a call that returns nothing. */
  function PropagerIssue(r: Outcome<Echec>): (s: Outcome<Erreur>)
    ensures s.Pass? <==> r.Pass?
    ensures s.Fail? ==> s.error == Propager(r.error)
  {
    match r
    case Pass => Pass
    case Fail(e) => Fail(Propager(e))
  }

  class Controleur {
    const db: Tables
    const serviceUtilisateur: ServiceUtilisateur
    const serviceAttraction: ServiceAttraction
    const serviceReservation: ServiceReservation
    var utilisateurConnecte: Option<Utilisateur>

    /** The three services work on the controller's database. */
    predicate Partage() {
      serviceUtilisateur.db == db && serviceAttraction.db == db && serviceReservation.db == db
    }

    constructor (db: Tables, sha256: string -> seq<Octet>)
      ensures this.db == db && Partage() && serviceUtilisateur.sha256 == sha256
      ensures utilisateurConnecte.None?
    {
      this.db := db;
      serviceUtilisateur := new ServiceUtilisateur(db, sha256);
      serviceAttraction := new ServiceAttraction(db);
      serviceReservation := new ServiceReservation(db);
      utilisateurConnecte := None;
    }

    // ------------------------------------------------------------ session

    /** `connecter`: on success the authenticated user becomes the session
        user; on failure the session is left as it was. */
    method Connecter(email: Option<string>, motDePasse: Option<string>) returns (r: Outcome<Erreur>)
      requires Partage()
      modifies this
      ensures r.Pass? <==> serviceUtilisateur.Authentifier(email, motDePasse).Ok?
      ensures r.Pass? ==> utilisateurConnecte == Some(serviceUtilisateur.Authentifier(email, motDePasse).value)
      ensures r.Fail? ==> utilisateurConnecte == old(utilisateurConnecte) &&
                          r.error == ControleurException(Enveloppe(serviceUtilisateur.Authentifier(email, motDePasse).error.motif))
    {
      var resultat := serviceUtilisateur.Connecter(email, motDePasse);
      if resultat.Err? {
        return Fail(Propager(resultat.error));
      }
      utilisateurConnecte := Some(resultat.value);
      r := Pass;
    }

    /** `deconnecter`: nobody is connected afterwards. */
    method Deconnecter()
      modifies this
      ensures utilisateurConnecte.None?
    {
      utilisateurConnecte := None;
    }

    /** `estConnecte`. */
    function EstConnecte(): bool
      reads this
    {
      utilisateurConnecte.Some?
    }

    /** The connected user is an administrator. */
    predicate Administrateur()
      reads this
    {
      utilisateurConnecte.Some? && utilisateurConnecte.value.admin
    }

    /** `estAdmin`: throws when nobody is connected. */
    function EstAdmin(): (r: Result<bool, Erreur>)
      reads this
      ensures r.Err? <==> !EstConnecte()
      ensures r.Err? ==> r.error == ControleurException(NonConnecte)
      ensures r.Ok? ==> (r.value <==> Administrateur())
    {
      if !EstConnecte() then Err(ControleurException(NonConnecte)) else Ok(utilisateurConnecte.value.admin)
    }

    /** `getUtilisateurConnecte`: throws when nobody is connected. */
    function GetUtilisateurConnecte(): (r: Result<Utilisateur, Erreur>)
      reads this
      ensures r.Err? <==> utilisateurConnecte.None?
      ensures r.Err? ==> r.error == ControleurException(NonConnecte)
      ensures r.Ok? ==> utilisateurConnecte == Some(r.value)
    {
      if !EstConnecte() then Err(ControleurException(NonConnecte)) else Ok(utilisateurConnecte.value)
    }

    /** The guard `if (!estAdmin()) throw ...` of the administrator-only
        operations: why the call is refused, if it is. */
    function RefusAdmin(): (e: Option<Erreur>)
      reads this
      ensures e.None? <==> Administrateur()
      ensures utilisateurConnecte.None? ==> e == Some(ControleurException(NonConnecte))
      ensures utilisateurConnecte.Some? && !utilisateurConnecte.value.admin ==>
                e == Some(ControleurException(NonAdministrateur))
    {
      match EstAdmin()
      case Err(x) => Some(x)
      case Ok(admin) => if admin then None else Some(ControleurException(NonAdministrateur))
    }

    /** `inscrire`: a new account is never an administrator, and it can log
        in with the email and password it was created with. */
    method Inscrire(nom: Option<string>, prenom: Option<string>, email: Option<string>, motDePasse: Option<string>,
                    telephone: Option<string>, maintenant: int, echec: bool)
      returns (r: Result<Utilisateur, Erreur>)
      requires Partage() && db.Valid()
      modifies db
      ensures db.Valid()
      ensures r.Ok? <==> Renseignes(nom, prenom, email, motDePasse) && !echec &&
                         forall i :: 0 <= i < |old(db.utilisateurs)| ==> old(db.utilisateurs)[i].email != email.value
      ensures r.Err? ==> r.error.ControleurException? && r.error.refus.Enveloppe? &&
                         db.utilisateurs == old(db.utilisateurs)
      ensures r.Ok? ==> !r.value.admin && db.utilisateurs == old(db.utilisateurs) + [r.value]
      ensures r.Ok? ==> serviceUtilisateur.Authentifier(email, motDePasse) == Ok(r.value)
      ensures db.attractions == old(db.attractions) && db.reservations == old(db.reservations)
    {
      var cree := serviceUtilisateur.Creer(nom, prenom, email, motDePasse, telephone, false, maintenant, echec);
      r := PropagerResultat(cree);
    }

    // ------------------------------------------------- administrator only

    /** `creerAttraction`: refused before any service call unless an
        administrator is connected. */
    method CreerAttraction(nom: Option<string>, description: Option<string>, capacite: int, duree: int,
                           prix: Option<real>, ageMinimum: int, tailleMinimum: int, estDisponible: bool,
                           imageUrl: Option<string>, maintenant: int, echec: bool)
      returns (r: Result<Attraction, Erreur>)
      requires Partage() && db.Valid()
      modifies db
      ensures db.Valid()
      ensures RefusAdmin().Some? ==> r == Err(RefusAdmin().value) && unchanged(db)
      ensures r.Ok? <==> Administrateur() && !EstVide(nom) && capacite > 0 && duree > 0 &&
                         prix.Some? && prix.value >= 0.0 && !echec
      ensures r.Err? ==> db.attractions == old(db.attractions)
      ensures r.Ok? ==> AttractionValide(r.value) && db.attractions == old(db.attractions) + [r.value]
      ensures r.Ok? ==> r.value == Attraction(old(db.prochainAttraction), nom.value, description, prix.value, capacite,
                                              duree, ageMinimum, tailleMinimum, imageUrl, estDisponible, maintenant,
                                              maintenant)
      ensures db.utilisateurs == old(db.utilisateurs) && db.reservations == old(db.reservations)
    {
      var refus := RefusAdmin();
      if refus.Some? {
        return Err(refus.value);
      }
      var cree := serviceAttraction.Creer(nom, description, capacite, duree, prix, ageMinimum, tailleMinimum,
                                          estDisponible, imageUrl, maintenant, echec);
      r := PropagerResultat(cree);
    }

    /** `mettreAJourAttraction`: refused before any service call unless an
        administrator is connected. */
    method MettreAJourAttraction(id: Option<int>, nom: Option<string>, description: Option<string>, capacite: int,
                                 duree: int, prix: Option<real>, ageMinimum: int, tailleMinimum: int,
                                 estDisponible: bool, imageUrl: Option<string>, maintenant: int, echec: bool)
      returns (r: Result<Attraction, Erreur>)
      requires Partage() && db.Valid()
      modifies db
      ensures db.Valid()
      ensures RefusAdmin().Some? ==> r == Err(RefusAdmin().value) && unchanged(db)
      ensures r.Ok? <==> Administrateur() && id.Some? && old(db.TrouverAttraction(id.value)).Some? && !echec
      ensures r.Err? ==> db.attractions == old(db.attractions)
      ensures r.Ok? ==> r.value == Fusionner(old(db.TrouverAttraction(id.value)).value, nom, description, capacite,
                                             duree, prix, ageMinimum, tailleMinimum, estDisponible, imageUrl)
                                     .(dateModification := maintenant)
      ensures r.Ok? ==> Remplace(old(db.attractions), db.attractions, AttractionDeCle(id.value), r.value)
      ensures db.utilisateurs == old(db.utilisateurs) && db.reservations == old(db.reservations)
    {
      var refus := RefusAdmin();
      if refus.Some? {
        return Err(refus.value);
      }
      var modifiee := serviceAttraction.MettreAJour(id, nom, description, capacite, duree, prix, ageMinimum,
                                                    tailleMinimum, estDisponible, imageUrl, maintenant, echec);
      r := PropagerResultat(modifiee);
    }

    /** `supprimerAttraction`: refused before any service call unless an
        administrator is connected. */
    method SupprimerAttraction(id: Option<int>, echec: bool) returns (r: Outcome<Erreur>)
      requires Partage() && db.Valid()
      modifies db
      ensures db.Valid()
      ensures RefusAdmin().Some? ==> r == Fail(RefusAdmin().value) && unchanged(db)
      ensures r.Pass? <==> Administrateur() && id.Some? && !echec &&
                           exists i :: 0 <= i < |old(db.attractions)| && old(db.attractions)[i].id == id.value
      ensures r.Pass? ==> db.attractions == Sans(old(db.attractions), AttractionDeCle(id.value))
      ensures r.Fail? ==> db.attractions == old(db.attractions)
      ensures db.utilisateurs == old(db.utilisateurs) && db.reservations == old(db.reservations)
    {
      var refus := RefusAdmin();
      if refus.Some? {
        return Fail(refus.value);
      }
      var issue := serviceAttraction.Supprimer(id, echec);
      r := PropagerIssue(issue);
    }

    /** `obtenirToutesLesReservations`: every joined reservation, for an
        administrator only. */
    function ObtenirToutesLesReservations(): (r: Result<seq<Reservation>, Erreur>)
      reads this, db
      ensures RefusAdmin().Some? ==> r == Err(RefusAdmin().value)
      ensures r.Ok? <==> Administrateur()
      ensures r.Ok? ==> forall i :: 0 <= i < |r.value| ==>
                r.value[i] in db.reservations &&
                db.TrouverUtilisateur(r.value[i].utilisateurId).Some? && db.TrouverAttraction(r.value[i].attractionId).Some?
      ensures r.Ok? ==> forall i ::
                (0 <= i < |db.reservations| &&
                 db.TrouverUtilisateur(db.reservations[i].utilisateurId).Some? &&
                 db.TrouverAttraction(db.reservations[i].attractionId).Some?) ==> db.reservations[i] in r.value
    {
      if RefusAdmin().Some? then Err(RefusAdmin().value) else Ok(db.TrouverToutesReservations())
    }

    /** `obtenirReservationsParAttraction`: for an administrator only. */
    function ObtenirReservationsParAttraction(attractionId: Option<int>): (r: Result<seq<Reservation>, Erreur>)
      requires Partage()
      reads this, db
      ensures RefusAdmin().Some? ==> r == Err(RefusAdmin().value)
      ensures r.Ok? <==> Administrateur() && attractionId.Some?
      ensures Administrateur() && attractionId.None? ==> r == Err(ControleurException(Enveloppe(AttractionIdNul)))
      ensures r.Ok? ==> forall i :: 0 <= i < |r.value| ==>
                r.value[i] in db.reservations && r.value[i].attractionId == attractionId.value &&
                db.TrouverUtilisateur(r.value[i].utilisateurId).Some? && db.TrouverAttraction(r.value[i].attractionId).Some?
      ensures r.Ok? ==> forall i ::
                (0 <= i < |db.reservations| && db.reservations[i].attractionId == attractionId.value &&
                 db.TrouverUtilisateur(db.reservations[i].utilisateurId).Some? &&
                 db.TrouverAttraction(db.reservations[i].attractionId).Some?) ==> db.reservations[i] in r.value
    {
      if RefusAdmin().Some? then Err(RefusAdmin().value)
      else PropagerResultat(serviceReservation.ObtenirParAttraction(attractionId))
    }

    /** `mettreAJourStatutReservation`: refused before any service call unless
        an administrator is connected. */
    method MettreAJourStatutReservation(id: Option<int>, statut: Option<string>, maintenant: int, echec: bool)
      returns (r: Result<Reservation, Erreur>)
      requires Partage() && db.Valid()
      modifies db
      ensures db.Valid()
      ensures RefusAdmin().Some? ==> r == Err(RefusAdmin().value) && unchanged(db)
      ensures r.Ok? <==> Administrateur() && id.Some? && !EstVide(statut) &&
                         old(db.TrouverReservation(id.value)).Some? && !echec
      ensures r.Err? ==> db.reservations == old(db.reservations)
      ensures r.Ok? ==> r.value == old(db.TrouverReservation(id.value)).value.(statut := statut.value,
                                                                               dateModification := maintenant) &&
                        db.TrouverReservation(id.value) == Some(r.value)
      ensures r.Ok? ==> Remplace(old(db.reservations), db.reservations, ReservationDeCle(id.value), r.value)
      ensures db.utilisateurs == old(db.utilisateurs) && db.attractions == old(db.attractions)
    {
      var refus := RefusAdmin();
      if refus.Some? {
        return Err(refus.value);
      }
      var modifiee := serviceReservation.MettreAJourStatut(id, statut, maintenant, echec);
      r := PropagerResultat(modifiee);
    }

    /** `obtenirTousLesUtilisateurs`: for an administrator only. */
    function ObtenirTousLesUtilisateurs(): (r: Result<seq<Utilisateur>, Erreur>)
      reads this, db
      ensures RefusAdmin().Some? ==> r == Err(RefusAdmin().value)
      ensures r.Ok? <==> Administrateur()
      ensures r.Ok? ==> r.value == db.utilisateurs
    {
      if RefusAdmin().Some? then Err(RefusAdmin().value) else Ok(db.utilisateurs)
    }

    // ------------------------------------------------------ connected user

    /** `creerReservation`: only for a connected user, and always in the
        session user's name. */
    method CreerReservation(attractionId: Option<int>, dateReservation: Option<int>, heureReservation: Option<int>,
                            nombrePersonnes: int, commentaire: Option<string>, maintenant: int, echec: bool)
      returns (r: Result<Reservation, Erreur>)
      requires Partage() && db.Valid()
      modifies db
      ensures db.Valid()
      ensures utilisateurConnecte.None? ==> r == Err(ControleurException(NonConnecte)) && unchanged(db)
      ensures r.Err? ==> db.reservations == old(db.reservations)
      ensures r.Ok? ==> utilisateurConnecte.Some? && r.value.utilisateurId == utilisateurConnecte.value.id &&
                        db.reservations == old(db.reservations) + [r.value] &&
                        db.TrouverReservation(r.value.id) == Some(r.value)
      ensures r.Ok? ==> r.value.statut == EnAttente && r.value.dateCreation == r.value.dateModification
      ensures r.Ok? <==> utilisateurConnecte.Some? &&
                         ArgumentsValides(Some(utilisateurConnecte.value.id), attractionId, dateReservation,
                                          nombrePersonnes) &&
                         old(db.TrouverUtilisateur(utilisateurConnecte.value.id)).Some? &&
                         old(db.TrouverAttraction(attractionId.value)).Some? &&
                         old(db.TrouverAttraction(attractionId.value)).value.estDisponible &&
                         heureReservation.Some? && !echec
      ensures r.Ok? ==> r.value == Reservation(old(db.prochainReservation), utilisateurConnecte.value.id,
                                               attractionId.value, dateReservation.value, heureReservation.value,
                                               nombrePersonnes,
                                               PrixTotal(old(db.TrouverAttraction(attractionId.value)).value.prix,
                                                         nombrePersonnes),
                                               EnAttente, commentaire, maintenant, maintenant)
      ensures utilisateurConnecte.Some? && attractionId.Some? && dateReservation.Some? && nombrePersonnes > 0 &&
              old(db.TrouverUtilisateur(utilisateurConnecte.value.id)).Some? &&
              old(db.TrouverAttraction(attractionId.value)).Some? &&
              old(db.TrouverAttraction(attractionId.value)).value.estDisponible && heureReservation.None? ==>
                r == Err(Erreur.NullPointerException)
      ensures db.utilisateurs == old(db.utilisateurs) && db.attractions == old(db.attractions)
    {
      if !EstConnecte() {
        return Err(ControleurException(NonConnecte));
      }
      var reservee := serviceReservation.Reserver(Some(utilisateurConnecte.value.id), attractionId, dateReservation,
                                                  heureReservation, nombrePersonnes, commentaire, maintenant, echec);
      r := PropagerResultat(reservee);
    }

    /** `obtenirMesReservations`: only for a connected user, and only that
        user's reservations. */
    function ObtenirMesReservations(): (r: Result<seq<Reservation>, Erreur>)
      requires Partage()
      reads this, db
      ensures r.Err? <==> utilisateurConnecte.None?
      ensures r.Err? ==> r.error == ControleurException(NonConnecte)
      ensures r.Ok? ==> forall i :: 0 <= i < |r.value| ==>
                r.value[i] in db.reservations && r.value[i].utilisateurId == utilisateurConnecte.value.id &&
                db.TrouverUtilisateur(r.value[i].utilisateurId).Some? && db.TrouverAttraction(r.value[i].attractionId).Some?
      ensures r.Ok? ==> forall i ::
                (0 <= i < |db.reservations| && db.reservations[i].utilisateurId == utilisateurConnecte.value.id &&
                 db.TrouverUtilisateur(db.reservations[i].utilisateurId).Some? &&
                 db.TrouverAttraction(db.reservations[i].attractionId).Some?) ==> db.reservations[i] in r.value
    {
      if !EstConnecte() then Err(ControleurException(NonConnecte))
      else PropagerResultat(serviceReservation.ObtenirParUtilisateur(Some(utilisateurConnecte.value.id)))
    }

    /** The owner-or-administrator guard of `annulerReservation`. */
    predicate PeutAnnuler(reservation: Reservation)
      reads this
    {
      utilisateurConnecte.Some? &&
      (utilisateurConnecte.value.admin || reservation.utilisateurId == utilisateurConnecte.value.id)
    }

    /** Why `annulerReservation` refuses, checked in its order: nobody
        connected, a null key (the data-access layer dereferences it), an
        unknown reservation, a session user who is neither an administrator
        nor its owner. */
    function RefusAnnulation(id: Option<int>): (e: Option<Erreur>)
      reads this, db
      ensures utilisateurConnecte.None? ==> e == Some(ControleurException(NonConnecte))
      ensures utilisateurConnecte.Some? && id.None? ==> e == Some(Erreur.NullPointerException)
      ensures utilisateurConnecte.Some? && id.Some? && db.TrouverReservation(id.value).None? ==>
                e == Some(ControleurException(ReservationInconnue))
      ensures (id.Some? && db.TrouverReservation(id.value).Some? && utilisateurConnecte.Some? &&
               !PeutAnnuler(db.TrouverReservation(id.value).value)) ==>
                e == Some(ControleurException(PasProprietaire))
      ensures e.None? <==> id.Some? && db.TrouverReservation(id.value).Some? &&
                           PeutAnnuler(db.TrouverReservation(id.value).value)
    {
      if !EstConnecte() then Some(ControleurException(NonConnecte))
      else if id.None? then Some(Erreur.NullPointerException)
      else
        var reservation := db.TrouverReservation(id.value);
        if reservation.None? then Some(ControleurException(ReservationInconnue))
        else if !utilisateurConnecte.value.admin && reservation.value.utilisateurId != utilisateurConnecte.value.id
        then Some(ControleurException(PasProprietaire))
        else None
    }

    /** `annulerReservation`: a refusal changes nothing; otherwise the
        reservation is deleted, and afterwards no row has its key. */
    method AnnulerReservation(id: Option<int>, echec: bool) returns (r: Outcome<Erreur>)
      requires Partage() && db.Valid()
      modifies db
      ensures db.Valid()
      ensures old(RefusAnnulation(id)).Some? ==> r == Fail(old(RefusAnnulation(id)).value)
      ensures r.Pass? <==> old(RefusAnnulation(id)).None? && !echec
      ensures r.Fail? ==> db.reservations == old(db.reservations)
      ensures r.Pass? ==> id.Some? && db.reservations == Sans(old(db.reservations), ReservationDeCle(id.value)) &&
                          forall i :: 0 <= i < |db.reservations| ==> db.reservations[i].id != id.value
      ensures db.utilisateurs == old(db.utilisateurs) && db.attractions == old(db.attractions)
    {
      var refus := RefusAnnulation(id);
      if refus.Some? {
        return Fail(refus.value);
      }
      r := AnnulerTrouvee(db.TrouverReservation(id.value).value, echec);
    }

    /** The end of `annulerReservation`, once the reservation is found and may
        be cancelled: the service deletes it. */
    method AnnulerTrouvee(reservation: Reservation, echec: bool) returns (r: Outcome<Erreur>)
      requires Partage() && db.Valid() && db.TrouverReservation(reservation.id) == Some(reservation)
      modifies db
      ensures db.Valid()
      ensures r.Pass? <==> !echec
      ensures r.Fail? ==> db.reservations == old(db.reservations)
      ensures r.Pass? ==> db.reservations == Sans(old(db.reservations), ReservationDeCle(reservation.id)) &&
                          forall i :: 0 <= i < |db.reservations| ==> db.reservations[i].id != reservation.id
      ensures db.utilisateurs == old(db.utilisateurs) && db.attractions == old(db.attractions)
    {
      ghost var k :| 0 <= k < |db.reservations| && db.reservations[k] == reservation;
      assert db.reservations[k].id == reservation.id;
      var issue := serviceReservation.Annuler(Some(reservation.id), echec);
      r := PropagerIssue(issue);
    }
  }
}
