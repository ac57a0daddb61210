/** The three tables behind FabriqueDAO's user, attraction and reservation
    DAOs, held in memory. Every write may fail with an SQLException, given as
    the `echec` flag; a failed write changes nothing. Reads do not fail. */
module Fabrique {
  import opened Commun
  import opened Modele

  function CleUtilisateur(u: Utilisateur): int { u.id }
  function CleAttraction(a: Attraction): int { a.id }
  function CleReservation(r: Reservation): int { r.id }

  /** `WHERE id = ?` on each table. */
  function UtilisateurDeCle(id: int): Utilisateur -> bool {
    (u: Utilisateur) => u.id == id
  }
  function AttractionDeCle(id: int): Attraction -> bool {
    (a: Attraction) => a.id == id
  }
  function ReservationDeCle(id: int): Reservation -> bool {
    (r: Reservation) => r.id == id
  }

  /** The users a `WHERE email = ?` query does not return. */
  function AutreEmail(email: string): Utilisateur -> bool {
    (u: Utilisateur) => u.email != email
  }

  /** The rows the reservation DAO drops while reading: those whose user or
      attraction is no longer found. */
  function SansJointure(utilisateurs: seq<Utilisateur>, attractions: seq<Attraction>): Reservation -> bool {
    (r: Reservation) => PremierTel(utilisateurs, UtilisateurDeCle(r.utilisateurId)).None? ||
                        PremierTel(attractions, AttractionDeCle(r.attractionId)).None?
  }

  /** The integer columns of table `reservations`, read from a row. Any other
      name is not an integer column of the table. */
  function ValeurColonne(r: Reservation, colonne: string): Option<int> {
    if colonne == "id" then Some(r.id)
    else if colonne == "utilisateur_id" then Some(r.utilisateurId)
    else if colonne == "attraction_id" then Some(r.attractionId)
    else if colonne == "nombre_personnes" then Some(r.nombrePersonnes)
    else None
  }

  /** The rows `SELECT * FROM reservations WHERE colonne = valeur` does not
      return, or that the join then drops. */
  function HorsSelection(colonne: string, valeur: int, utilisateurs: seq<Utilisateur>, attractions: seq<Attraction>)
    : Reservation -> bool
  {
    (r: Reservation) => ValeurColonne(r, colonne) != Some(valeur) ||
                        PremierTel(utilisateurs, UtilisateurDeCle(r.utilisateurId)).None? ||
                        PremierTel(attractions, AttractionDeCle(r.attractionId)).None?
  }

  /** What `UPDATE ... SET ... WHERE id = ?` leaves in a table: every row with
      the key of the new row takes its fields, except the creation date, and
      is stamped `maintenant`; the other rows are kept. */
  predicate UtilisateursMisAJour(avant: seq<Utilisateur>, apres: seq<Utilisateur>, u: Utilisateur, maintenant: int) {
    |apres| == |avant| &&
    forall i :: 0 <= i < |avant| ==>
      apres[i] == if avant[i].id == u.id
                  then u.(dateCreation := avant[i].dateCreation, dateModification := maintenant)
                  else avant[i]
  }

  predicate AttractionsMisesAJour(avant: seq<Attraction>, apres: seq<Attraction>, a: Attraction, maintenant: int) {
    |apres| == |avant| &&
    forall i :: 0 <= i < |avant| ==>
      apres[i] == if avant[i].id == a.id
                  then a.(dateCreation := avant[i].dateCreation, dateModification := maintenant)
                  else avant[i]
  }

  predicate ReservationsMisesAJour(avant: seq<Reservation>, apres: seq<Reservation>, r: Reservation, maintenant: int) {
    |apres| == |avant| &&
    forall i :: 0 <= i < |avant| ==>
      apres[i] == if avant[i].id == r.id
                  then r.(dateCreation := avant[i].dateCreation, dateModification := maintenant)
                  else avant[i]
  }

  /** Under distinct keys, the row `WHERE id = ?` stops at is the row with that key. */
  lemma PremiereDeCle(s: seq<Reservation>, id: int)
    ensures ClesDistinctes(s, CleReservation) ==>
              forall i :: 0 <= i < |s| && s[i].id == id ==> PremierTel(s, ReservationDeCle(id)) == Some(s[i])
  {
    if ClesDistinctes(s, CleReservation) {
      forall i | 0 <= i < |s| && s[i].id == id
        ensures PremierTel(s, ReservationDeCle(id)) == Some(s[i])
      {
        assert ReservationDeCle(id)(s[i]);
        var k :| 0 <= k < |s| && s[k] == PremierTel(s, ReservationDeCle(id)).value && ReservationDeCle(id)(s[k]);
        assert CleReservation(s[k]) == CleReservation(s[i]);
      }
    }
  }

  /** The database of the Long-keyed stack. */
  class Tables {
    var utilisateurs: seq<Utilisateur>
    var attractions: seq<Attraction>
    var reservations: seq<Reservation>
    var prochainUtilisateur: int
    var prochainAttraction: int
    var prochainReservation: int

    /** Generated keys are positive, below their counter and distinct. */
    ghost predicate Valid()
      reads this
    {
      && prochainUtilisateur >= 1 && prochainAttraction >= 1 && prochainReservation >= 1
      && (forall i :: 0 <= i < |utilisateurs| ==> 1 <= utilisateurs[i].id < prochainUtilisateur)
      && (forall i :: 0 <= i < |attractions| ==> 1 <= attractions[i].id < prochainAttraction)
      && (forall i :: 0 <= i < |reservations| ==> 1 <= reservations[i].id < prochainReservation)
      && ClesDistinctes(utilisateurs, CleUtilisateur)
      && ClesDistinctes(attractions, CleAttraction)
      && ClesDistinctes(reservations, CleReservation)
    }

    constructor ()
      ensures Valid()
      ensures utilisateurs == [] && attractions == [] && reservations == []
    {
      utilisateurs, attractions, reservations := [], [], [];
      prochainUtilisateur, prochainAttraction, prochainReservation := 1, 1, 1;
    }

    // -------------------------------------------------------------- reads

    /** `DAOUtilisateur.trouver`. */
    function TrouverUtilisateur(id: int): (r: Option<Utilisateur>)
      reads this
      ensures r.Some? ==> r.value in utilisateurs && r.value.id == id
      ensures r.None? <==> forall i :: 0 <= i < |utilisateurs| ==> utilisateurs[i].id != id
    {
      PremierTel(utilisateurs, UtilisateurDeCle(id))
    }

    /** `DAOUtilisateur.trouverParAttribut("email", email)`: every user with
        that email, in row order. */
    function UtilisateursParEmail(email: string): (r: seq<Utilisateur>)
      reads this
      ensures forall i :: 0 <= i < |r| ==> r[i] in utilisateurs && r[i].email == email
      ensures forall i :: 0 <= i < |utilisateurs| && utilisateurs[i].email == email ==> utilisateurs[i] in r
    {
      Sans(utilisateurs, AutreEmail(email))
    }

    /** `DAOAttraction.trouver`. */
    function TrouverAttraction(id: int): (r: Option<Attraction>)
      reads this
      ensures r.Some? ==> r.value in attractions && r.value.id == id
      ensures r.None? <==> forall i :: 0 <= i < |attractions| ==> attractions[i].id != id
    {
      PremierTel(attractions, AttractionDeCle(id))
    }

    /** `DAOReservation.trouver`: the row with that key, provided its user and
        its attraction are both still found. */
    function TrouverReservation(id: int): (r: Option<Reservation>)
      reads this
      ensures r.Some? ==> r.value in reservations && r.value.id == id &&
                          TrouverUtilisateur(r.value.utilisateurId).Some? &&
                          TrouverAttraction(r.value.attractionId).Some?
      ensures (forall i :: 0 <= i < |reservations| ==> reservations[i].id != id) ==> r.None?
      ensures ClesDistinctes(reservations, CleReservation) ==>
                forall i :: (0 <= i < |reservations| && reservations[i].id == id &&
                             TrouverUtilisateur(reservations[i].utilisateurId).Some? &&
                             TrouverAttraction(reservations[i].attractionId).Some?) ==> r == Some(reservations[i])
    {
      PremiereDeCle(reservations, id);
      match PremierTel(reservations, ReservationDeCle(id))
      case None => None
      case Some(l) =>
        if TrouverUtilisateur(l.utilisateurId).Some? && TrouverAttraction(l.attractionId).Some? then Some(l)
        else None
    }

    /** `DAOReservation.trouverTous`: the rows whose user and attraction are
        found, in row order. */
    function TrouverToutesReservations(): (r: seq<Reservation>)
      reads this
      ensures forall i :: 0 <= i < |r| ==>
                r[i] in reservations &&
                TrouverUtilisateur(r[i].utilisateurId).Some? && TrouverAttraction(r[i].attractionId).Some?
      ensures forall i ::
                (0 <= i < |reservations| &&
                 TrouverUtilisateur(reservations[i].utilisateurId).Some? &&
                 TrouverAttraction(reservations[i].attractionId).Some?) ==> reservations[i] in r
    {
      Sans(reservations, SansJointure(utilisateurs, attractions))
    }

    /** `DAOReservation.trouverParAttribut(colonne, valeur)` for an integer
        value: `None` when `colonne` names no integer column of the table (the
        SQL statement is rejected), otherwise the joined rows whose column holds
        `valeur`, in row order. */
    function TrouverReservationsParAttribut(colonne: string, valeur: int): (r: Option<seq<Reservation>>)
      reads this
      ensures r.None? <==> colonne !in {"id", "utilisateur_id", "attraction_id", "nombre_personnes"}
      ensures r.Some? ==> forall i :: 0 <= i < |r.value| ==>
                r.value[i] in reservations && ValeurColonne(r.value[i], colonne) == Some(valeur) &&
                TrouverUtilisateur(r.value[i].utilisateurId).Some? && TrouverAttraction(r.value[i].attractionId).Some?
      ensures r.Some? ==> forall i ::
                (0 <= i < |reservations| &&
                 ValeurColonne(reservations[i], colonne) == Some(valeur) &&
                 TrouverUtilisateur(reservations[i].utilisateurId).Some? &&
                 TrouverAttraction(reservations[i].attractionId).Some?) ==> reservations[i] in r.value
    {
      if colonne !in {"id", "utilisateur_id", "attraction_id", "nombre_personnes"} then None
      else Some(Sans(reservations, HorsSelection(colonne, valeur, utilisateurs, attractions)))
    }

    /** Every row with key `id` is the row `TrouverUtilisateur` finds. */
    lemma UtilisateurUnique(id: int)
      requires Valid() && TrouverUtilisateur(id).Some?
      ensures forall i :: 0 <= i < |utilisateurs| && utilisateurs[i].id == id ==> utilisateurs[i] == TrouverUtilisateur(id).value
    {
      var k :| 0 <= k < |utilisateurs| && utilisateurs[k] == TrouverUtilisateur(id).value;
      forall i | 0 <= i < |utilisateurs| && utilisateurs[i].id == id
        ensures utilisateurs[i] == utilisateurs[k]
      {
        assert CleUtilisateur(utilisateurs[i]) == CleUtilisateur(utilisateurs[k]);
      }
    }

    /** Every row with key `id` is the row `TrouverAttraction` finds. */
    lemma AttractionUnique(id: int)
      requires Valid() && TrouverAttraction(id).Some?
      ensures forall i :: 0 <= i < |attractions| && attractions[i].id == id ==> attractions[i] == TrouverAttraction(id).value
    {
      var k :| 0 <= k < |attractions| && attractions[k] == TrouverAttraction(id).value;
      forall i | 0 <= i < |attractions| && attractions[i].id == id
        ensures attractions[i] == attractions[k]
      {
        assert CleAttraction(attractions[i]) == CleAttraction(attractions[k]);
      }
    }

    /** Every row with key `id` is the row `TrouverReservation` finds. */
    lemma ReservationUnique(id: int)
      requires Valid() && TrouverReservation(id).Some?
      ensures forall i :: 0 <= i < |reservations| && reservations[i].id == id ==> reservations[i] == TrouverReservation(id).value
    {
      var k :| 0 <= k < |reservations| && reservations[k] == TrouverReservation(id).value;
      forall i | 0 <= i < |reservations| && reservations[i].id == id
        ensures reservations[i] == reservations[k]
      {
        assert CleReservation(reservations[i]) == CleReservation(reservations[k]);
      }
    }

    /** The last row is found by its key when no earlier row has that key and
        its user and attraction are found. */
    lemma DerniereTrouvee(r: Reservation)
      requires reservations != [] && reservations[|reservations| - 1] == r
      requires forall i :: 0 <= i < |reservations| - 1 ==> reservations[i].id != r.id
      requires TrouverUtilisateur(r.utilisateurId).Some? && TrouverAttraction(r.attractionId).Some?
      ensures TrouverReservation(r.id) == Some(r)
    {
      var avant := reservations[..|reservations| - 1];
      assert reservations == avant + [r];
      PremierTelApresAjout(avant, r, ReservationDeCle(r.id));
    }

    // -------------------------------------------------------------- users

    /** `DAOUtilisateur.creer`: the user stored under the next generated key,
        and returned with that key. */
    method CreerUtilisateur(u: Utilisateur, echec: bool) returns (r: Option<Utilisateur>)
      requires Valid()
      modifies this
      ensures Valid()
      ensures echec ==> r.None? && utilisateurs == old(utilisateurs)
      ensures !echec ==> r == Some(u.(id := old(prochainUtilisateur))) && utilisateurs == old(utilisateurs) + [r.value]
      ensures forall i :: 0 <= i < |old(utilisateurs)| ==> old(utilisateurs)[i].id < old(prochainUtilisateur)
      ensures attractions == old(attractions) && reservations == old(reservations)
    {
      if echec {
        return None;
      }
      var nouveau := u.(id := prochainUtilisateur);
      ClesDistinctesAjout(utilisateurs, nouveau, CleUtilisateur);
      utilisateurs := utilisateurs + [nouveau];
      prochainUtilisateur := prochainUtilisateur + 1;
      r := Some(nouveau);
    }

    /** `DAOUtilisateur.mettreAJour`: every row with the user's key takes its
        fields, except the creation date, and is stamped `maintenant`; fails
        when no row has that key. */
    method MettreAJourUtilisateur(u: Utilisateur, maintenant: int, echec: bool) returns (ok: bool)
      requires Valid()
      modifies this
      ensures Valid()
      ensures ok <==> !echec && exists i :: 0 <= i < |old(utilisateurs)| && old(utilisateurs)[i].id == u.id
      ensures echec ==> utilisateurs == old(utilisateurs)
      ensures !echec ==> UtilisateursMisAJour(old(utilisateurs), utilisateurs, u, maintenant)
      ensures attractions == old(attractions) && reservations == old(reservations)
    {
      if echec {
        return false;
      }
      ok := exists i :: 0 <= i < |utilisateurs| && utilisateurs[i].id == u.id;
      utilisateurs := seq(|utilisateurs|, i requires 0 <= i < |utilisateurs| reads this =>
                            if utilisateurs[i].id == u.id
                            then u.(dateCreation := utilisateurs[i].dateCreation, dateModification := maintenant)
                            else utilisateurs[i]);
    }

    /** `DAOUtilisateur.supprimer`: true when a row was removed. */
    method SupprimerUtilisateur(id: int, echec: bool) returns (ok: bool)
      requires Valid()
      modifies this
      ensures Valid()
      ensures echec ==> utilisateurs == old(utilisateurs)
      ensures !echec ==> utilisateurs == Sans(old(utilisateurs), UtilisateurDeCle(id))
      ensures ok <==> !echec && exists i :: 0 <= i < |old(utilisateurs)| && old(utilisateurs)[i].id == id
      ensures attractions == old(attractions) && reservations == old(reservations)
    {
      if echec {
        return false;
      }
      var avant := |utilisateurs|;
      SansClesDistinctes(utilisateurs, UtilisateurDeCle(id), CleUtilisateur);
      utilisateurs := Sans(utilisateurs, UtilisateurDeCle(id));
      ok := |utilisateurs| < avant;
    }

    // -------------------------------------------------------- attractions

    /** `DAOAttraction.creer`. */
    method CreerAttraction(a: Attraction, echec: bool) returns (r: Option<Attraction>)
      requires Valid()
      modifies this
      ensures Valid()
      ensures echec ==> r.None? && attractions == old(attractions)
      ensures !echec ==> r == Some(a.(id := old(prochainAttraction))) && attractions == old(attractions) + [r.value]
      ensures utilisateurs == old(utilisateurs) && reservations == old(reservations)
    {
      if echec {
        return None;
      }
      var nouvelle := a.(id := prochainAttraction);
      ClesDistinctesAjout(attractions, nouvelle, CleAttraction);
      attractions := attractions + [nouvelle];
      prochainAttraction := prochainAttraction + 1;
      r := Some(nouvelle);
    }

    /** `DAOAttraction.mettreAJour`. */
    method MettreAJourAttraction(a: Attraction, maintenant: int, echec: bool) returns (ok: bool)
      requires Valid()
      modifies this
      ensures Valid()
      ensures ok <==> !echec && exists i :: 0 <= i < |old(attractions)| && old(attractions)[i].id == a.id
      ensures echec ==> attractions == old(attractions)
      ensures !echec ==> AttractionsMisesAJour(old(attractions), attractions, a, maintenant)
      ensures utilisateurs == old(utilisateurs) && reservations == old(reservations)
    {
      if echec {
        return false;
      }
      ok := exists i :: 0 <= i < |attractions| && attractions[i].id == a.id;
      attractions := seq(|attractions|, i requires 0 <= i < |attractions| reads this =>
                           if attractions[i].id == a.id
                           then a.(dateCreation := attractions[i].dateCreation, dateModification := maintenant)
                           else attractions[i]);
    }

    /** `DAOAttraction.supprimer`. */
    method SupprimerAttraction(id: int, echec: bool) returns (ok: bool)
      requires Valid()
      modifies this
      ensures Valid()
      ensures echec ==> attractions == old(attractions)
      ensures !echec ==> attractions == Sans(old(attractions), AttractionDeCle(id))
      ensures ok <==> !echec && exists i :: 0 <= i < |old(attractions)| && old(attractions)[i].id == id
      ensures utilisateurs == old(utilisateurs) && reservations == old(reservations)
    {
      if echec {
        return false;
      }
      var avant := |attractions|;
      SansClesDistinctes(attractions, AttractionDeCle(id), CleAttraction);
      attractions := Sans(attractions, AttractionDeCle(id));
      ok := |attractions| < avant;
    }

    // ------------------------------------------------------- reservations

    /** `DAOReservation.creer`. */
    method CreerReservation(r: Reservation, echec: bool) returns (cree: Option<Reservation>)
      requires Valid()
      modifies this
      ensures Valid()
      ensures echec ==> cree.None? && reservations == old(reservations)
      ensures !echec ==> cree == Some(r.(id := old(prochainReservation))) && reservations == old(reservations) + [cree.value]
      ensures utilisateurs == old(utilisateurs) && attractions == old(attractions)
    {
      if echec {
        return None;
      }
      var nouvelle := r.(id := prochainReservation);
      ClesDistinctesAjout(reservations, nouvelle, CleReservation);
      reservations := reservations + [nouvelle];
      prochainReservation := prochainReservation + 1;
      cree := Some(nouvelle);
    }

    /** `DAOReservation.mettreAJour`. */
    method MettreAJourReservation(r: Reservation, maintenant: int, echec: bool) returns (ok: bool)
      requires Valid()
      modifies this
      ensures Valid()
      ensures ok <==> !echec && exists i :: 0 <= i < |old(reservations)| && old(reservations)[i].id == r.id
      ensures echec ==> reservations == old(reservations)
      ensures !echec ==> ReservationsMisesAJour(old(reservations), reservations, r, maintenant)
      ensures utilisateurs == old(utilisateurs) && attractions == old(attractions)
    {
      if echec {
        return false;
      }
      ok := exists i :: 0 <= i < |reservations| && reservations[i].id == r.id;
      reservations := seq(|reservations|, i requires 0 <= i < |reservations| reads this =>
                            if reservations[i].id == r.id
                            then r.(dateCreation := reservations[i].dateCreation, dateModification := maintenant)
                            else reservations[i]);
    }

    /** `DAOReservation.supprimer`. */
    method SupprimerReservation(id: int, echec: bool) returns (ok: bool)
      requires Valid()
      modifies this
      ensures Valid()
      ensures echec ==> reservations == old(reservations)
      ensures !echec ==> reservations == Sans(old(reservations), ReservationDeCle(id))
      ensures ok <==> !echec && exists i :: 0 <= i < |old(reservations)| && old(reservations)[i].id == id
      ensures utilisateurs == old(utilisateurs) && attractions == old(attractions)
    {
      if echec {
        return false;
      }
      var avant := |reservations|;
      SansClesDistinctes(reservations, ReservationDeCle(id), CleReservation);
      reservations := Sans(reservations, ReservationDeCle(id));
      ok := |reservations| < avant;
    }
  }
}
