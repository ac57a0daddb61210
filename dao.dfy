/** ReservationDAO and ReductionDAO over an in-memory database. Each table is a
    sequence of rows in result-set order and each auto-increment key a counter.
    A failing SQL statement is the flag `echec`: the statement then has no effect
    and the method returns its failure value. */
module Dao {
  import opened Commun
  import opened Texte
  import opened Model

  /** A row of table Reservation. A NULL user column is `None`; the status is
      stored as text. */
  datatype LigneReservation = LigneReservation(
    id: int, idUtilisateur: Option<int>, idAttraction: int, dateReservation: int,
    heureReservation: Option<Heure>, nombreBillets: int, statut: string)

  /** A row of table Reduction; the criterion is stored as text. */
  datatype LigneReduction = LigneReduction(id: int, nom: string, pourcentage: int, critere: string)

  // ------------------------------------------------------ text normalisation

  /** One char of `toUpperCase().replace("É","E").replace("È","E").replace("À","A")`. */
  function NormaliserCar(c: char): char {
    var m := MajusculeCar(c);
    if m == 'É' || m == 'È' then 'E' else if m == 'À' then 'A' else m
  }

  /** The normalisation applied to a stored status or criterion before `valueOf`,
      one char at a time. */
  function Normaliser(s: string): string {
    seq(|s|, i requires 0 <= i < |s| => NormaliserCar(s[i]))
  }

  /** `Normaliser` is the chain `toUpperCase().replace("É", "E").replace("È", "E")
      .replace("À", "A")` of `mapReservation` and `mapReduction`. */
  lemma NormaliserChaine(s: string)
    ensures Normaliser(s) == Remplacer(Remplacer(Remplacer(Majuscules(s), 'É', 'E'), 'È', 'E'), 'À', 'A')
  {
  }

  /** Normalising twice is normalising once. */
  lemma NormaliserIdempotent(s: string)
    ensures Normaliser(Normaliser(s)) == Normaliser(s)
  {
    var n := Normaliser(s);
    assert forall i :: 0 <= i < |n| ==> NormaliserCar(n[i]) == n[i];
  }

  /** Upper-case ASCII letters and '_' are left unchanged. */
  lemma NormaliserNom(s: string)
    requires forall i :: 0 <= i < |s| ==> 'A' <= s[i] <= 'Z' || s[i] == '_'
    ensures Normaliser(s) == s
  {
    assert forall i :: 0 <= i < |s| ==> Normaliser(s)[i] == s[i];
  }

  /** The status `mapReservation` reads from its text; `None` where `valueOf` throws. */
  function StatutLu(s: string): Option<StatutReservation> {
    StatutValueOf(Normaliser(s))
  }

  /** The criterion `mapReduction` reads from its text. */
  function CritereLu(s: string): Option<CritereReduction> {
    CritereValueOf(Normaliser(s))
  }

  /** A status written by `name()` reads back as itself. */
  lemma StatutAllerRetour(st: StatutReservation)
    ensures StatutLu(NomStatut(st)) == Some(st)
  {
    NormaliserNom(NomStatut(st));
  }

  /** A criterion written by `name()` reads back as itself. */
  lemma CritereAllerRetour(c: CritereReduction)
    ensures CritereLu(NomCritere(c)) == Some(c)
  {
    NormaliserNom(NomCritere(c));
  }

  /** A string normalises to `t` when each of its chars normalises to the char
      of `t` at the same place. */
  lemma NormaliserParCaractere(s: string, t: string)
    requires |s| == |t| && forall i :: 0 <= i < |s| ==> NormaliserCar(s[i]) == t[i]
    ensures Normaliser(s) == t
  {
  }

  /** Accents and case are folded: "Confirmée" is read as CONFIRMEE. */
  lemma StatutAccentue()
    ensures StatutLu("Confirmée") == Some(CONFIRMEE)
  {
    var s := "Confirmée";
    assert NormaliserCar(s[7]) == 'E';
    NormaliserParCaractere(s, "CONFIRMEE");
  }

  /** A text holding a space, such as "En attente", is never a status:
      normalisation keeps the space and no status name has one. */
  lemma StatutAvecEspace(s: string)
    requires ' ' in s
    ensures StatutLu(s) == None
  {
    var k :| 0 <= k < |s| && s[k] == ' ';
    assert Normaliser(s)[k] == ' ';
  }

  // ---------------------------------------------------------- row mapping

  /** The row `insertReservation` binds for `r` under key `id`. */
  function VersLigne(r: Reservation, id: int): LigneReservation {
    LigneReservation(id, if r.idUtilisateur == 0 then None else Some(r.idUtilisateur),
                     r.idAttraction, r.dateReservation, r.heureReservation,
                     r.nombreBillets, NomStatut(r.statut))
  }

  /** What `UPDATE Reservation ... WHERE id = ?` leaves: every row with the key
      of `ligne` becomes `ligne`, the others are kept. */
  predicate LignesReecrites(avant: seq<LigneReservation>, apres: seq<LigneReservation>, ligne: LigneReservation) {
    |apres| == |avant| &&
    forall i :: 0 <= i < |avant| ==> apres[i] == if avant[i].id == ligne.id then ligne else avant[i]
  }

  /** `mapReservation`: `getInt` reads a NULL user as 0 and a NULL time is a null
      heure; `None` where the status text is not a status. */
  function LireReservation(l: LigneReservation): (r: Option<Reservation>)
    ensures r.Some? <==> StatutLu(l.statut).Some?
    ensures r.Some? ==> r.value.id == l.id && r.value.heureReservation == l.heureReservation
  {
    match StatutLu(l.statut)
    case None => None
    case Some(st) =>
      Some(Reservation(l.id, if l.idUtilisateur.Some? then l.idUtilisateur.value else 0,
                       l.idAttraction, l.dateReservation, l.heureReservation,
                       l.nombreBillets, st))
  }

  /** A reservation written and read back is the same reservation under its new
      key; a guest (user 0) goes through a NULL column and comes back as 0. */
  lemma AllerRetourReservation(r: Reservation, id: int)
    ensures VersLigne(r, id).idUtilisateur.None? <==> r.idUtilisateur == 0
    ensures LireReservation(VersLigne(r, id)) == Some(r.(id := id))
  {
    StatutAllerRetour(r.statut);
  }

  /** Reading a stored row, changing the status and writing the reservation back
      under the same key changes nothing but the status text. */
  lemma RelectureReecriture(l: LigneReservation, st: StatutReservation)
    requires LigneLisible(l)
    ensures VersLigne(LireReservation(l).value.(statut := st), l.id) == l.(statut := NomStatut(st))
  {
  }

  /** `mapReduction`. */
  function LireReduction(l: LigneReduction): (r: Option<Reduction>)
    ensures r.Some? <==> CritereLu(l.critere).Some?
    ensures r.Some? ==> r.value.id == l.id && r.value.nom == l.nom && r.value.pourcentage == l.pourcentage
  {
    match CritereLu(l.critere)
    case None => None
    case Some(c) => Some(Reduction(l.id, l.nom, l.pourcentage, c))
  }

  /** A reduction written by `insertReduction` reads back unchanged under its key. */
  lemma AllerRetourReduction(r: Reduction, id: int)
    ensures LireReduction(LigneReduction(id, r.nom, r.pourcentage, NomCritere(r.critere))) == Some(r.(id := id))
  {
    CritereAllerRetour(r.critere);
  }

  /** A stored reservation row `mapReservation` can read: a known status and no
      user 0 (a guest is always stored as NULL). */
  predicate LigneLisible(l: LigneReservation) {
    StatutLu(l.statut).Some? && l.idUtilisateur != Some(0)
  }

  /** The reservation `mapReservation` reads from a readable row. */
  function Relue(l: LigneReservation): (r: Reservation)
    requires LigneLisible(l)
    ensures LireReservation(l) == Some(r)
  {
    LireReservation(l).value
  }

  /** The reservations `getReservationsByUtilisateur` reads from `lignes`: the
      rows whose user column equals the key, mapped, in row order. A NULL user
      equals no key. */
  function Historique(lignes: seq<LigneReservation>, idUtilisateur: int): (rs: seq<Reservation>)
    requires forall i :: 0 <= i < |lignes| ==> LigneLisible(lignes[i])
    ensures |rs| <= |lignes|
    ensures forall i :: 0 <= i < |rs| ==> rs[i].idUtilisateur == idUtilisateur
    ensures forall i :: 0 <= i < |lignes| && lignes[i].idUtilisateur == Some(idUtilisateur) ==>
              Relue(lignes[i]) in rs
  {
    if lignes == [] then []
    else
      var debut, l := lignes[..|lignes| - 1], lignes[|lignes| - 1];
      assert forall i :: 0 <= i < |debut| ==> debut[i] == lignes[i];
      Historique(debut, idUtilisateur) +
        (if l.idUtilisateur == Some(idUtilisateur) then [Relue(l)] else [])
  }

  /** `rs` lists, through the strictly increasing row positions `idx`, the
      reservation of every row of user `idUtilisateur` and of no other row. */
  ghost predicate Extraite(rs: seq<Reservation>, lignes: seq<LigneReservation>, idUtilisateur: int, idx: seq<int>)
    requires forall i :: 0 <= i < |lignes| ==> LigneLisible(lignes[i])
  {
    && |idx| == |rs|
    && (forall k :: 0 <= k < |idx| ==>
          0 <= idx[k] < |lignes| && lignes[idx[k]].idUtilisateur == Some(idUtilisateur) &&
          rs[k] == Relue(lignes[idx[k]]))
    && (forall k, m :: 0 <= k < m < |idx| ==> idx[k] < idx[m])
    && (forall j :: 0 <= j < |lignes| && lignes[j].idUtilisateur == Some(idUtilisateur) ==> j in idx)
  }

  /** One more row extends an enumeration of the rows before it. */
  lemma ExtraiteAjout(debut: seq<LigneReservation>, l: LigneReservation, idUtilisateur: int, rs: seq<Reservation>,
                      idx: seq<int>)
    requires forall i :: 0 <= i < |debut| ==> LigneLisible(debut[i])
    requires LigneLisible(l)
    requires Extraite(rs, debut, idUtilisateur, idx)
    ensures l.idUtilisateur == Some(idUtilisateur) ==>
              Extraite(rs + [Relue(l)], debut + [l], idUtilisateur, idx + [|debut|])
    ensures l.idUtilisateur != Some(idUtilisateur) ==> Extraite(rs, debut + [l], idUtilisateur, idx)
  {
    var lignes := debut + [l];
    assert forall i :: 0 <= i < |debut| ==> lignes[i] == debut[i];
    if l.idUtilisateur == Some(idUtilisateur) {
      var rs2, idx2 := rs + [Relue(l)], idx + [|debut|];
      forall k | 0 <= k < |idx2|
        ensures 0 <= idx2[k] < |lignes| && lignes[idx2[k]].idUtilisateur == Some(idUtilisateur) &&
                rs2[k] == Relue(lignes[idx2[k]])
      {
        if k < |idx| {
          assert idx2[k] == idx[k] && rs2[k] == rs[k];
        }
      }
      forall j | 0 <= j < |lignes| && lignes[j].idUtilisateur == Some(idUtilisateur)
        ensures j in idx2
      {
        if j < |debut| {
          assert j in idx;
        } else {
          assert idx2[|idx|] == j;
        }
      }
    }
  }

  /** The history is exactly the rows of the user, in row order. */
  lemma {:induction false} HistoriqueOrdonne(lignes: seq<LigneReservation>, idUtilisateur: int)
    requires forall i :: 0 <= i < |lignes| ==> LigneLisible(lignes[i])
    ensures exists idx :: Extraite(Historique(lignes, idUtilisateur), lignes, idUtilisateur, idx)
  {
    if lignes == [] {
      assert Historique(lignes, idUtilisateur) == [];
      assert Extraite([], lignes, idUtilisateur, []);
    } else {
      var n := |lignes| - 1;
      var debut, l := lignes[..n], lignes[n];
      assert lignes == debut + [l];
      HistoriqueOrdonne(debut, idUtilisateur);
      var idx :| Extraite(Historique(debut, idUtilisateur), debut, idUtilisateur, idx);
      ExtraiteAjout(debut, l, idUtilisateur, Historique(debut, idUtilisateur), idx);
      if l.idUtilisateur == Some(idUtilisateur) {
        assert Extraite(Historique(lignes, idUtilisateur), lignes, idUtilisateur, idx + [n]);
      } else {
        assert Extraite(Historique(lignes, idUtilisateur), lignes, idUtilisateur, idx);
      }
    }
  }

  /** A guest's reservations are stored with a NULL user, which `= 0` never
      selects: the history of user 0 is empty. */
  lemma {:induction false} HistoriqueInvite(lignes: seq<LigneReservation>)
    requires forall i :: 0 <= i < |lignes| ==> LigneLisible(lignes[i])
    ensures Historique(lignes, 0) == []
  {
    if lignes != [] {
      HistoriqueInvite(lignes[..|lignes| - 1]);
    }
  }

  /** The key of a reservation row. */
  function IdLigne(l: LigneReservation): int {
    l.id
  }

  /** The reservation rows `WHERE id = ?` selects. */
  function DeCle(id: int): LigneReservation -> bool {
    (l: LigneReservation) => l.id == id
  }

  /** The invoices `WHERE id_reservation = ?` selects. */
  function FacturesDe(id: int): Facture -> bool {
    (f: Facture) => f.idReservation == id
  }

  /** The users `WHERE id = ?` selects. */
  function UtilisateurDeCle(id: int): Utilisateur -> bool {
    (u: Utilisateur) => u.id == id
  }

  /** The users `WHERE email = ?` selects. */
  function UtilisateurDeMail(email: string): Utilisateur -> bool {
    (u: Utilisateur) => u.email == email
  }

  /** The attractions `WHERE id = ?` selects. */
  function AttractionDeCle(id: int): Attraction -> bool {
    (a: Attraction) => a.id == id
  }

  /** The reduction rows `WHERE id = ?` selects. */
  function ReductionDeCle(id: int): LigneReduction -> bool {
    (l: LigneReduction) => l.id == id
  }

  /** The reductions `getAllReductions` returns for `lignes`, in row order. */
  function Catalogue(lignes: seq<LigneReduction>): (rs: seq<Reduction>)
    requires forall i :: 0 <= i < |lignes| ==> CritereLu(lignes[i].critere).Some?
    ensures |rs| == |lignes| && forall i :: 0 <= i < |rs| ==> Some(rs[i]) == LireReduction(lignes[i])
  {
    if lignes == [] then [] else [LireReduction(lignes[0]).value] + Catalogue(lignes[1..])
  }

  /** The JDBC database of the int-keyed stack. */
  class Base {
    var utilisateurs: seq<Utilisateur>
    var attractions: seq<Attraction>
    var reservations: seq<LigneReservation>
    var factures: seq<Facture>
    var reductions: seq<LigneReduction>
    var prochainUtilisateur: int
    var prochainReservation: int
    var prochainFacture: int
    var prochainReduction: int

    /** Keys are positive and below their counter, reservation keys are
        distinct, and every status and criterion text is readable. */
    ghost predicate Valid()
      reads this
    {
      && prochainUtilisateur >= 1 && prochainReservation >= 1
      && prochainFacture >= 1 && prochainReduction >= 1
      && (forall i :: 0 <= i < |utilisateurs| ==> 1 <= utilisateurs[i].id < prochainUtilisateur)
      && (forall i :: 0 <= i < |reservations| ==>
            LigneLisible(reservations[i]) && 1 <= reservations[i].id < prochainReservation)
      && ClesDistinctes(reservations, IdLigne)
      && (forall i :: 0 <= i < |reductions| ==> CritereLu(reductions[i].critere).Some?)
    }

    constructor ()
      ensures Valid()
      ensures utilisateurs == [] && attractions == [] && reservations == [] && factures == [] && reductions == []
    {
      utilisateurs, attractions, reservations, factures, reductions := [], [], [], [], [];
      prochainUtilisateur, prochainReservation, prochainFacture, prochainReduction := 1, 1, 1, 1;
    }

    // ------------------------------------------------------------- lookups

    /** `UtilisateurDAO.getUtilisateurById`. */
    function UtilisateurParId(id: int): (r: Option<Utilisateur>)
      reads this
      ensures r.Some? ==> r.value in utilisateurs && r.value.id == id
      ensures r.None? <==> forall i :: 0 <= i < |utilisateurs| ==> utilisateurs[i].id != id
    {
      PremierTel(utilisateurs, UtilisateurDeCle(id))
    }

    /** `UtilisateurDAO.getUtilisateurByEmail`: the first user with that email. */
    function UtilisateurParEmail(email: string): (r: Option<Utilisateur>)
      reads this
      ensures r.Some? ==> r.value in utilisateurs && r.value.email == email
      ensures r.None? <==> forall i :: 0 <= i < |utilisateurs| ==> utilisateurs[i].email != email
    {
      PremierTel(utilisateurs, UtilisateurDeMail(email))
    }

    /** `AttractionDAO.getAttractionById`. */
    function AttractionParId(id: int): (r: Option<Attraction>)
      reads this
      ensures r.Some? ==> r.value in attractions && r.value.id == id
      ensures r.None? <==> forall i :: 0 <= i < |attractions| ==> attractions[i].id != id
    {
      PremierTel(attractions, AttractionDeCle(id))
    }

    /** `getReservationById`, read through `mapReservation`. */
    function ReservationParId(id: int): (r: Option<Reservation>)
      requires Valid()
      reads this
      ensures r.None? <==> forall i :: 0 <= i < |reservations| ==> reservations[i].id != id
      ensures r.Some? ==> exists i :: 0 <= i < |reservations| && reservations[i].id == id &&
                                      LireReservation(reservations[i]) == r
    {
      match PremierTel(reservations, DeCle(id))
      case None => None
      case Some(l) => LireReservation(l)
    }

    /** The row `getReservationById` reads is the only row with that key. */
    lemma LigneDeCle(id: int) returns (k: nat)
      requires Valid() && ReservationParId(id).Some?
      ensures k < |reservations| && reservations[k].id == id
      ensures LireReservation(reservations[k]) == ReservationParId(id)
      ensures forall i :: 0 <= i < |reservations| && reservations[i].id == id ==> i == k
    {
      k :| 0 <= k < |reservations| && reservations[k].id == id && LireReservation(reservations[k]) == ReservationParId(id);
      forall i | 0 <= i < |reservations| && reservations[i].id == id ensures i == k {
        assert IdLigne(reservations[i]) == IdLigne(reservations[k]);
      }
    }

    /** A guest is never found: every stored user has a key of at least 1. */
    lemma InviteInconnu()
      requires Valid()
      ensures UtilisateurParId(0).None?
    {
    }

    // -------------------------------------------------------- Reservation

    /** `insertReservation`: the generated key on success, -1 on failure. */
    method InsertReservation(r: Reservation, echec: bool) returns (id: int)
      requires Valid()
      modifies this
      ensures Valid()
      ensures echec ==> id == -1 && reservations == old(reservations)
      ensures !echec ==> id == old(prochainReservation) && id > 0 &&
                         reservations == old(reservations) + [VersLigne(r, id)]
      ensures utilisateurs == old(utilisateurs) && attractions == old(attractions)
      ensures factures == old(factures) && reductions == old(reductions)
      ensures prochainFacture == old(prochainFacture)
    {
      if echec {
        return -1;
      }
      id := prochainReservation;
      StatutAllerRetour(r.statut);
      reservations := reservations + [VersLigne(r, id)];
      prochainReservation := prochainReservation + 1;
    }

    /** `getReservationsByUtilisateur`: the rows of that user mapped, in row order. */
    method GetReservationsByUtilisateur(idUtilisateur: int) returns (liste: seq<Reservation>)
      requires Valid()
      ensures liste == Historique(reservations, idUtilisateur)
    {
      liste := [];
      for i := 0 to |reservations|
        invariant liste == Historique(reservations[..i], idUtilisateur)
      {
        assert reservations[..i + 1][..i] == reservations[..i];
        if reservations[i].idUtilisateur == Some(idUtilisateur) {
          liste := liste + [Relue(reservations[i])];
        }
      }
      assert reservations[..|reservations|] == reservations;
    }

    /** `getAllReservations`: every row mapped, in row order. */
    method GetAllReservations() returns (liste: seq<Reservation>)
      requires Valid()
      ensures |liste| == |reservations|
      ensures forall i :: 0 <= i < |liste| ==> LireReservation(reservations[i]) == Some(liste[i])
    {
      liste := [];
      for i := 0 to |reservations|
        invariant |liste| == i
        invariant forall k :: 0 <= k < i ==> LireReservation(reservations[k]) == Some(liste[k])
      {
        liste := liste + [LireReservation(reservations[i]).value];
      }
    }

    /** `updateReservation`: rewrites the row with the reservation's key; true
        when such a row exists. */
    method UpdateReservation(r: Reservation) returns (ok: bool)
      requires Valid()
      modifies this
      ensures Valid()
      ensures ok <==> exists i :: 0 <= i < |old(reservations)| && old(reservations)[i].id == r.id
      ensures LignesReecrites(old(reservations), reservations, VersLigne(r, r.id))
      ensures utilisateurs == old(utilisateurs) && attractions == old(attractions)
      ensures factures == old(factures) && reductions == old(reductions)
    {
      ok := exists i :: 0 <= i < |reservations| && reservations[i].id == r.id;
      StatutAllerRetour(r.statut);
      reservations := seq(|reservations|, i requires 0 <= i < |reservations| reads this =>
                            if reservations[i].id == r.id then VersLigne(r, r.id) else reservations[i]);
    }

    /** `deleteReservation`: one transaction removes the reservation's invoices
        then the reservation; true when a reservation row was removed. On
        failure it rolls back and both tables are as before. */
    method DeleteReservation(id: int, echec: bool) returns (ok: bool)
      requires Valid()
      modifies this
      ensures Valid()
      ensures echec ==> !ok && reservations == old(reservations) && factures == old(factures)
      ensures !echec ==> factures == Sans(old(factures), FacturesDe(id)) &&
                         reservations == Sans(old(reservations), DeCle(id))
      ensures ok <==> !echec && exists i :: 0 <= i < |old(reservations)| && old(reservations)[i].id == id
      ensures forall i :: 0 <= i < |reservations| ==> reservations[i].id != id || echec
      ensures utilisateurs == old(utilisateurs) && attractions == old(attractions) && reductions == old(reductions)
    {
      if echec {
        return false;
      }
      var avant := |reservations|;
      SansClesDistinctes(reservations, DeCle(id), IdLigne);
      factures := Sans(factures, FacturesDe(id));
      reservations := Sans(reservations, DeCle(id));
      ok := |reservations| < avant;
    }

    // ---------------------------------------------------------- Reduction

    /** `insertReduction`: stores the name, the percentage and `critere.name()`. */
    method InsertReduction(r: Reduction, echec: bool) returns (ok: bool)
      requires Valid()
      modifies this
      ensures Valid()
      ensures ok == !echec
      ensures echec ==> reductions == old(reductions)
      ensures !echec ==> reductions == old(reductions) +
                           [LigneReduction(old(prochainReduction), r.nom, r.pourcentage, NomCritere(r.critere))]
      ensures utilisateurs == old(utilisateurs) && attractions == old(attractions)
      ensures reservations == old(reservations) && factures == old(factures)
    {
      if echec {
        return false;
      }
      CritereAllerRetour(r.critere);
      reductions := reductions + [LigneReduction(prochainReduction, r.nom, r.pourcentage, NomCritere(r.critere))];
      prochainReduction := prochainReduction + 1;
      ok := true;
    }

    /** `getAllReductions`: every row mapped, in row order. */
    method GetAllReductions() returns (liste: seq<Reduction>)
      requires Valid()
      ensures liste == Catalogue(reductions)
    {
      liste := [];
      for i := 0 to |reductions|
        invariant |liste| == i
        invariant forall k :: 0 <= k < i ==> Some(liste[k]) == LireReduction(reductions[k])
      {
        liste := liste + [LireReduction(reductions[i]).value];
      }
    }

    /** `deleteReduction`: true when a row was removed. */
    method DeleteReduction(id: int, echec: bool) returns (ok: bool)
      requires Valid()
      modifies this
      ensures Valid()
      ensures echec ==> reductions == old(reductions)
      ensures !echec ==> reductions == Sans(old(reductions), ReductionDeCle(id))
      ensures ok <==> !echec && exists i :: 0 <= i < |old(reductions)| && old(reductions)[i].id == id
      ensures utilisateurs == old(utilisateurs) && attractions == old(attractions)
      ensures reservations == old(reservations) && factures == old(factures)
    {
      if echec {
        return false;
      }
      var avant := |reductions|;
      reductions := Sans(reductions, ReductionDeCle(id));
      ok := |reductions| < avant;
    }

    // ------------------------------------------------ users and invoices

    /** `UtilisateurDAO.insertUtilisateur`: the user is stored under a new key. */
    method InsertUtilisateur(u: Utilisateur, echec: bool) returns (ok: bool)
      requires Valid()
      modifies this
      ensures Valid()
      ensures ok == !echec
      ensures echec ==> utilisateurs == old(utilisateurs)
      ensures !echec ==> utilisateurs == old(utilisateurs) + [u.(id := old(prochainUtilisateur))]
      ensures attractions == old(attractions) && reservations == old(reservations)
      ensures factures == old(factures) && reductions == old(reductions)
    {
      if echec {
        return false;
      }
      utilisateurs := utilisateurs + [u.(id := prochainUtilisateur)];
      prochainUtilisateur := prochainUtilisateur + 1;
      ok := true;
    }

    /** `FactureDAO.insertFacture`: the invoice is stored under a new key. */
    method InsertFacture(f: Facture, echec: bool) returns (ok: bool)
      requires Valid()
      modifies this
      ensures Valid()
      ensures ok == !echec
      ensures echec ==> factures == old(factures)
      ensures !echec ==> factures == old(factures) + [f.(id := old(prochainFacture))]
      ensures utilisateurs == old(utilisateurs) && attractions == old(attractions)
      ensures reservations == old(reservations) && reductions == old(reductions)
    {
      if echec {
        return false;
      }
      factures := factures + [f.(id := prochainFacture)];
      prochainFacture := prochainFacture + 1;
      ok := true;
    }
  }

  /** Deleting a reservation a second time removes nothing more and reports false. */
  method SupprimerDeuxFois(db: Base, id: int) returns (premier: bool, second: bool)
    requires db.Valid()
    modifies db
    ensures !second
    ensures db.reservations == Sans(old(db.reservations), DeCle(id))
    ensures db.factures == Sans(old(db.factures), FacturesDe(id))
  {
    premier := db.DeleteReservation(id, false);
    SansIdempotent(old(db.reservations), DeCle(id));
    SansIdempotent(old(db.factures), FacturesDe(id));
    second := db.DeleteReservation(id, false);
  }
}
