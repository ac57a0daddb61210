/** The int-keyed records of package `model`. Dates (LocalDate) are day numbers;
    prices (double) are exact reals. */
module Model {
  import opened Commun

  datatype TypeUtilisateur = INVITE | CLIENT | MEMBRE | ADMIN

  datatype Utilisateur = Utilisateur(
    id: int, nom: string, email: string, motDePasse: string,
    typeUtilisateur: TypeUtilisateur, age: int, dateInscription: int)

  datatype Attraction = Attraction(
    id: int, nom: string, description: string, prix: real, capacite: int, disponible: bool)

  datatype StatutReservation = CONFIRMEE | ANNULEE | EN_ATTENTE

  /** A LocalTime. */
  datatype Heure = Heure(heure: int, minute: int, seconde: int)

  /** A reservation; `idUtilisateur` 0 stands for a guest. */
  datatype Reservation = Reservation(
    id: int, idUtilisateur: int, idAttraction: int, dateReservation: int,
    heureReservation: Option<Heure>, nombreBillets: int, statut: StatutReservation)

  datatype CritereReduction = ENFANT | SENIOR | FIDELITE

  datatype Reduction = Reduction(id: int, nom: string, pourcentage: int, critere: CritereReduction)

  datatype Facture = Facture(
    id: int, idReservation: int, montantTotal: real, dateFacture: int, reductionAppliquee: bool)

  /** `StatutReservation.name()`. */
  function NomStatut(s: StatutReservation): string {
    match s
    case CONFIRMEE => "CONFIRMEE"
    case ANNULEE => "ANNULEE"
    case EN_ATTENTE => "EN_ATTENTE"
  }

  /** `StatutReservation.valueOf`: `None` where Java throws IllegalArgumentException. */
  function StatutValueOf(s: string): (r: Option<StatutReservation>)
    ensures r.Some? ==> NomStatut(r.value) == s
  {
    if s == "CONFIRMEE" then Some(CONFIRMEE)
    else if s == "ANNULEE" then Some(ANNULEE)
    else if s == "EN_ATTENTE" then Some(EN_ATTENTE)
    else None
  }

  /** `CritereReduction.name()`. */
  function NomCritere(c: CritereReduction): string {
    match c
    case ENFANT => "ENFANT"
    case SENIOR => "SENIOR"
    case FIDELITE => "FIDELITE"
  }

  /** `CritereReduction.valueOf`. */
  function CritereValueOf(s: string): (r: Option<CritereReduction>)
    ensures r.Some? ==> NomCritere(r.value) == s
  {
    if s == "ENFANT" then Some(ENFANT)
    else if s == "SENIOR" then Some(SENIOR)
    else if s == "FIDELITE" then Some(FIDELITE)
    else None
  }
}
