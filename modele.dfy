/** The Long-keyed entities of package `modele`, as value records. Dates and
    times (java.util.Date) are instants given as integers; prices (BigDecimal)
    are exact reals; a reservation holds the keys of its user and attraction. */
module Modele {
  import opened Commun

  datatype Utilisateur = Utilisateur(
    id: int, nom: string, prenom: string, email: string, motDePasse: string,
    telephone: Option<string>, admin: bool, dateCreation: int, dateModification: int)

  datatype Attraction = Attraction(
    id: int, nom: string, description: Option<string>, prix: real, capacite: int, duree: int,
    ageMiniRequis: int, tailleMinRequise: int, imageUrl: Option<string>, estDisponible: bool,
    dateCreation: int, dateModification: int)

  /** `utilisateurId` and `attractionId` stand for `getUtilisateur().getId()`
      and `getAttraction().getId()`. */
  datatype Reservation = Reservation(
    id: int, utilisateurId: int, attractionId: int, dateReservation: int, heureReservation: int,
    nombrePersonnes: int, prixTotal: real, statut: string, commentaire: Option<string>,
    dateCreation: int, dateModification: int)
}
