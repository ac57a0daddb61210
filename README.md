# Attractions: a model of the theme-park booking core

The application sells tickets for the attractions of a theme park. It holds
two parallel stacks that share no code, and the model keeps them apart.

- The **int-keyed stack** (`model`, `dao`, `controller`, `view`). The Swing
  reservation screen offers the available attractions and the free hour slots
  of a day. `ReservationController` books a slot: it inserts a CONFIRMEE
  reservation, then derives an invoice with at most one discount (child,
  senior or member, first match in catalogue order). `ConnexionController`
  registers and logs users in with plain-text passwords. `ReservationDAO` and
  `ReductionDAO` store guests as NULL users, delete a reservation together
  with its invoices in one transaction, and read statuses and criteria back
  through an upper-casing, accent-folding normalisation. `ValidationUtil`
  holds the static field checks.
- The **Long-keyed stack** (`modele`, `service`, `controleur`, `FabriqueDAO`).
  Three services check their arguments in a fixed order and throw a
  `ServiceException` at the first failing check:
  - `ServiceAttraction` creates attractions and merges guarded partial
    updates into them;
  - `ServiceUtilisateur` stores SHA-256 digests of passwords as lowercase,
    zero-padded hex, keeps emails unique, and logs users in by hashing then
    comparing;
  - `ServiceReservation` books at the attraction's price times the number of
    people, with status "En attente".

  `Controleur` keeps the session user and checks the connected,
  administrator and owner-or-administrator guards before it calls a service.

Each database table is a sequence of rows, in result-set order, held in a
class. An auto-increment key is a counter beside its table.

| Java | Dafny |
|---|---|
| a write that fails | a flag `echec`; the failed statement then has no effect |
| today and now | the parameters `aujourdhui` and `maintenant` |
| `double` and `BigDecimal` | `real` |
| `LocalDate` and `Date` | `int` |
| a nullable reference | `Option` |
| a call that throws | `Result` or `Outcome` |

## Model

| member | source | states |
|---|---|---|
| Util.EstVide | src/util/ValidationUtil.java:20-22 | blank exactly for null or a string whose every char is at most U+0020 (Java `trim`) |
| Texte.TrimVide | src/util/ValidationUtil.java:21 | `trim().isEmpty()` holds exactly when every char is at most U+0020 |
| Util.ValiderNonVide | src/util/ValidationUtil.java:30-34 | passes iff the string is non-null with a char above U+0020; otherwise fails naming the field |
| Util.ValiderLongueurMin | src/util/ValidationUtil.java:43-48 | the emptiness failure comes first; then fails iff the untrimmed length is below the minimum |
| Util.LongueurLocale | src/util/ValidationUtil.java:12-13 | the longest prefix made of `[A-Za-z0-9+_.-]`: its chars are all in the class and the next one is not |
| Util.CorrespondEmail | src/util/ValidationUtil.java:12-13 | true iff some split at '@' has a non-empty class run before it, a non-empty tail after it, and no line terminator in the tail |
| Util.ValiderEmail | src/util/ValidationUtil.java:55-60 | passes iff the pattern matches; blank input is an empty-field failure, any other rejected address is an invalid-email failure |
| Util.ValiderMontantPositif | src/util/ValidationUtil.java:68-72 | passes iff the amount is non-null and strictly positive (zero fails) |
| Util.ValiderEntierPositif | src/util/ValidationUtil.java:80-84 | passes iff the value is at least 1 |
| Util.ValiderDateFuture | src/util/ValidationUtil.java:92-96 | fails for null and for instants strictly before now; now itself passes |
| Model.StatutValueOf | src/model/Reservation.java:15-17 | `valueOf` succeeds only on a status name, and gives the status with that `name()` |
| Model.CritereValueOf | src/model/Reduction.java:11-13 | `valueOf` succeeds only on a criterion name, and gives the criterion with that `name()` |
| Texte.Majuscules | src/dao/ReservationDAO.java:182 | `toUpperCase` maps every char on its own and keeps the length |
| Texte.Remplacer | src/dao/ReservationDAO.java:183-185 | `replace` of one char changes exactly the occurrences of that char |
| Dao.NormaliserChaine | src/dao/ReservationDAO.java:180-186 | the per-char normalisation equals the chain upper-case, then É→E, È→E, À→A |
| Dao.NormaliserIdempotent | src/dao/ReservationDAO.java:180-186 | normalising twice is normalising once |
| Dao.StatutAccentue | src/dao/ReservationDAO.java:180-186 | "Confirmée" reads back as CONFIRMEE |
| Dao.StatutAvecEspace | src/dao/ReservationDAO.java:180-186 | a stored text holding a space, such as "En attente", is never a status |
| Dao.StatutAllerRetour | src/dao/ReservationDAO.java:49 | a status written with `name()` reads back as itself |
| Dao.CritereAllerRetour | src/dao/ReductionDAO.java:73-79 | a criterion written with `name()` reads back as itself |
| Dao.LireReservation | src/dao/ReservationDAO.java:166-188 | mapping succeeds iff the status text normalises to a status; it keeps the key and maps a NULL time to a null heure |
| Dao.AllerRetourReservation | src/dao/ReservationDAO.java:33-49 | guest 0 is stored as a NULL user; a reservation written then read is itself under its new key |
| Dao.RelectureReecriture | src/dao/ReservationDAO.java:166-188 | reading a row, changing the status and writing it back changes only the status text |
| Dao.LireReduction | src/dao/ReductionDAO.java:68-81 | mapping succeeds iff the criterion text normalises to a criterion; it keeps key, name and percentage |
| Dao.AllerRetourReduction | src/dao/ReductionDAO.java:18-20 | a reduction inserted then read back is itself under its key |
| Dao.Catalogue | src/dao/ReductionDAO.java:33-50 | one reduction per row, each row's mapping, in row order |
| Dao.Historique | src/dao/ReservationDAO.java:76-95 | at most one reservation per row, each of that user, and every row of that user is listed (exactness and order: `Dao.HistoriqueOrdonne`) |
| Dao.HistoriqueOrdonne | src/dao/ReservationDAO.java:76-95 | the history enumerates, by strictly increasing row positions, exactly the rows of that user: none missing, none extra, in row order |
| Dao.HistoriqueInvite | src/dao/ReservationDAO.java:33-37 | a guest is stored as NULL, which `= 0` never selects: user 0's history is empty |
| Dao.Base.UtilisateurParId | src/dao/UtilisateurDAO.java:53-69 | a user with that key, or none exactly when no row has it |
| Dao.Base.UtilisateurParEmail | src/dao/UtilisateurDAO.java:77-93 | a user with that email, or none exactly when no row has it |
| Dao.Base.AttractionParId | src/dao/AttractionDAO.java:30-46 | an attraction with that key, or none exactly when no row has it |
| Dao.Base.ReservationParId | src/controller/ReservationController.java:95 | the mapping of a row with that key, or none exactly when no row has it |
| Dao.Base.LigneDeCle | src/controller/ReservationController.java:95 | the row read by key is the only row with that key |
| Dao.Base.InviteInconnu | src/controller/ReservationController.java:37 | user 0 (a guest) is never found |
| Dao.Base.InsertReservation | src/dao/ReservationDAO.java:26-68 | on success, one row under the next key and that key returned; on failure -1 and no change |
| Dao.Base.GetReservationsByUtilisateur | src/dao/ReservationDAO.java:76-95 | the loop returns that user's rows, mapped, in row order |
| Dao.Base.GetAllReservations | src/dao/ReservationDAO.java:102-119 | every row mapped, in row order |
| Dao.Base.UpdateReservation | src/controller/ReservationController.java:98 | rewrites the row with the key; true iff such a row existed |
| Dao.Base.DeleteReservation | src/dao/ReservationDAO.java:129-157 | removes the invoices of the reservation, then the reservation; true iff a reservation row went; a failure rolls both tables back |
| Dao.SupprimerDeuxFois | src/dao/ReservationDAO.java:143-146 | a second delete of the same key reports false and removes nothing more |
| Dao.Base.InsertReduction | src/dao/ReductionDAO.java:12-29 | stores name, percentage and `critere.name()` under the next key; false on failure |
| Dao.Base.GetAllReductions | src/dao/ReductionDAO.java:33-50 | the loop returns the catalogue in row order |
| Dao.Base.DeleteReduction | src/dao/ReductionDAO.java:52-66 | removes the rows with the key; true iff one was removed |
| Dao.Base.InsertUtilisateur | src/dao/UtilisateurDAO.java:26-45 | appends the user under the next key; false on failure |
| Dao.Base.InsertFacture | src/dao/FactureDAO.java:12-30 | appends the invoice under the next key; false on failure |
| Controller.PremiereApplicable | src/controller/ReservationController.java:49-58 | the first reduction in catalogue order whose criterion applies, or none iff none applies |
| Controller.Tarif | src/controller/ReservationController.java:39-60 | the flag is set iff some reduction applies; without one the amount is price times tickets |
| Controller.PremiereSeulement | src/controller/ReservationController.java:55-58 | reductions never stack: the first applicable one alone reduces the amount by its percentage |
| Controller.OrdreDuCatalogue | src/controller/ReservationController.java:49-58 | for every member under 12, catalogue order alone decides between ENFANT and FIDELITE |
| Controller.GardeRedondante | src/controller/ReservationController.java:45 | when the outer guard is false no reduction applies, so the guard changes nothing |
| Controller.AppliquerReduction | src/controller/ReservationController.java:49-60 | the loop with its `break` computes `Tarif` |
| Controller.Facturer | src/controller/ReservationController.java:39-70 | appends the derived invoice, dated today and keyed to the reservation; a failed invoice insert is ignored |
| Controller.ReserverAttraction | src/controller/ReservationController.java:20-75 | bad tickets or a past date give false and no change; otherwise one CONFIRMEE row; a missing attraction or user raises after the row exists; otherwise true with the invoice |
| Controller.ReserverCommeInvite | src/controller/ReservationController.java:37-44 | a guest booking leaves an orphan row with a NULL user, no invoice, and raises |
| Controller.AnnulerReservation | src/controller/ReservationController.java:94-101 | false iff the key is unknown; otherwise only that row's status becomes ANNULEE |
| Controller.Connecter | src/controller/ConnexionController.java:18-24 | a user iff one has that email and its stored password equals the given one exactly |
| Controller.Inscrire | src/controller/ConnexionController.java:29-36 | a taken email gives false and no insert; otherwise one user dated today, who can then log in |
| View.InitAttractionBox | src/view/ReservationView.java:111-118 | exactly the available attractions, in order |
| View.UpdateHeureBox | src/view/ReservationView.java:125-153 | empty without attraction or date; otherwise the nine slots 10h to 18h in order, each unavailable iff a reservation of that attraction and day is at that hour |
| Texte.ContientMilieu | src/view/ReservationView.java:185 | a string contains any text placed inside it |
| Texte.IndexOf | src/view/ReservationView.java:190 | the first position of the char, or -1 iff it is absent |
| Texte.ParseEnDecimal | src/view/ReservationView.java:190 | an hour printed in decimal parses back to itself |
| View.LireSaisie | src/view/ReservationView.java:180-191 | missing fields and "indisponible" labels are refused as such; a read hour is the number before the first 'h', at minute 0 |
| View.IndexOfLibelle | src/view/ReservationView.java:147-149 | the first 'h' of a slot label follows its digits |
| View.LibelleRelu | src/view/ReservationView.java:144-191 | a free slot's label reads back as its hour; an unavailable one is refused |
| View.HandleReservation | src/view/ReservationView.java:174-206 | the checks refuse with no change; an abandoned payment changes nothing; otherwise the controller books the chosen hour |
| Fabrique.Tables.TrouverUtilisateur | src/dao/FabriqueDAO.java:116-140 | the user with that key, or none iff no row has it |
| Fabrique.Tables.UtilisateursParEmail | src/dao/FabriqueDAO.java:172-211 | exactly the users with that email |
| Fabrique.Tables.TrouverAttraction | src/dao/FabriqueDAO.java:304-331 | the attraction with that key, or none iff no row has it |
| Fabrique.Tables.TrouverReservation | src/dao/FabriqueDAO.java:513-547 | the row with that key, only when its user and attraction are found; under distinct keys, such a row is always returned |
| Fabrique.Tables.TrouverToutesReservations | src/dao/FabriqueDAO.java:550-586 | exactly the rows whose user and attraction are found |
| Fabrique.Tables.TrouverReservationsParAttribut | src/dao/FabriqueDAO.java:589-638 | any name outside `id`, `utilisateur_id`, `attraction_id` and `nombre_personnes` fails; otherwise exactly the joined rows whose column has the value |
| Fabrique.Tables.UtilisateurUnique | src/dao/FabriqueDAO.java:116-140 | every row with the key is the row found |
| Fabrique.Tables.AttractionUnique | src/dao/FabriqueDAO.java:304-331 | every row with the key is the row found |
| Fabrique.Tables.ReservationUnique | src/dao/FabriqueDAO.java:513-547 | every row with the key is the row found |
| Fabrique.Tables.CreerUtilisateur | src/dao/FabriqueDAO.java:82-113 | the user appended under the next key, or nothing on failure |
| Fabrique.Tables.MettreAJourUtilisateur | src/dao/FabriqueDAO.java:214-239 | rows with the key take the new fields, keep their creation date and are dated now |
| Fabrique.Tables.SupprimerUtilisateur | src/dao/FabriqueDAO.java:242-253 | removes the rows with the key; true iff one went |
| Fabrique.Tables.CreerAttraction | src/dao/FabriqueDAO.java:267-301 | the attraction appended under the next key, or nothing on failure |
| Fabrique.Tables.MettreAJourAttraction | src/dao/FabriqueDAO.java:413-442 | rows with the key take the new fields, keep their creation date and are dated now |
| Fabrique.Tables.SupprimerAttraction | src/dao/FabriqueDAO.java:445-456 | removes the rows with the key; true iff one went |
| Fabrique.Tables.CreerReservation | src/dao/FabriqueDAO.java:476-510 | the reservation appended under the next key, or nothing on failure |
| Fabrique.Tables.MettreAJourReservation | src/dao/FabriqueDAO.java:641-669 | rows with the key take the new fields, keep their creation date and are dated now |
| Fabrique.Tables.SupprimerReservation | src/dao/FabriqueDAO.java:672-683 | removes the rows with the key; true iff one went |
| Service.NonSigne | src/service/ServiceUtilisateur.java:271 | `0xff & b` is below 256 and congruent to the byte modulo 256 |
| Service.HexOctet | src/service/ServiceUtilisateur.java:271-273 | two lowercase hex digits whose value is the unsigned byte |
| Service.DeuxChiffresAuPlus | src/service/ServiceUtilisateur.java:271-272 | `toHexString` of a byte has one digit below 16 and two from 16 on |
| Service.Hex | src/service/ServiceUtilisateur.java:269-275 | two lowercase hex digits per byte |
| Service.DecoderHexInverse | src/service/ServiceUtilisateur.java:269-276 | the hex text of a digest decodes back to the digest |
| Service.HexInjectif | src/service/ServiceUtilisateur.java:103 | comparing hex texts compares digests |
| Service.ServiceUtilisateur.Hacher | src/service/ServiceUtilisateur.java:264-279 | the loop produces the hex text of the digest, twice its length |
| Service.ServiceUtilisateur.ObtenirParEmail | src/service/ServiceUtilisateur.java:70-81 | a blank email fails; otherwise a user with that email, or none iff nobody has it |
| Service.ServiceUtilisateur.Authentifier | src/service/ServiceUtilisateur.java:90-109 | blank email, blank password, unknown email and wrong password fail in that order; succeeds exactly when the user found by email stores the hash of the given password, and then returns that user |
| Service.ServiceUtilisateur.Connecter | src/service/ServiceUtilisateur.java:90-109 | returns what `Authentifier` states |
| Service.ServiceUtilisateur.Creer | src/service/ServiceUtilisateur.java:122-161 | blank nom, prenom, email, password and a taken email fail in order with no change; success stores the hash and never the plain text; the new user can log in; emails stay unique |
| Service.ServiceUtilisateur.Enregistrer | src/service/ServiceUtilisateur.java:145-157 | the user is stored with the hashed password and can then log in |
| Service.ServiceUtilisateur.AuthentifierApresAjout | src/service/ServiceUtilisateur.java:98-108 | a user appended under a new email logs in with its password |
| Service.ServiceUtilisateur.Modifie | src/service/ServiceUtilisateur.java:188-202 | nom and prenom take the new value exactly when it is non-blank, the password the hash of the new one exactly when it is non-blank, and keep their value otherwise; telephone always changes; email, admin and key never |
| Service.ServiceUtilisateur.ModifieIdempotent | src/service/ServiceUtilisateur.java:188-202 | the same profile update twice gives what it gives once |
| Service.ServiceUtilisateur.AppliquerSetters | src/service/ServiceUtilisateur.java:188-202 | the setter calls give `Modifie` |
| Service.ServiceUtilisateur.MettreAJour | src/service/ServiceUtilisateur.java:173-208 | null key, then unknown key fail with no change; otherwise the stored row is replaced by the merged user and emails stay unique |
| Service.ServiceUtilisateur.DefinirAdmin | src/service/ServiceUtilisateur.java:217-236 | only the admin flag and the modification date change |
| Service.ServiceUtilisateur.Supprimer | src/service/ServiceUtilisateur.java:243-256 | null key fails; fails iff no row was removed |
| Service.EmailsConserves | src/service/ServiceUtilisateur.java:188-202 | rewriting rows without touching emails keeps them unique |
| Service.EmailsUniquesAjout | src/service/ServiceUtilisateur.java:138-143 | a user appended under an unused email keeps emails unique |
| Service.MiseAJourRemplace | src/dao/FabriqueDAO.java:214-239 | an update by key replaces exactly the stored row; emails stay unique when the email is kept |
| Service.Fusionner | src/service/ServiceAttraction.java:139-167 | each guarded field takes the new value exactly when its guard holds (non-blank name, positive capacity and duration, non-null non-negative price, non-negative age and height) and keeps the old one otherwise; description, availability and image always change |
| Service.FusionnerPreserveValidite | src/service/ServiceAttraction.java:145-155 | positive capacity and duration and non-negative price survive any update |
| Service.FusionnerIdempotent | src/service/ServiceAttraction.java:139-167 | the same update twice gives what it gives once |
| Service.MiseAJourAttraction | src/dao/FabriqueDAO.java:413-442 | an update by key replaces exactly the stored row |
| Service.ServiceAttraction.Creer | src/service/ServiceAttraction.java:75-110 | blank name, non-positive capacity, non-positive duration, null or negative price fail in order with no change; success stores every field as given |
| Service.ServiceAttraction.MettreAJour | src/service/ServiceAttraction.java:127-173 | null key, then unknown key fail with no change; otherwise the stored row is replaced by the merged attraction |
| Service.ServiceAttraction.Supprimer | src/service/ServiceAttraction.java:180-193 | null key fails; fails iff no row was removed |
| Service.MiseAJourReservation | src/dao/FabriqueDAO.java:641-669 | an update by key replaces exactly the stored row |
| Service.ServiceReservation.ObtenirParUtilisateurTelQuel | src/service/ServiceReservation.java:73-84 | as written, null fails and any key fails with a data-access error |
| Service.ServiceReservation.ObtenirParAttractionTelQuel | src/service/ServiceReservation.java:92-103 | as written, null fails and any key fails with a data-access error |
| Service.ServiceReservation.ObtenirParUtilisateur | src/dao/FabriqueDAO.java:691-693 | null fails; otherwise exactly the joined rows of that user |
| Service.ServiceReservation.ObtenirParAttraction | src/dao/FabriqueDAO.java:701-703 | null fails; otherwise exactly the joined rows of that attraction |
| Service.ServiceReservation.ColonneErronee | src/service/ServiceReservation.java:80 | where a user has a listed reservation, the query as written fails and the corrected one lists it |
| Service.ServiceReservation.Reserver | src/service/ServiceReservation.java:116-176 | null user, null attraction, null date, non-positive count, unknown user, unknown attraction, unavailable attraction fail in order with no change; success stores price times count, status "En attente", equal creation and modification dates |
| Service.ServiceReservation.Inserer | src/service/ServiceReservation.java:151-172 | a null time raises; otherwise the reservation is stored and found by its key |
| Service.ServiceReservation.MettreAJourStatut | src/service/ServiceReservation.java:185-205 | null key, blank status, unknown key fail in order with no change; otherwise only status and modification date change |
| Service.ServiceReservation.ChangerStatut | src/service/ServiceReservation.java:199-202 | the stored row is replaced by the one with the new status |
| Service.ServiceReservation.Annuler | src/service/ServiceReservation.java:212-225 | null key fails; fails iff no row was removed; afterwards no row has the key, so a second cancel fails |
| Controleur.Propager | src/controleur/Controleur.java:158-160 | a ServiceException is rethrown wrapped; a NullPointerException passes through |
| Controleur.Controleur.constructor | src/controleur/Controleur.java:24-28 | the three services share the tables and nobody is connected |
| Controleur.Controleur.Connecter | src/controleur/Controleur.java:36-42 | the session user is set iff authentication succeeds; a failure leaves the session as it was |
| Controleur.Controleur.Deconnecter | src/controleur/Controleur.java:47-49 | nobody is connected afterwards |
| Controleur.Controleur.EstAdmin | src/controleur/Controleur.java:64-69 | fails iff nobody is connected; otherwise the session user's admin flag |
| Controleur.Controleur.GetUtilisateurConnecte | src/controleur/Controleur.java:76-81 | fails iff nobody is connected; otherwise the session user |
| Controleur.Controleur.RefusAdmin | src/controleur/Controleur.java:153 | refuses iff the session user is not an administrator, naming why |
| Controleur.Controleur.Inscrire | src/controleur/Controleur.java:93-101 | the new account is never an administrator and can log in |
| Controleur.Controleur.CreerAttraction | src/controleur/Controleur.java:148-161 | a non-administrator is refused before any service call; otherwise succeeds iff the service's checks pass, storing every given field under the next key |
| Controleur.Controleur.MettreAJourAttraction | src/controleur/Controleur.java:178-191 | a non-administrator is refused before any service call; otherwise the stored row is replaced by the merged attraction, other rows untouched |
| Controleur.Controleur.SupprimerAttraction | src/controleur/Controleur.java:198-207 | a non-administrator is refused before any service call; otherwise the row goes |
| Controleur.Controleur.ObtenirToutesLesReservations | src/controleur/Controleur.java:238-247 | for an administrator only; exactly the rows whose user and attraction are found |
| Controleur.Controleur.ObtenirReservationsParAttraction | src/controleur/Controleur.java:271-280 | for an administrator only; exactly the joined rows of that attraction, on the corrected query |
| Controleur.Controleur.MettreAJourStatutReservation | src/controleur/Controleur.java:289-298 | a non-administrator is refused before any service call; otherwise only the status and modification date of that row change, and no other row |
| Controleur.Controleur.ObtenirTousLesUtilisateurs | src/controleur/Controleur.java:333-342 | for an administrator only; then every stored user |
| Controleur.Controleur.CreerReservation | src/controleur/Controleur.java:219-231 | only for a connected user; succeeds iff the service's checks pass for the session user, booking that attraction, date, hour and count at price times count, "En attente"; a null hour raises a NullPointerException |
| Controleur.Controleur.ObtenirMesReservations | src/controleur/Controleur.java:254-263 | only for a connected user, and exactly that user's joined rows, on the corrected query |
| Controleur.Controleur.RefusAnnulation | src/controleur/Controleur.java:307-320 | nobody connected, null key, unknown reservation, neither administrator nor owner, checked in that order |
| Controleur.Controleur.AnnulerReservation | src/controleur/Controleur.java:305-326 | a refusal changes nothing; otherwise the reservation is deleted and no row keeps its key |

## Left out

- JDBC, SQL text, connections and the `getInstance` singletons are not modelled. The tables are in-memory sequences.
- Swing rendering and the console interface are not modelled. A combo box is the list of its items. The payment window is the flag `paiementConfirme`.
- SHA-256 and `String.getBytes` are one fixed function `sha256` given to `ServiceUtilisateur`. Its bytes are not computed.
- `double` and `BigDecimal` are exact reals, so rounding is not modelled.
- `int` and `Long` overflow is not modelled: keys, counts and ages are unbounded integers.
- The clock is a parameter. `LocalDate` and `Date` are integers ordered as time is.
- All clock reads of one call are taken as the same instant `maintenant`. An update reads the clock twice in the source: once in the service for the entity it returns (src/service/ServiceUtilisateur.java:202 and :230, src/service/ServiceAttraction.java:167, src/service/ServiceReservation.java:199) and once in FabriqueDAO for the stored row (src/dao/FabriqueDAO.java:227, :430, :657). `ServiceAttraction.creer` also reads it twice, for the creation and the modification date (src/service/ServiceAttraction.java:103-104). So the stored row's modification date may differ from the returned entity's by the time between the two reads. The model's equalities between the stored row and the returned entity (the `Remplace` clauses of the user, attraction and status updates, and the reservation found again after a status update) hold only because the two reads are one instant.
- `toUpperCase` is locale-free and limited to ASCII letters and é, è, à. Other characters keep their case.
- Reads never fail. In particular `Dao.Base.Valid` requires every stored status and criterion text to map through `valueOf`, so the unchecked `IllegalArgumentException` that src/dao/ReservationDAO.java:180 and src/dao/ReductionDAO.java:73 would throw out of `getAllReservations`, `getReservationsByUtilisateur` and `getAllReductions` is not modelled; every writer in the source stores `name()`. A failing write is a flag on the write, and the failure of a foreign key or cascade is folded into it.
- `ReservationDAO.getReservationById` and `updateReservation` are called at src/controller/ReservationController.java:95 and :98 but are not part of this model. They are modelled with their evident meaning, reading and rewriting one row by key.
- The five-argument `reserverAttraction` that src/view/ReservationView.java:195 calls is not part of this model. `Controller.ReserverAttraction` takes the extra hour as an optional parameter.
- `model.Reservation` has no hour field in src/model/Reservation.java. The model gives it an optional one, because ReservationDAO reads and writes `heure_reservation`.
- Entities of the Long-keyed stack hold the keys of their user and attraction, not the objects.
- `trouverParAttribut` is modelled for the integer columns of `reservations` and for the email of users. The other tables and columns are not modelled.
- Thin reads are the table functions themselves:
  - `obtenirToutes`, `obtenirParId` and `obtenirTous` of the services;
  - `obtenirToutesLesAttractions` and `obtenirAttractionParId` of `Controleur`;
  - `getHistoriqueUtilisateur` and `getToutesReservations` of `ReservationController`.
- `ClientController`, `AdminController` and the other views only forward to the DAOs and are not modelled.
- Dao.Base.UpdateReservation: returns whether a row has the key, because the method itself is not part of this model.
- Controleur.Controleur.ObtenirReservationsParAttraction and Controleur.Controleur.ObtenirMesReservations are modelled on the corrected queries `ObtenirParAttraction` and `ObtenirParUtilisateur`. As written, src/controleur/Controleur.java:259 and :276 reach src/service/ServiceReservation.java:80 and :99, so every connected call with a non-null key fails with a wrapped data-access error (see Findings).
- Util.ValiderLongueurMin: Java `length()` counts UTF-16 code units and `|s|` counts characters, so the two differ on characters outside the Basic Multilingual Plane; this is not modelled.
- View.HandleReservation: the result and message shown after the controller call are not modelled, only which refusal or booking happens.

## Findings

| source | as written | input that shows it | evidently intended | confidence | as-written member | corrected member |
|---|---|---|---|---|---|---|
| src/service/ServiceReservation.java:80 | queries column `utilisateur.id`, which table `reservations` does not have, so every non-null key throws | any non-null user key | the column `utilisateur_id` that src/dao/FabriqueDAO.java:692 uses | not executed | Service.ServiceReservation.ObtenirParUtilisateurTelQuel | Service.ServiceReservation.ObtenirParUtilisateur |
| src/service/ServiceReservation.java:99 | queries column `attraction.id`, which table `reservations` does not have, so every non-null key throws | any non-null attraction key | the column `attraction_id` that src/dao/FabriqueDAO.java:702 uses | not executed | Service.ServiceReservation.ObtenirParAttractionTelQuel | Service.ServiceReservation.ObtenirParAttraction |
