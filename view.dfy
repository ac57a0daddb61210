/** The logic of ReservationView: which attractions are offered, which hour
    slots are labelled unavailable, and how the chosen label is checked and
    read back before the controller is called. Swing widgets are left out; a
    combo box is the list of its items. */
module View {
  import opened Commun
  import opened Texte
  import opened Model
  import opened Dao
  import opened Controller

  // ---------------------------------------------------------- attractions

  /** The attractions the screen does not offer. */
  function NonOfferte(): Attraction -> bool {
    (a: Attraction) => !a.disponible
  }

  /** `initAttractionBox`: the available attractions of `attractions`, in order. */
  method InitAttractionBox(attractions: seq<Attraction>) returns (boite: seq<Attraction>)
    ensures boite == Sans(attractions, NonOfferte())
    ensures forall i :: 0 <= i < |boite| ==> boite[i].disponible && boite[i] in attractions
    ensures forall i :: 0 <= i < |attractions| && attractions[i].disponible ==> attractions[i] in boite
  {
    boite := [];
    for i := 0 to |attractions|
      invariant boite == Sans(attractions[..i], NonOfferte())
    {
      SansPrefixe(attractions, i, NonOfferte());
      if attractions[i].disponible {
        boite := boite + [attractions[i]];
      }
    }
    assert attractions[..|attractions|] == attractions;
  }

  // ---------------------------------------------------------- hour slots

  /** A reservation of attraction `idAttraction` on day `date`, whatever its status. */
  predicate Retenue(r: Reservation, idAttraction: int, date: int) {
    r.idAttraction == idAttraction && r.dateReservation == date
  }

  /** Some reservation of the attraction on that day is at `h`:00. */
  predicate HeureReservee(reservations: seq<Reservation>, idAttraction: int, date: int, h: int) {
    exists i :: 0 <= i < |reservations| && Retenue(reservations[i], idAttraction, date) &&
                reservations[i].heureReservation == Some(Heure(h, 0, 0))
  }

  /** The label of the slot at `h`:00. */
  function Libelle(h: nat, reservee: bool): string {
    if reservee then EnDecimal(h) + "h00 (indisponible)" else EnDecimal(h) + "h00"
  }

  /** `updateHeureBox`: empty without an attraction and a date; otherwise the nine
      slots 10:00 to 18:00 in order, each marked unavailable exactly when some
      reservation of that attraction and day is at that time. */
  method UpdateHeureBox(attraction: Option<Attraction>, date: Option<int>, reservations: seq<Reservation>)
    returns (heures: seq<string>)
    ensures attraction.None? || date.None? ==> heures == []
    ensures attraction.Some? && date.Some? ==>
              |heures| == 9 &&
              forall h :: 10 <= h <= 18 ==>
                heures[h - 10] == Libelle(h, HeureReservee(reservations, attraction.value.id, date.value, h))
  {
    heures := [];
    if attraction.None? {
      return;
    }
    if date.None? {
      return;
    }
    var id, jour := attraction.value.id, date.value;
    var heuresReservees: seq<Option<Heure>> := [];
    for i := 0 to |reservations|
      invariant forall t :: t in heuresReservees <==>
                  exists j :: 0 <= j < i && Retenue(reservations[j], id, jour) && reservations[j].heureReservation == t
    {
      if reservations[i].idAttraction == id && reservations[i].dateReservation == jour {
        heuresReservees := heuresReservees + [reservations[i].heureReservation];
      }
    }
    var modele: seq<string> := [];
    for heure := 10 to 19
      invariant |modele| == heure - 10
      invariant forall h :: 10 <= h < heure ==> modele[h - 10] == Libelle(h, HeureReservee(reservations, id, jour, h))
    {
      var t := Some(Heure(heure, 0, 0));
      if t in heuresReservees {
        modele := modele + [EnDecimal(heure) + "h00 (indisponible)"];
      } else {
        modele := modele + [EnDecimal(heure) + "h00"];
      }
    }
    heures := modele;
  }

  // ------------------------------------------------------- reading a slot

  /** Why `handleReservation` stops before the controller: a missing field, an
      unavailable slot, or a label whose hour cannot be read (the exception
      `substring`, `parseInt` or `LocalTime.of` would throw). */
  datatype Refus = ChampsManquants | HeureIndisponible | HeureIllisible

  /** The checks and the parse of `handleReservation`: the hour before the
      first 'h' of the chosen label, at minute 0. */
  function LireSaisie(attraction: Option<Attraction>, date: Option<int>, heureSelection: Option<string>)
    : (r: Result<Heure, Refus>)
    ensures r == Err(ChampsManquants) <==> attraction.None? || date.None? || heureSelection.None?
    ensures r == Err(HeureIndisponible) <==>
              attraction.Some? && date.Some? && heureSelection.Some? && Contient(heureSelection.value, "indisponible")
    ensures r.Ok? ==> 0 <= r.value.heure <= 23 && r.value.minute == 0 && r.value.seconde == 0 &&
                      IndexOf(heureSelection.value, 'h') >= 0 &&
                      ParseInt(heureSelection.value[..IndexOf(heureSelection.value, 'h')]) == Some(r.value.heure)
  {
    if attraction.None? || date.None? || heureSelection.None? then Err(ChampsManquants)
    else
      var s := heureSelection.value;
      if Contient(s, "indisponible") then Err(HeureIndisponible)
      else
        var k := IndexOf(s, 'h');
        if k < 0 then Err(HeureIllisible)
        else
          match ParseInt(s[..k])
          case None => Err(HeureIllisible)
          case Some(h) => if 0 <= h <= 23 then Ok(Heure(h, 0, 0)) else Err(HeureIllisible)
  }

  /** The first 'h' of a slot label is the one right after the digits. */
  lemma IndexOfLibelle(h: nat, suite: string)
    requires suite != [] && suite[0] == 'h'
    ensures IndexOf(EnDecimal(h) + suite, 'h') == |EnDecimal(h)|
  {
    var d := EnDecimal(h);
    var s := d + suite;
    assert s[|d|] == 'h';
    assert forall i :: 0 <= i < |d| ==> s[i] == d[i] && EstChiffre(d[i]);
    assert forall k :: |d| < k <= |s| ==> s[..k][|d|] == 'h';
  }

  /** A free slot's label reads back as its own hour at minute 0. */
  lemma LibelleLibreRelu(a: Attraction, date: int, h: nat)
    requires h <= 23
    ensures LireSaisie(Some(a), Some(date), Some(Libelle(h, false))) == Ok(Heure(h, 0, 0))
  {
    var d := EnDecimal(h);
    var libre := d + "h00";
    assert libre == Libelle(h, false);
    assert 'i' !in libre by {
      forall i | 0 <= i < |libre| ensures libre[i] != 'i' {
        if i < |d| {
          assert EstChiffre(d[i]);
        }
      }
    }
    ContientPremierCaractere(libre, "indisponible");
    IndexOfLibelle(h, "h00");
    assert libre[..|d|] == d;
    ParseEnDecimal(h);
  }

  /** An unavailable slot's label is refused as such. */
  lemma LibelleOccupeRelu(a: Attraction, date: int, h: nat)
    ensures LireSaisie(Some(a), Some(date), Some(Libelle(h, true))) == Err(HeureIndisponible)
  {
    var d := EnDecimal(h);
    var occupe := d + "h00 (indisponible)";
    assert occupe == Libelle(h, true);
    assert occupe == (d + "h00 (") + "indisponible" + ")";
    ContientMilieu(d + "h00 (", "indisponible", ")");
  }

  /** Every slot label reads back: a free slot gives its own hour at minute 0,
      an unavailable one is refused as such. */
  lemma LibelleRelu(a: Attraction, date: int, h: nat)
    requires h <= 23
    ensures LireSaisie(Some(a), Some(date), Some(Libelle(h, false))) == Ok(Heure(h, 0, 0))
    ensures LireSaisie(Some(a), Some(date), Some(Libelle(h, true))) == Err(HeureIndisponible)
  {
    LibelleLibreRelu(a, date, h);
    LibelleOccupeRelu(a, date, h);
  }

  // ------------------------------------------------------------ booking

  /** The ticket spinner: from 1 to 10. */
  type NbBillets = n: int | 1 <= n <= 10 witness 1

  /** How `handleReservation` ends. */
  datatype Suite = Refusee(refus: Refus) | PaiementAbandonne | Traitee(issue: Issue)

  /** `handleReservation`: the checks first; then, once the payment window is
      confirmed, the controller books the chosen slot for the client. */
  method HandleReservation(db: Base, idClient: int, attraction: Option<Attraction>, date: Option<int>,
                           heureSelection: Option<string>, nbBillets: NbBillets, paiementConfirme: bool,
                           aujourdhui: int, echecReservation: bool, echecFacture: bool)
    returns (suite: Suite)
    requires db.Valid()
    modifies db
    ensures db.Valid()
    ensures LireSaisie(attraction, date, heureSelection).Err? ==>
              suite == Refusee(LireSaisie(attraction, date, heureSelection).error) && unchanged(db)
    ensures LireSaisie(attraction, date, heureSelection).Ok? && !paiementConfirme ==>
              suite == PaiementAbandonne && unchanged(db)
    ensures LireSaisie(attraction, date, heureSelection).Ok? && paiementConfirme &&
            date.value >= aujourdhui && !echecReservation ==>
              suite.Traitee? &&
              db.reservations == old(db.reservations) +
                [VersLigne(Demande(idClient, attraction.value.id, date.value,
                                   Some(LireSaisie(attraction, date, heureSelection).value), nbBillets)
                             .(id := old(db.prochainReservation)), old(db.prochainReservation))]
  {
    var saisie := LireSaisie(attraction, date, heureSelection);
    if saisie.Err? {
      return Refusee(saisie.error);
    }
    if !paiementConfirme {
      return PaiementAbandonne;
    }
    var issue := ReserverAttraction(db, idClient, attraction.value.id, date.value, Some(saisie.value),
                                    nbBillets, aujourdhui, echecReservation, echecFacture);
    return Traitee(issue);
  }
}
