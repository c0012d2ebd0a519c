/**
 * The five aggregation pipelines, as functions over the collections'
 * documents in their natural order. Sorting keeps one order among equal
 * keys; only the order between different keys is stated.
 */
module Reports {
  import opened Wrappers
  import opened Js
  import opened Mongo
  import opened Seqs
  import opened HotelModel
  import opened RoomModel
  import opened ReservationModel

  // ---------------------------------------------------------------------------
  // GET /api/hotels/top/etoiles: $group by etoiles (count, push nom),
  // $sort by etoiles descending, $limit 5.

  datatype StarGroup = StarGroup(etoiles: int, nombre: int, hotels: seq<string>)

  function EtoilesOf(e: Entry<Hotel>): int { e.doc.etoiles }
  function NomOf(e: Entry<Hotel>): string { e.doc.nom }
  function GroupEtoiles(g: StarGroup): int { g.etoiles }

  /** The hotels rated `k`, in collection order. */
  function Rated(hotels: seq<Entry<Hotel>>, k: int): (r: seq<Entry<Hotel>>)
    ensures forall i :: 0 <= i < |r| ==> r[i] in hotels && r[i].doc.etoiles == k
    ensures forall i :: 0 <= i < |hotels| && hotels[i].doc.etoiles == k ==> hotels[i] in r
  {
    Select(hotels, (e: Entry<Hotel>) => e.doc.etoiles == k)
  }

  function StarGroupOf(hotels: seq<Entry<Hotel>>, k: int): (g: StarGroup)
    ensures g.etoiles == k && g.nombre == |g.hotels|
  {
    var members := Rated(hotels, k);
    StarGroup(k, |members|, Map(members, NomOf))
  }

  /** The group of rating `k` names exactly the hotels rated `k`. */
  lemma StarGroupMembers(hotels: seq<Entry<Hotel>>, k: int)
    ensures var g := StarGroupOf(hotels, k);
      && (forall n :: 0 <= n < |g.hotels| ==>
            exists j :: 0 <= j < |hotels| && hotels[j].doc.etoiles == k && hotels[j].doc.nom == g.hotels[n])
      && (forall j :: 0 <= j < |hotels| && hotels[j].doc.etoiles == k ==> hotels[j].doc.nom in g.hotels)
  {
    var members := Rated(hotels, k);
    var g := StarGroupOf(hotels, k);
    assert forall n :: 0 <= n < |g.hotels| ==> g.hotels[n] == members[n].doc.nom && members[n] in hotels;
    forall j | 0 <= j < |hotels| && hotels[j].doc.etoiles == k
      ensures hotels[j].doc.nom in g.hotels
    {
      var n :| 0 <= n < |members| && members[n] == hotels[j];
      assert g.hotels[n] == hotels[j].doc.nom;
    }
  }

  lemma StarGroupNonEmpty(hotels: seq<Entry<Hotel>>, j: int)
    requires 0 <= j < |hotels|
    ensures StarGroupOf(hotels, hotels[j].doc.etoiles).nombre > 0
  {
    StarGroupMembers(hotels, hotels[j].doc.etoiles);
  }

  function StarGroups(hotels: seq<Entry<Hotel>>, ks: seq<int>): (r: seq<StarGroup>)
    ensures |r| == |ks|
    ensures forall i :: 0 <= i < |ks| ==> r[i] == StarGroupOf(hotels, ks[i])
  {
    if ks == [] then [] else [StarGroupOf(hotels, ks[0])] + StarGroups(hotels, ks[1..])
  }

  const TopEtoilesLimit := 5

  /**
   * At most five groups, strictly descending by rating, each the group of a
   * rating some hotel has.
   */
  function TopEtoiles(hotels: seq<Entry<Hotel>>): (r: seq<StarGroup>)
    ensures |r| <= TopEtoilesLimit
    ensures forall i, j :: 0 <= i < j < |r| ==> r[i].etoiles > r[j].etoiles
    ensures forall i :: 0 <= i < |r| ==> r[i] == StarGroupOf(hotels, r[i].etoiles) && r[i].nombre > 0
  {
    var ks := Map(hotels, EtoilesOf);
    var ranked := Ranked(ks);
    var groups := StarGroups(hotels, ranked);
    var r := Take(groups, TopEtoilesLimit);
    assert forall i :: 0 <= i < |r| ==> r[i] == groups[i];
    assert forall i :: 0 <= i < |r| ==> r[i].etoiles == ranked[i];
    forall i | 0 <= i < |r|
      ensures r[i] == StarGroupOf(hotels, r[i].etoiles) && r[i].nombre > 0
    {
      assert ranked[i] in ks;
      var j :| 0 <= j < |ks| && ks[j] == ranked[i];
      assert hotels[j].doc.etoiles == ranked[i];
      StarGroupNonEmpty(hotels, j);
    }
    r
  }

  /**
   * No rating is passed over: a hotel's rating is among the groups shown, or
   * five groups are shown and its rating is below all of them.
   */
  lemma TopEtoilesComplete(hotels: seq<Entry<Hotel>>, j: int)
    requires 0 <= j < |hotels|
    ensures var r := TopEtoiles(hotels);
      hotels[j].doc.etoiles in Map(r, GroupEtoiles)
      || (|r| == TopEtoilesLimit && hotels[j].doc.etoiles < r[TopEtoilesLimit - 1].etoiles)
  {
    var ks := Map(hotels, EtoilesOf);
    var shown := TopEtoilesRatings(hotels);
    assert ks[j] == hotels[j].doc.etoiles;
    TakeDecreasing(Ranked(ks), hotels[j].doc.etoiles, TopEtoilesLimit);
    var r := TopEtoiles(hotels);
    if |r| == TopEtoilesLimit {
      assert shown[TopEtoilesLimit - 1] == r[TopEtoilesLimit - 1].etoiles;
    }
  }

  /** The ratings shown are the first five distinct ratings, largest first. */
  lemma TopEtoilesRatings(hotels: seq<Entry<Hotel>>) returns (shown: seq<int>)
    ensures shown == Map(TopEtoiles(hotels), GroupEtoiles)
    ensures shown == Take(Ranked(Map(hotels, EtoilesOf)), TopEtoilesLimit)
  {
    var ranked := Ranked(Map(hotels, EtoilesOf));
    var groups := StarGroups(hotels, ranked);
    var r := TopEtoiles(hotels);
    assert r == Take(groups, TopEtoilesLimit);
    shown := Map(r, GroupEtoiles);
    var t := Take(ranked, TopEtoilesLimit);
    assert |shown| == |t|;
    forall i | 0 <= i < |t| ensures shown[i] == t[i] {
      assert r[i] == groups[i];
    }
  }

  // ---------------------------------------------------------------------------
  // GET /api/rooms/stats/par-type: $group by type (count, average prixNuit),
  // $sort by count descending.

  datatype TypeStat = TypeStat(roomType: string, nombre: int, prixMoyen: real)

  function TypeOf(e: Entry<Room>): string { e.doc.roomType }
  function OneRoom(e: Entry<Room>): int { 1 }
  function PrixNuitOf(e: Entry<Room>): int { e.doc.prixNuit }
  function StatNombre(s: TypeStat): int { s.nombre }
  function StatType(s: TypeStat): string { s.roomType }

  /** The rooms of type `t`, in collection order. */
  function OfType(rooms: seq<Entry<Room>>, t: string): (r: seq<Entry<Room>>)
    ensures forall i :: 0 <= i < |r| ==> r[i] in rooms && r[i].doc.roomType == t
    ensures forall i :: 0 <= i < |rooms| && rooms[i].doc.roomType == t ==> rooms[i] in r
  {
    Select(rooms, (e: Entry<Room>) => e.doc.roomType == t)
  }

  /** `$avg`: the mean of `n` values adding up to `total`; the mean of nothing is taken as 0. */
  function Average(total: int, n: int): real {
    if n == 0 then 0.0 else total as real / n as real
  }

  function TypeStatOf(rooms: seq<Entry<Room>>, t: string): (s: TypeStat)
    ensures s.roomType == t
  {
    var n := KeyTotal(rooms, TypeOf, OneRoom, t);
    TypeStat(t, n, Average(KeyTotal(rooms, TypeOf, PrixNuitOf, t), n))
  }

  /** The group totals of a type are the count and the total price of its rooms. */
  lemma OfTypeTotals(rooms: seq<Entry<Room>>, t: string)
    ensures KeyTotal(rooms, TypeOf, OneRoom, t) == |OfType(rooms, t)|
    ensures KeyTotal(rooms, TypeOf, PrixNuitOf, t) == SumOf(OfType(rooms, t), PrixNuitOf)
  {
    var p := (e: Entry<Room>) => e.doc.roomType == t;
    assert OfType(rooms, t) == Select(rooms, p);
    KeyTotalSelects(rooms, TypeOf, OneRoom, t, p);
    KeyTotalSelects(rooms, TypeOf, PrixNuitOf, t, p);
    SumOfOnes(Select(rooms, p), OneRoom);
  }

  /** A type's row counts the rooms of that type, and its average is the mean of their prices. */
  lemma TypeStatMeaning(rooms: seq<Entry<Room>>, t: string)
    ensures var s := TypeStatOf(rooms, t);
      && s.nombre == |OfType(rooms, t)|
      && s.prixMoyen == Average(SumOf(OfType(rooms, t), PrixNuitOf), |OfType(rooms, t)|)
  {
    OfTypeTotals(rooms, t);
  }

  /** The mean of a non-empty group times its size is the group's total. */
  lemma AverageTimesCount(total: int, n: int)
    requires n != 0
    ensures Average(total, n) * n as real == total as real
  {
  }

  lemma TypeStatNonEmpty(rooms: seq<Entry<Room>>, j: int)
    requires 0 <= j < |rooms|
    ensures TypeStatOf(rooms, rooms[j].doc.roomType).nombre > 0
  {
    TypeStatMeaning(rooms, rooms[j].doc.roomType);
  }

  function TypeStats(rooms: seq<Entry<Room>>, ts: seq<string>): (r: seq<TypeStat>)
    ensures |r| == |ts|
    ensures forall i :: 0 <= i < |ts| ==> r[i] == TypeStatOf(rooms, ts[i])
  {
    if ts == [] then [] else [TypeStatOf(rooms, ts[0])] + TypeStats(rooms, ts[1..])
  }

  function RoomStats(rooms: seq<Entry<Room>>): (r: seq<TypeStat>)
    ensures |r| <= |rooms|
  {
    var ts := GroupKeys(Map(rooms, TypeOf));
    SortDescCorrect(TypeStats(rooms, ts), StatNombre, StatNombre);
    SortDesc(TypeStats(rooms, ts), StatNombre)
  }

  /** Each row is the statistics of a type some room has, largest count first. */
  lemma {:induction false} RoomStatsRows(rooms: seq<Entry<Room>>)
    ensures var r := RoomStats(rooms);
      && NonIncreasing(r, StatNombre)
      && (forall i :: 0 <= i < |r| ==> r[i] == TypeStatOf(rooms, r[i].roomType) && r[i].nombre > 0)
  {
    var ks := Map(rooms, TypeOf);
    var ts := GroupKeys(ks);
    var stats := TypeStats(rooms, ts);
    var r := RoomStats(rooms);
    SortDescCorrect(stats, StatNombre, StatNombre);
    forall i | 0 <= i < |r|
      ensures r[i] == TypeStatOf(rooms, r[i].roomType) && r[i].nombre > 0
    {
      assert r[i] in multiset(stats);
      var n :| 0 <= n < |stats| && stats[n] == r[i];
      assert ts[n] in ks;
      var j :| 0 <= j < |ks| && ks[j] == ts[n];
      TypeStatNonEmpty(rooms, j);
    }
  }

  /** Every type some room has gets a row. */
  lemma {:induction false} RoomStatsCovers(rooms: seq<Entry<Room>>, j: int)
    requires 0 <= j < |rooms|
    ensures rooms[j].doc.roomType in Map(RoomStats(rooms), StatType)
  {
    var ks := Map(rooms, TypeOf);
    var ts := GroupKeys(ks);
    var stats := TypeStats(rooms, ts);
    var r := RoomStats(rooms);
    SortDescCorrect(stats, StatNombre, StatNombre);
    assert ks[j] in ts;
    var n :| 0 <= n < |ts| && ts[n] == ks[j];
    assert stats[n] in multiset(r);
    var m :| 0 <= m < |r| && r[m] == stats[n];
    assert Map(r, StatType)[m] == rooms[j].doc.roomType;
  }

  /** The counts add up to the number of rooms. */
  lemma {:induction false} RoomStatsTotal(rooms: seq<Entry<Room>>)
    ensures SumOf(RoomStats(rooms), StatNombre) == |rooms|
  {
    var ks := Map(rooms, TypeOf);
    var ts := GroupKeys(ks);
    var stats := TypeStats(rooms, ts);
    SortDescCorrect(stats, StatNombre, StatNombre);
    SumOfGroups(stats, StatNombre, ts, rooms, TypeOf, OneRoom);
    forall x | x in rooms
      ensures TypeOf(x) in ts
    {
      var j :| 0 <= j < |rooms| && rooms[j] == x;
      assert ks[j] in ts;
    }
    GroupingConserves(ts, rooms, TypeOf, OneRoom);
    SumOfOnes(rooms, OneRoom);
  }

  // ---------------------------------------------------------------------------
  // GET /api/rooms/plus-reservees: $lookup the reservations of each room,
  // $project their number, $sort by it descending, $limit 10.

  datatype RoomCount = RoomCount(id: Id, numero: string, roomType: string, prixNuit: int, nombreReservations: int)

  function CountOf(c: RoomCount): int { c.nombreReservations }

  /** The reservations whose `roomId` is `id`, in collection order. */
  function BookingsOf(reservations: seq<Entry<Reservation>>, id: Id): (r: seq<Entry<Reservation>>)
    ensures forall i :: 0 <= i < |r| ==> r[i] in reservations && r[i].doc.roomId == id
    ensures forall i :: 0 <= i < |reservations| && reservations[i].doc.roomId == id ==> reservations[i] in r
  {
    Select(reservations, (e: Entry<Reservation>) => e.doc.roomId == id)
  }

  /** A reservation of the room is counted as often as it is stored; no other reservation is. */
  lemma BookingsOfCount(reservations: seq<Entry<Reservation>>, id: Id, e: Entry<Reservation>)
    ensures multiset(BookingsOf(reservations, id))[e] == if e.doc.roomId == id then multiset(reservations)[e] else 0
  {
    SelectCount(reservations, (e: Entry<Reservation>) => e.doc.roomId == id, e);
  }

  function RoomCountOf(room: Entry<Room>, reservations: seq<Entry<Reservation>>): (c: RoomCount)
    ensures c.id == room.id && c.nombreReservations == |BookingsOf(reservations, room.id)|
  {
    RoomCount(room.id, room.doc.numero, room.doc.roomType, room.doc.prixNuit, |BookingsOf(reservations, room.id)|)
  }

  function RoomCounts(rooms: seq<Entry<Room>>, reservations: seq<Entry<Reservation>>): (r: seq<RoomCount>)
    ensures |r| == |rooms|
    ensures forall i :: 0 <= i < |rooms| ==> r[i] == RoomCountOf(rooms[i], reservations)
  {
    if rooms == [] then [] else [RoomCountOf(rooms[0], reservations)] + RoomCounts(rooms[1..], reservations)
  }

  const PlusReserveesLimit := 10

  function PlusReservees(rooms: seq<Entry<Room>>, reservations: seq<Entry<Reservation>>): (r: seq<RoomCount>)
    ensures |r| <= PlusReserveesLimit
  {
    Take(SortDesc(RoomCounts(rooms, reservations), CountOf), PlusReserveesLimit)
  }

  /**
   * Ten rooms, or all of them when there are fewer; the most booked first;
   * each row a room of the collection with its number of reservations.
   */
  lemma {:induction false} PlusReserveesCorrect(rooms: seq<Entry<Room>>, reservations: seq<Entry<Reservation>>)
    ensures var r := PlusReservees(rooms, reservations);
      && |r| == Min(PlusReserveesLimit, |rooms|)
      && NonIncreasing(r, CountOf)
      && multiset(r) <= multiset(RoomCounts(rooms, reservations))
      && forall i :: 0 <= i < |r| ==> exists j :: 0 <= j < |rooms| && r[i] == RoomCountOf(rooms[j], reservations)
  {
    var counts := RoomCounts(rooms, reservations);
    var sorted := SortDesc(counts, CountOf);
    var r := PlusReservees(rooms, reservations);
    SortDescCorrect(counts, CountOf, CountOf);
    assert forall i :: 0 <= i < |r| ==> r[i] == sorted[i];
    TakeSubMultiset(sorted, PlusReserveesLimit);
    forall i | 0 <= i < |r|
      ensures exists j :: 0 <= j < |rooms| && r[i] == RoomCountOf(rooms[j], reservations)
    {
      assert sorted[i] in multiset(counts);
      var j :| 0 <= j < |counts| && counts[j] == sorted[i];
    }
  }

  /**
   * No busier room is left out: a room is listed, or ten rooms are listed and
   * it has no more reservations than the last of them.
   */
  lemma {:induction false} PlusReserveesTop(rooms: seq<Entry<Room>>, reservations: seq<Entry<Reservation>>, j: int)
    requires 0 <= j < |rooms|
    ensures var r := PlusReservees(rooms, reservations);
      RoomCountOf(rooms[j], reservations) in r
      || (|r| == PlusReserveesLimit
          && |BookingsOf(reservations, rooms[j].id)| <= r[PlusReserveesLimit - 1].nombreReservations)
  {
    var counts := RoomCounts(rooms, reservations);
    var sorted := SortDesc(counts, CountOf);
    var r := PlusReservees(rooms, reservations);
    SortDescCorrect(counts, CountOf, CountOf);
    assert counts[j] in multiset(sorted);
    var n :| 0 <= n < |sorted| && sorted[n] == counts[j];
    if n < PlusReserveesLimit {
      assert r[n] == sorted[n];
    } else {
      assert r[PlusReserveesLimit - 1] == sorted[PlusReserveesLimit - 1];
    }
  }

  // ---------------------------------------------------------------------------
  // GET /api/reservations/stats: $group by statut (count, total prixTotal),
  // $sort by count descending; `total` is countDocuments().

  datatype StatutStat = StatutStat(statut: string, nombre: int, revenu: int)
  datatype StatutReport = StatutReport(stats: seq<StatutStat>, total: int)

  function StatutOf(e: Entry<Reservation>): string { e.doc.statut }
  function OneReservation(e: Entry<Reservation>): int { 1 }
  function PrixTotalOf(e: Entry<Reservation>): int { e.doc.prixTotal }
  function StatNombreStatut(s: StatutStat): int { s.nombre }
  function StatRevenu(s: StatutStat): int { s.revenu }
  function StatStatut(s: StatutStat): string { s.statut }

  /** The reservations with statut `st`, in collection order. */
  function WithStatut(reservations: seq<Entry<Reservation>>, st: string): (r: seq<Entry<Reservation>>)
    ensures forall i :: 0 <= i < |r| ==> r[i] in reservations && r[i].doc.statut == st
    ensures forall i :: 0 <= i < |reservations| && reservations[i].doc.statut == st ==> reservations[i] in r
  {
    Select(reservations, (e: Entry<Reservation>) => e.doc.statut == st)
  }

  function StatutStatOf(reservations: seq<Entry<Reservation>>, st: string): (s: StatutStat)
    ensures s.statut == st
  {
    StatutStat(st, KeyTotal(reservations, StatutOf, OneReservation, st),
               KeyTotal(reservations, StatutOf, PrixTotalOf, st))
  }

  /** A statut's row counts the reservations with that statut and adds up their prices. */
  lemma StatutStatMeaning(reservations: seq<Entry<Reservation>>, st: string)
    ensures var s := StatutStatOf(reservations, st);
      && s.nombre == |WithStatut(reservations, st)|
      && s.revenu == SumOf(WithStatut(reservations, st), PrixTotalOf)
  {
    var p := (e: Entry<Reservation>) => e.doc.statut == st;
    assert WithStatut(reservations, st) == Select(reservations, p);
    KeyTotalSelects(reservations, StatutOf, OneReservation, st, p);
    KeyTotalSelects(reservations, StatutOf, PrixTotalOf, st, p);
    SumOfOnes(WithStatut(reservations, st), OneReservation);
  }

  lemma StatutStatNonEmpty(reservations: seq<Entry<Reservation>>, j: int)
    requires 0 <= j < |reservations|
    ensures StatutStatOf(reservations, reservations[j].doc.statut).nombre > 0
  {
    StatutStatMeaning(reservations, reservations[j].doc.statut);
  }

  function StatutStats(reservations: seq<Entry<Reservation>>, ss: seq<string>): (r: seq<StatutStat>)
    ensures |r| == |ss|
    ensures forall i :: 0 <= i < |ss| ==> r[i] == StatutStatOf(reservations, ss[i])
  {
    if ss == [] then [] else [StatutStatOf(reservations, ss[0])] + StatutStats(reservations, ss[1..])
  }

  function ReservationStats(reservations: seq<Entry<Reservation>>): (r: StatutReport)
    ensures r.total == |reservations|
    ensures |r.stats| <= |reservations|
  {
    var ss := GroupKeys(Map(reservations, StatutOf));
    SortDescCorrect(StatutStats(reservations, ss), StatNombreStatut, StatNombreStatut);
    StatutReport(SortDesc(StatutStats(reservations, ss), StatNombreStatut), |reservations|)
  }

  /** Each row is the figures of a statut some reservation has, largest count first. */
  lemma {:induction false} ReservationStatsRows(reservations: seq<Entry<Reservation>>)
    ensures var r := ReservationStats(reservations);
      && NonIncreasing(r.stats, StatNombreStatut)
      && (forall i :: 0 <= i < |r.stats| ==>
            r.stats[i] == StatutStatOf(reservations, r.stats[i].statut) && r.stats[i].nombre > 0)
  {
    var ks := Map(reservations, StatutOf);
    var ss := GroupKeys(ks);
    var stats := StatutStats(reservations, ss);
    var r := ReservationStats(reservations);
    SortDescCorrect(stats, StatNombreStatut, StatNombreStatut);
    forall i | 0 <= i < |r.stats|
      ensures r.stats[i] == StatutStatOf(reservations, r.stats[i].statut) && r.stats[i].nombre > 0
    {
      assert r.stats[i] in multiset(stats);
      var n :| 0 <= n < |stats| && stats[n] == r.stats[i];
      assert ss[n] in ks;
      var j :| 0 <= j < |ks| && ks[j] == ss[n];
      StatutStatNonEmpty(reservations, j);
    }
  }

  /** Every statut some reservation has gets a row. */
  lemma {:induction false} ReservationStatsCovers(reservations: seq<Entry<Reservation>>, j: int)
    requires 0 <= j < |reservations|
    ensures reservations[j].doc.statut in Map(ReservationStats(reservations).stats, StatStatut)
  {
    var ks := Map(reservations, StatutOf);
    var ss := GroupKeys(ks);
    var stats := StatutStats(reservations, ss);
    var r := ReservationStats(reservations);
    SortDescCorrect(stats, StatNombreStatut, StatNombreStatut);
    assert ks[j] in ss;
    var n :| 0 <= n < |ss| && ss[n] == ks[j];
    assert stats[n] in multiset(r.stats);
    var m :| 0 <= m < |r.stats| && r.stats[m] == stats[n];
    assert Map(r.stats, StatStatut)[m] == reservations[j].doc.statut;
  }

  /** The counts add up to `total`, and the revenues to the total of all prices. */
  lemma {:induction false} ReservationStatsTotals(reservations: seq<Entry<Reservation>>)
    ensures var r := ReservationStats(reservations);
      && SumOf(r.stats, StatNombreStatut) == r.total
      && SumOf(r.stats, StatRevenu) == SumOf(reservations, PrixTotalOf)
  {
    var ks := Map(reservations, StatutOf);
    var ss := GroupKeys(ks);
    var stats := StatutStats(reservations, ss);
    SortDescCorrect(stats, StatNombreStatut, StatNombreStatut);
    SortDescCorrect(stats, StatNombreStatut, StatRevenu);
    forall x | x in reservations
      ensures StatutOf(x) in ss
    {
      var j :| 0 <= j < |reservations| && reservations[j] == x;
      assert ks[j] in ss;
    }
    SumOfGroups(stats, StatNombreStatut, ss, reservations, StatutOf, OneReservation);
    GroupingConserves(ss, reservations, StatutOf, OneReservation);
    SumOfOnes(reservations, OneReservation);
    SumOfGroups(stats, StatRevenu, ss, reservations, StatutOf, PrixTotalOf);
    GroupingConserves(ss, reservations, StatutOf, PrixTotalOf);
  }

  // ---------------------------------------------------------------------------
  // GET /api/reservations/completes: $lookup the hotel and the room, $unwind
  // both (dropping a reservation whose hotel or room is missing), $project,
  // $sort by dateArrivee descending; `nombre` is the length of the result.

  datatype HotelPart = HotelPart(nom: string, etoiles: int)
  datatype RoomPart = RoomPart(numero: string, roomType: string)
  datatype ClientPart = ClientPart(nom: Option<string>, email: Option<string>)
  datatype Detail = Detail(
    id: Id,
    hotel: HotelPart,
    room: RoomPart,
    client: ClientPart,
    dateArrivee: int,
    dateDepart: int,
    prixTotal: int,
    statut: string)
  datatype DetailReport = DetailReport(reservations: seq<Detail>, nombre: int)

  function ArriveeOf(d: Detail): int { d.dateArrivee }

  /** Both the hotel and the room a reservation refers to exist. */
  predicate Joined(e: Entry<Reservation>, hotels: map<Id, Hotel>, rooms: map<Id, Room>) {
    e.doc.hotelId in hotels && e.doc.roomId in rooms
  }

  /** The projected row of a reservation whose hotel and room exist. */
  function DetailOf(e: Entry<Reservation>, hotels: map<Id, Hotel>, rooms: map<Id, Room>): (d: Detail)
    requires Joined(e, hotels, rooms)
    ensures d.id == e.id && d.dateArrivee == e.doc.dateArrivee
  {
    var h := hotels[e.doc.hotelId];
    var r := rooms[e.doc.roomId];
    Detail(e.id, HotelPart(h.nom, h.etoiles), RoomPart(r.numero, r.roomType),
           ClientPart(e.doc.client.nom, e.doc.client.email),
           e.doc.dateArrivee, e.doc.dateDepart, e.doc.prixTotal, e.doc.statut)
  }

  /** The inner join, in collection order. */
  function Joins(reservations: seq<Entry<Reservation>>, hotels: map<Id, Hotel>, rooms: map<Id, Room>)
    : (r: seq<Detail>)
    ensures |r| <= |reservations|
    ensures forall j :: 0 <= j < |reservations| && Joined(reservations[j], hotels, rooms) ==>
      DetailOf(reservations[j], hotels, rooms) in r
  {
    if reservations == [] then []
    else
      var rest := Joins(reservations[1..], hotels, rooms);
      assert forall j :: 1 <= j < |reservations| ==> reservations[j] == reservations[1..][j - 1];
      if Joined(reservations[0], hotels, rooms) then [DetailOf(reservations[0], hotels, rooms)] + rest
      else rest
  }

  /** Every row of the join comes from a reservation whose hotel and room exist. */
  lemma {:induction false} JoinsSource(reservations: seq<Entry<Reservation>>, hotels: map<Id, Hotel>, rooms: map<Id, Room>, i: int)
    returns (j: int)
    requires 0 <= i < |Joins(reservations, hotels, rooms)|
    ensures 0 <= j < |reservations| && Joined(reservations[j], hotels, rooms)
    ensures Joins(reservations, hotels, rooms)[i] == DetailOf(reservations[j], hotels, rooms)
  {
    var rest := Joins(reservations[1..], hotels, rooms);
    if Joined(reservations[0], hotels, rooms) && i == 0 {
      j := 0;
    } else {
      var k := JoinsSource(reservations[1..], hotels, rooms, if Joined(reservations[0], hotels, rooms) then i - 1 else i);
      j := k + 1;
      assert reservations[1..][k] == reservations[j];
    }
  }

  /** The reservations whose row is `d`: joined, and projected to `d`. */
  predicate JoinsAs(e: Entry<Reservation>, hotels: map<Id, Hotel>, rooms: map<Id, Room>, d: Detail) {
    Joined(e, hotels, rooms) && DetailOf(e, hotels, rooms) == d
  }

  /** A row appears in the join as often as there are reservations that project to it. */
  lemma {:induction false} JoinsCount(reservations: seq<Entry<Reservation>>, hotels: map<Id, Hotel>, rooms: map<Id, Room>, d: Detail)
    ensures multiset(Joins(reservations, hotels, rooms))[d]
         == |Select(reservations, (e: Entry<Reservation>) => JoinsAs(e, hotels, rooms, d))|
  {
    if reservations != [] {
      JoinsCount(reservations[1..], hotels, rooms, d);
    }
  }

  /** The join has one row per reservation whose hotel and room exist. */
  lemma {:induction false} JoinsLength(reservations: seq<Entry<Reservation>>, hotels: map<Id, Hotel>, rooms: map<Id, Room>)
    ensures |Joins(reservations, hotels, rooms)| == |Select(reservations, (e: Entry<Reservation>) => Joined(e, hotels, rooms))|
  {
    if reservations != [] {
      JoinsLength(reservations[1..], hotels, rooms);
    }
  }

  function Completes(reservations: seq<Entry<Reservation>>, hotels: map<Id, Hotel>, rooms: map<Id, Room>)
    : (r: DetailReport)
    ensures r.nombre == |r.reservations| <= |reservations|
  {
    var joins := Joins(reservations, hotels, rooms);
    SortDescCorrect(joins, ArriveeOf, ArriveeOf);
    var sorted := SortDesc(joins, ArriveeOf);
    DetailReport(sorted, |sorted|)
  }

  /**
   * Latest arrival first; every row is the row of a reservation whose hotel
   * and room exist, every such reservation has its row, and `nombre` is the
   * number of such reservations.
   */
  lemma {:induction false} CompletesCorrect(reservations: seq<Entry<Reservation>>, hotels: map<Id, Hotel>, rooms: map<Id, Room>)
    ensures Completes(reservations, hotels, rooms).nombre
         == |Select(reservations, (e: Entry<Reservation>) => Joined(e, hotels, rooms))|
    ensures var r := Completes(reservations, hotels, rooms).reservations;
      && NonIncreasing(r, ArriveeOf)
      && (forall i :: 0 <= i < |r| ==>
            exists j :: 0 <= j < |reservations| && Joined(reservations[j], hotels, rooms)
                        && r[i] == DetailOf(reservations[j], hotels, rooms))
      && (forall j :: 0 <= j < |reservations| && Joined(reservations[j], hotels, rooms) ==>
            DetailOf(reservations[j], hotels, rooms) in r)
  {
    var joins := Joins(reservations, hotels, rooms);
    var r := Completes(reservations, hotels, rooms).reservations;
    SortDescCorrect(joins, ArriveeOf, ArriveeOf);
    JoinsLength(reservations, hotels, rooms);
    forall i | 0 <= i < |r|
      ensures exists j :: 0 <= j < |reservations| && Joined(reservations[j], hotels, rooms)
                          && r[i] == DetailOf(reservations[j], hotels, rooms)
    {
      assert r[i] in multiset(joins);
      var n :| 0 <= n < |joins| && joins[n] == r[i];
      var j := JoinsSource(reservations, hotels, rooms, n);
    }
    forall j | 0 <= j < |reservations| && Joined(reservations[j], hotels, rooms)
      ensures DetailOf(reservations[j], hotels, rooms) in r
    {
      assert DetailOf(reservations[j], hotels, rooms) in multiset(joins);
    }
  }

  /** A row appears in the report as often as there are reservations that project to it. */
  lemma CompletesCount(reservations: seq<Entry<Reservation>>, hotels: map<Id, Hotel>, rooms: map<Id, Room>, d: Detail)
    ensures multiset(Completes(reservations, hotels, rooms).reservations)[d]
         == |Select(reservations, (e: Entry<Reservation>) => JoinsAs(e, hotels, rooms, d))|
  {
    SortDescCorrect(Joins(reservations, hotels, rooms), ArriveeOf, ArriveeOf);
    JoinsCount(reservations, hotels, rooms, d);
  }
}
