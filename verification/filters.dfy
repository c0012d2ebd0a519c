/**
 * The query filters the list and search routes build from `req.query`, and
 * the pagination arithmetic. Each filter is a function whose contract says,
 * key by key, which condition each query parameter adds, and a builder
 * method that mutates a local filter as the route handler does, proved to
 * build the same filter.
 */
module Filters {
  import opened Wrappers
  import opened Js
  import opened Mongo

  /** How a query parameter is read: `parseInt(s)` or `new Date(s)`. */
  datatype Reading = AsNumber | AsDate

  function Read(how: Reading, s: string, host: Host): Value {
    match how
    case AsNumber => VNum(host.parseInt(s))
    case AsDate => VDate(host.parseDate(s))
  }

  /** `{ $gte: min, $lte: max }` with only the bounds that are given, each read as `how` says. */
  function Range(q: Query, min: string, max: string, how: Reading, host: Host): (c: Condition)
    ensures c.Between?
    ensures c.gte.Some? <==> Given(q, min)
    ensures c.lte.Some? <==> Given(q, max)
    ensures Given(q, min) ==> c.gte == Some(Read(how, q[min], host))
    ensures Given(q, max) ==> c.lte == Some(Read(how, q[max], host))
  {
    Between(if Given(q, min) then Some(Read(how, q[min], host)) else None,
            if Given(q, max) then Some(Read(how, q[max], host)) else None)
  }

  /**
   * GET /api/hotels: always `actif: true`; `adresse.ville` as a
   * case-insensitive pattern when `ville` is given; `etoiles` as
   * parseInt(etoiles) when given. None: `new RegExp(ville, 'i')` threw.
   */
  function HotelListFilter(q: Query, host: Host): (r: Option<Filter>)
    ensures r.None? <==> Given(q, "ville") && !host.regexCompiles(q["ville"])
    ensures r.Some? ==> "actif" in r.value && r.value["actif"] == Equals(VBool(true))
    ensures r.Some? ==> ("adresse.ville" in r.value <==> Given(q, "ville"))
    ensures r.Some? && Given(q, "ville") ==> r.value["adresse.ville"] == Like(q["ville"])
    ensures r.Some? ==> ("etoiles" in r.value <==> Given(q, "etoiles"))
    ensures r.Some? && Given(q, "etoiles") ==> r.value["etoiles"] == Equals(VNum(host.parseInt(q["etoiles"])))
    ensures r.Some? ==> r.value.Keys <= {"actif", "adresse.ville", "etoiles"}
  {
    if Given(q, "ville") && !host.regexCompiles(q["ville"]) then None
    else
      var base: Filter := map["actif" := Equals(VBool(true))];
      var byCity := if Given(q, "ville") then base["adresse.ville" := Like(q["ville"])] else base;
      Some(if Given(q, "etoiles") then byCity["etoiles" := Equals(VNum(host.parseInt(q["etoiles"])))] else byCity)
  }

  method BuildHotelListFilter(q: Query, host: Host) returns (r: Option<Filter>)
    ensures r == HotelListFilter(q, host)
  {
    var filter: Filter := map["actif" := Equals(VBool(true))];
    if Given(q, "ville") {
      if !host.regexCompiles(q["ville"]) {
        return None;
      }
      filter := filter["adresse.ville" := Like(q["ville"])];
    }
    if Given(q, "etoiles") {
      filter := filter["etoiles" := Equals(VNum(host.parseInt(q["etoiles"])))];
    }
    r := Some(filter);
  }

  /**
   * GET /api/hotels/recherche/avancee: `actif` is true when the parameter is
   * absent or "true", false when it is "false", and unconstrained otherwise;
   * `etoiles` is a range present iff a bound is given.
   */
  function SearchFilter(q: Query, host: Host): (r: Option<Filter>)
    ensures r.None? <==> Given(q, "ville") && !host.regexCompiles(q["ville"])
    ensures r.Some? && ("actif" !in q || q["actif"] == "true") ==> "actif" in r.value && r.value["actif"] == Equals(VBool(true))
    ensures r.Some? && "actif" in q && q["actif"] == "false" ==> "actif" in r.value && r.value["actif"] == Equals(VBool(false))
    ensures r.Some? && "actif" in q && q["actif"] != "true" && q["actif"] != "false" ==> "actif" !in r.value
    ensures r.Some? ==> ("adresse.ville" in r.value <==> Given(q, "ville"))
    ensures r.Some? && Given(q, "ville") ==> r.value["adresse.ville"] == Like(q["ville"])
    ensures r.Some? ==> ("etoiles" in r.value <==> Given(q, "etoilesMin") || Given(q, "etoilesMax"))
    ensures r.Some? && "etoiles" in r.value ==> r.value["etoiles"] == Range(q, "etoilesMin", "etoilesMax", AsNumber, host)
    ensures r.Some? ==> r.value.Keys <= {"actif", "adresse.ville", "etoiles"}
  {
    if Given(q, "ville") && !host.regexCompiles(q["ville"]) then None
    else
      var base: Filter :=
        if "actif" !in q || q["actif"] == "true" then map["actif" := Equals(VBool(true))]
        else if q["actif"] == "false" then map["actif" := Equals(VBool(false))]
        else map[];
      var byCity := if Given(q, "ville") then base["adresse.ville" := Like(q["ville"])] else base;
      Some(if Given(q, "etoilesMin") || Given(q, "etoilesMax")
           then byCity["etoiles" := Range(q, "etoilesMin", "etoilesMax", AsNumber, host)]
           else byCity)
  }

  method BuildSearchFilter(q: Query, host: Host) returns (r: Option<Filter>)
    ensures r == SearchFilter(q, host)
  {
    var filter: Filter := map[];
    if "actif" !in q || q["actif"] == "true" {
      filter := filter["actif" := Equals(VBool(true))];
    } else if q["actif"] == "false" {
      filter := filter["actif" := Equals(VBool(false))];
    }
    if Given(q, "ville") {
      if !host.regexCompiles(q["ville"]) {
        return None;
      }
      filter := filter["adresse.ville" := Like(q["ville"])];
    }
    if Given(q, "etoilesMin") || Given(q, "etoilesMax") {
      var range := Between(None, None);
      if Given(q, "etoilesMin") {
        range := range.(gte := Some(VNum(host.parseInt(q["etoilesMin"]))));
      }
      if Given(q, "etoilesMax") {
        range := range.(lte := Some(VNum(host.parseInt(q["etoilesMax"]))));
      }
      filter := filter["etoiles" := range];
    }
    r := Some(filter);
  }

  /**
   * GET /api/rooms: equality on `hotelId` and `type` when given; a present
   * `disponible` (even "") demands `disponible == (value == "true")`; a
   * `prixNuit` range present iff a bound is given.
   */
  function RoomListFilter(q: Query, host: Host): (r: Filter)
    ensures "hotelId" in r <==> Given(q, "hotelId")
    ensures Given(q, "hotelId") ==> r["hotelId"] == Equals(VStr(q["hotelId"]))
    ensures "type" in r <==> Given(q, "type")
    ensures Given(q, "type") ==> r["type"] == Equals(VStr(q["type"]))
    ensures "disponible" in r <==> "disponible" in q
    ensures "disponible" in q ==> r["disponible"] == Equals(VBool(q["disponible"] == "true"))
    ensures "prixNuit" in r <==> Given(q, "prixMin") || Given(q, "prixMax")
    ensures "prixNuit" in r ==> r["prixNuit"] == Range(q, "prixMin", "prixMax", AsNumber, host)
    ensures r.Keys <= {"hotelId", "type", "disponible", "prixNuit"}
  {
    var byHotel: Filter := if Given(q, "hotelId") then map["hotelId" := Equals(VStr(q["hotelId"]))] else map[];
    var byType := if Given(q, "type") then byHotel["type" := Equals(VStr(q["type"]))] else byHotel;
    var byAvailability :=
      if "disponible" in q then byType["disponible" := Equals(VBool(q["disponible"] == "true"))] else byType;
    if Given(q, "prixMin") || Given(q, "prixMax")
    then byAvailability["prixNuit" := Range(q, "prixMin", "prixMax", AsNumber, host)]
    else byAvailability
  }

  method BuildRoomListFilter(q: Query, host: Host) returns (r: Filter)
    ensures r == RoomListFilter(q, host)
  {
    r := map[];
    if Given(q, "hotelId") {
      r := r["hotelId" := Equals(VStr(q["hotelId"]))];
    }
    if Given(q, "type") {
      r := r["type" := Equals(VStr(q["type"]))];
    }
    if "disponible" in q {
      r := r["disponible" := Equals(VBool(q["disponible"] == "true"))];
    }
    if Given(q, "prixMin") || Given(q, "prixMax") {
      var range := Between(None, None);
      if Given(q, "prixMin") {
        range := range.(gte := Some(VNum(host.parseInt(q["prixMin"]))));
      }
      if Given(q, "prixMax") {
        range := range.(lte := Some(VNum(host.parseInt(q["prixMax"]))));
      }
      r := r["prixNuit" := range];
    }
  }

  /**
   * GET /api/reservations: equality on `statut` when given; a `dateArrivee`
   * range from `dateDebut`/`dateFin`, present iff a bound is given.
   */
  function ReservationListFilter(q: Query, host: Host): (r: Filter)
    ensures "statut" in r <==> Given(q, "statut")
    ensures Given(q, "statut") ==> r["statut"] == Equals(VStr(q["statut"]))
    ensures "dateArrivee" in r <==> Given(q, "dateDebut") || Given(q, "dateFin")
    ensures "dateArrivee" in r ==> r["dateArrivee"] == Range(q, "dateDebut", "dateFin", AsDate, host)
    ensures r.Keys <= {"statut", "dateArrivee"}
  {
    var byStatus: Filter := if Given(q, "statut") then map["statut" := Equals(VStr(q["statut"]))] else map[];
    if Given(q, "dateDebut") || Given(q, "dateFin")
    then byStatus["dateArrivee" := Range(q, "dateDebut", "dateFin", AsDate, host)]
    else byStatus
  }

  method BuildReservationListFilter(q: Query, host: Host) returns (r: Filter)
    ensures r == ReservationListFilter(q, host)
  {
    r := map[];
    if Given(q, "statut") {
      r := r["statut" := Equals(VStr(q["statut"]))];
    }
    if Given(q, "dateDebut") || Given(q, "dateFin") {
      var range := Between(None, None);
      if Given(q, "dateDebut") {
        range := range.(gte := Some(VDate(host.parseDate(q["dateDebut"]))));
      }
      if Given(q, "dateFin") {
        range := range.(lte := Some(VDate(host.parseDate(q["dateFin"]))));
      }
      r := r["dateArrivee" := range];
    }
  }

  /** The page and page size a listing reports and the documents it skips. */
  datatype Paging = Paging(page: int, limit: int, skip: int)

  const DefaultPage := 1
  const DefaultLimit := 10

  /**
   * `page = 1` and `limit = 10` when undefined, then parseInt of each, and
   * `skip = (page - 1) * limit`. None: one of them parsed to NaN.
   */
  function Pagination(q: Query, host: Host): (r: Option<Paging>)
    ensures r.Some? ==> r.value.skip == (r.value.page - 1) * r.value.limit
    ensures "page" !in q && "limit" !in q ==> r == Some(Paging(1, 10, 0))
    ensures r.Some? ==> Some(r.value.page) == (if "page" in q then host.parseInt(q["page"]) else Some(DefaultPage))
    ensures r.Some? ==> Some(r.value.limit) == (if "limit" in q then host.parseInt(q["limit"]) else Some(DefaultLimit))
    ensures r.None? <==> ("page" in q && host.parseInt(q["page"]).None?)
                         || ("limit" in q && host.parseInt(q["limit"]).None?)
  {
    var page := if "page" in q then host.parseInt(q["page"]) else Some(DefaultPage);
    var limit := if "limit" in q then host.parseInt(q["limit"]) else Some(DefaultLimit);
    if page.Some? && limit.Some? then
      Some(Paging(page.value, limit.value, (page.value - 1) * limit.value))
    else None
  }
}
