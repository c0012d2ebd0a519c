/**
 * The route handlers' outcome logic: which status each request gets (201,
 * 200, 400, 404 or 500), with which message, and what it does to the
 * collection. Every handler catches what its body throws and answers 500
 * with the error's own message (`error: None` below).
 */
module Routes {
  import opened Wrappers
  import opened Js
  import opened Mongo
  import opened Filters
  import opened Store
  import HotelModel
  import RoomModel
  import ReservationModel

  datatype Reply<T> =
    | Success(status: int, message: Option<string>, data: Option<T>)
    | Failure(status: int, error: Option<string>)

  const EmailInvalide := "Email invalide"
  const ChampsManquants := "Champs manquants"
  const HotelCree := "Hôtel créé"
  const HotelNonTrouve := "Hôtel non trouvé"
  const HotelModifie := "Hôtel modifié"
  const HotelSupprime := "Hôtel supprimé"
  const ChambreCreee := "Chambre créée"
  const ChambreNonTrouvee := "Chambre non trouvée"
  const ChambreModifiee := "Chambre modifiée"
  const ChambreSupprimee := "Chambre supprimée"
  const ReservationCreee := "Réservation créée"
  const ReservationNonTrouvee := "Réservation non trouvée"
  const ReservationModifiee := "Réservation modifiée"
  const ReservationSupprimee := "Réservation supprimée"

  // ---------------------------------------------------------------------------
  // Creation: the route's own checks, then `Model.create(req.body)`.

  /** What a create route decides before touching the collection. */
  datatype Decision<T> = Refuse(status: int, error: Option<string>) | Insert(doc: T)

  /**
   * POST /api/hotels: `validator.isEmail(req.body.email)` first (a throw is a
   * 500, false a 400), then the schema (a failure is a 500).
   */
  function DecideHotel(body: Body, host: Host): (d: Decision<HotelModel.Hotel>)
    ensures d.Refuse? ==> d.status == 400 || d.status == 500
    ensures d.Refuse? && d.status == 400 <==> host.isEmail(Get(body, "email")) == Rejects
    ensures d.Refuse? && d.status == 400 ==> d.error == Some(EmailInvalide)
    ensures d.Insert? <==> host.isEmail(Get(body, "email")) == Accepts && HotelModel.Create(body, host).Some?
    ensures d.Insert? ==> d.doc == HotelModel.Create(body, host).value && HotelModel.Conforms(d.doc)
  {
    match host.isEmail(Get(body, "email"))
    case Throws => Refuse(500, None)
    case Rejects => Refuse(400, Some(EmailInvalide))
    case Accepts =>
      match HotelModel.Create(body, host)
      case None => Refuse(500, None)
      case Some(h) => Insert(h)
  }

  /** The fields POST /api/rooms demands be truthy. */
  predicate RoomFieldsGiven(body: Body) {
    && Truthy(Get(body, "hotelId"))
    && Truthy(Get(body, "numero"))
    && Truthy(Get(body, "type"))
    && Truthy(Get(body, "prixNuit"))
    && Truthy(Get(body, "capacite"))
  }

  /**
   * POST /api/rooms: any falsy required field is a 400 (so 0 and "" count as
   * missing), then the schema (a failure is a 500).
   */
  function DecideRoom(body: Body, host: Host): (d: Decision<RoomModel.Room>)
    ensures d.Refuse? ==> d.status == 400 || d.status == 500
    ensures d.Refuse? && d.status == 400 <==> !RoomFieldsGiven(body)
    ensures d.Refuse? && d.status == 400 ==> d.error == Some(ChampsManquants)
    ensures d.Insert? <==> RoomFieldsGiven(body) && RoomModel.Create(body, host).Some?
    ensures d.Insert? ==> d.doc == RoomModel.Create(body, host).value && RoomModel.Conforms(d.doc)
    ensures d.Insert? ==> "prixNuit" in body && (body["prixNuit"].Num? ==> d.doc.prixNuit > 0)
    ensures d.Insert? ==> d.doc.capacite >= RoomModel.MinCapacite
  {
    if !RoomFieldsGiven(body) then Refuse(400, Some(ChampsManquants))
    else
      match RoomModel.Create(body, host)
      case None => Refuse(500, None)
      case Some(r) => Insert(r)
  }

  /**
   * The missing-field check looks at the body before the schema casts it:
   * the string "0" is truthy, and the Number cast makes it 0, so a free room
   * is created.
   */
  lemma QuotedFreeRoomCreated(body: Body, host: Host)
    requires "hotelId" in body && body["hotelId"] != Str("") && CastObjectId(body["hotelId"], host).Some?
    requires "numero" in body && body["numero"].Str? && body["numero"].s != ""
    requires "type" in body && body["type"].Str? && body["type"].s in RoomModel.RoomTypes
    requires "prixNuit" in body && body["prixNuit"] == Str("0") && host.toNumber("0") == Some(0)
    requires "capacite" in body && body["capacite"].Num? && body["capacite"].n >= RoomModel.MinCapacite
    requires "disponible" in body ==> CastBoolean(body["disponible"]).Some?
    ensures DecideRoom(body, host).Insert?
    ensures DecideRoom(body, host).doc.prixNuit == 0
  {
    var f := RoomModel.CastFields(body, host);
    assert f.Some?;
    assert RoomModel.Valid(RoomModel.ApplyDefaults(f.value));
  }

  /** A free room cannot be created from the number 0: `prixNuit: 0` is falsy, though the schema's minimum is 0. */
  lemma FreeRoomRefused(body: Body, host: Host)
    requires "prixNuit" in body && body["prixNuit"] == Num(0)
    ensures DecideRoom(body, host) == Refuse(400, Some(ChampsManquants))
  {
  }

  /** The fields POST /api/reservations demands be truthy. */
  predicate ReservationFieldsGiven(body: Body) {
    && Truthy(Get(body, "hotelId"))
    && Truthy(Get(body, "roomId"))
    && Truthy(Get(body, "client"))
    && Truthy(Get(body, "dateArrivee"))
    && Truthy(Get(body, "dateDepart"))
    && Truthy(Get(body, "prixTotal"))
  }

  /** `client.email`, undefined when `client` has no such member. */
  function ClientEmail(body: Body): Option<Json>
    requires "client" in body
  {
    Member(body["client"], "email")
  }

  /**
   * POST /api/reservations: the missing-field check, then the email check on
   * `client.email`, then the schema.
   */
  function DecideReservation(body: Body, host: Host): (d: Decision<ReservationModel.Reservation>)
    ensures d.Refuse? ==> d.status == 400 || d.status == 500
    ensures !ReservationFieldsGiven(body) ==> d == Refuse(400, Some(ChampsManquants))
    ensures ReservationFieldsGiven(body) ==>
      (d.Refuse? && d.status == 400 <==> host.isEmail(ClientEmail(body)) == Rejects)
    ensures ReservationFieldsGiven(body) && d.Refuse? && d.status == 400 ==> d.error == Some(EmailInvalide)
    ensures d.Insert? <==> ReservationFieldsGiven(body) && host.isEmail(ClientEmail(body)) == Accepts
                           && ReservationModel.Create(body, host).Some?
    ensures d.Insert? ==> d.doc == ReservationModel.Create(body, host).value
                          && ReservationModel.Conforms(d.doc)
    ensures d.Insert? ==> "prixTotal" in body && (body["prixTotal"].Num? ==> d.doc.prixTotal > 0)
  {
    if !ReservationFieldsGiven(body) then Refuse(400, Some(ChampsManquants))
    else
      match host.isEmail(ClientEmail(body))
      case Throws => Refuse(500, None)
      case Rejects => Refuse(400, Some(EmailInvalide))
      case Accepts =>
        match ReservationModel.Create(body, host)
        case None => Refuse(500, None)
        case Some(r) => Insert(r)
  }

  /**
   * The missing-field check comes first: a body missing a field gets the same
   * answer whatever `validator.isEmail` would have said.
   */
  lemma MissingBeforeEmail(body: Body, host: Host, other: Host)
    requires !ReservationFieldsGiven(body)
    ensures DecideReservation(body, host) == DecideReservation(body, other)
    ensures DecideReservation(body, host).error == Some(ChampsManquants)
  {
  }

  /** Carries out a create decision: a refusal leaves the collection alone, an insert answers 201. */
  method Perform<T>(c: Collection<T>, d: Decision<T>, created: string) returns (reply: Reply<Entry<T>>)
    requires c.Valid()
    modifies c
    ensures c.Valid()
    ensures d.Refuse? ==> reply == Failure(d.status, d.error)
                          && c.docs == old(c.docs) && c.order == old(c.order)
    ensures d.Insert? ==> && reply.Success? && reply.status == 201 && reply.message == Some(created)
                          && reply.data.Some? && reply.data.value.doc == d.doc
                          && reply.data.value.id !in old(c.docs)
                          && c.Entries() == old(c.Entries()) + [reply.data.value]
  {
    match d
    case Refuse(status, error) =>
      reply := Failure(status, error);
    case Insert(doc) =>
      var id := c.Create(doc);
      reply := Success(201, Some(created), Some(Entry(id, doc)));
  }

  method CreateHotel(c: Collection<HotelModel.Hotel>, body: Body, host: Host) returns (reply: Reply<Entry<HotelModel.Hotel>>)
    requires c.Valid()
    modifies c
    ensures c.Valid()
    ensures reply.status == 201 || reply.status == 400 || reply.status == 500
    ensures reply.status == 400 <==> host.isEmail(Get(body, "email")) == Rejects
    ensures reply.status == 201 <==> DecideHotel(body, host).Insert?
    ensures reply.status == 201 ==> reply.Success? && reply.data.Some?
                                    && c.Entries() == old(c.Entries()) + [reply.data.value]
                                    && reply.data.value.doc == HotelModel.Create(body, host).value
    ensures reply.status != 201 ==> c.docs == old(c.docs) && c.order == old(c.order)
  {
    reply := Perform(c, DecideHotel(body, host), HotelCree);
  }

  method CreateRoom(c: Collection<RoomModel.Room>, body: Body, host: Host) returns (reply: Reply<Entry<RoomModel.Room>>)
    requires c.Valid()
    modifies c
    ensures c.Valid()
    ensures reply.status == 201 || reply.status == 400 || reply.status == 500
    ensures reply.status == 400 <==> !RoomFieldsGiven(body)
    ensures reply.status == 201 <==> DecideRoom(body, host).Insert?
    ensures reply.status == 201 ==> reply.Success? && reply.data.Some?
                                    && c.Entries() == old(c.Entries()) + [reply.data.value]
                                    && reply.data.value.doc == RoomModel.Create(body, host).value
    ensures reply.status != 201 ==> c.docs == old(c.docs) && c.order == old(c.order)
  {
    reply := Perform(c, DecideRoom(body, host), ChambreCreee);
  }

  method CreateReservation(c: Collection<ReservationModel.Reservation>, body: Body, host: Host)
    returns (reply: Reply<Entry<ReservationModel.Reservation>>)
    requires c.Valid()
    modifies c
    ensures c.Valid()
    ensures reply.status == 201 || reply.status == 400 || reply.status == 500
    ensures !ReservationFieldsGiven(body) ==> reply == Failure(400, Some(ChampsManquants))
    ensures reply.status == 201 <==> DecideReservation(body, host).Insert?
    ensures reply.status == 201 ==> reply.Success? && reply.data.Some?
                                    && c.Entries() == old(c.Entries()) + [reply.data.value]
                                    && reply.data.value.doc == ReservationModel.Create(body, host).value
    ensures reply.status != 201 ==> c.docs == old(c.docs) && c.order == old(c.order)
  {
    reply := Perform(c, DecideReservation(body, host), ReservationCreee);
  }

  // ---------------------------------------------------------------------------
  // PUT and DELETE by id. `id` is the cast of `req.params.id` (None: not an
  // ObjectId, a CastError); `patch` the cast of the body as a `$set` (None:
  // a path failed to cast).

  function UpdateReply<T>(docs: map<Id, T>, id: Option<Id>, patch: Option<T -> T>, notFound: string, updated: string)
    : (r: Reply<T>)
    ensures r.status == 500 <==> id.None? || patch.None?
    ensures r.status == 404 <==> id.Some? && patch.Some? && id.value !in docs
    ensures r.status == 200 <==> id.Some? && patch.Some? && id.value in docs
    ensures r.status == 404 ==> r == Failure(404, Some(notFound))
    ensures r.status == 200 ==> r == Success(200, Some(updated), Some(patch.value(docs[id.value])))
  {
    if id.None? || patch.None? then Failure(500, None)
    else if id.value !in docs then Failure(404, Some(notFound))
    else Success(200, Some(updated), Some(patch.value(docs[id.value])))
  }

  /** `findByIdAndUpdate(id, body, { new: true })` and the answer the route gives. */
  method Update<T>(c: Collection<T>, id: Option<Id>, patch: Option<T -> T>, notFound: string, updated: string)
    returns (reply: Reply<T>)
    requires c.Valid()
    modifies c
    ensures c.Valid()
    ensures reply == UpdateReply(old(c.docs), id, patch, notFound, updated)
    ensures reply.status == 200 ==> c.docs == old(c.docs)[id.value := reply.data.value]
    ensures reply.status != 200 ==> c.docs == old(c.docs)
    ensures c.order == old(c.order)
  {
    if id.None? || patch.None? {
      return Failure(500, None);
    }
    var r := c.UpdateById(id.value, patch.value);
    if r.None? {
      reply := Failure(404, Some(notFound));
    } else {
      reply := Success(200, Some(updated), r);
    }
  }

  function DeleteReply<T>(docs: map<Id, T>, id: Option<Id>, notFound: string, deleted: string): (r: Reply<T>)
    ensures r.status == 500 <==> id.None?
    ensures r.status == 404 <==> id.Some? && id.value !in docs
    ensures r.status == 200 <==> id.Some? && id.value in docs
    ensures r.status == 404 ==> r == Failure(404, Some(notFound))
    ensures r.status == 200 ==> r == Success(200, Some(deleted), None)
  {
    if id.None? then Failure(500, None)
    else if id.value !in docs then Failure(404, Some(notFound))
    else Success(200, Some(deleted), None)
  }

  /** `findByIdAndDelete(id)` and the answer the route gives. */
  method Delete<T>(c: Collection<T>, id: Option<Id>, notFound: string, deleted: string) returns (reply: Reply<T>)
    requires c.Valid()
    modifies c
    ensures c.Valid()
    ensures reply == DeleteReply(old(c.docs), id, notFound, deleted)
    ensures reply.status == 200 ==> c.docs == old(c.docs) - {id.value} && c.Entries() == Drop(old(c.Entries()), id.value)
    ensures reply.status != 200 ==> c.docs == old(c.docs) && c.order == old(c.order)
  {
    if id.None? {
      return Failure(500, None);
    }
    var r := c.DeleteById(id.value);
    if r.None? {
      reply := Failure(404, Some(notFound));
    } else {
      reply := Success(200, Some(deleted), None);
    }
  }

  /** Deleting the same document twice: 200, then 404. */
  method DeleteTwice<T>(c: Collection<T>, id: Id, notFound: string, deleted: string) returns (first: Reply<T>, second: Reply<T>)
    requires c.Valid() && id in c.docs
    modifies c
    ensures c.Valid()
    ensures first == Success(200, Some(deleted), None)
    ensures second == Failure(404, Some(notFound))
    ensures c.docs == old(c.docs) - {id}
  {
    first := Delete(c, Some(id), notFound, deleted);
    second := Delete(c, Some(id), notFound, deleted);
  }

  /** An update of a document that is gone is a 404 whatever the body, once the id and the body cast. */
  lemma UpdateAfterDelete<T>(docs: map<Id, T>, id: Id, patch: T -> T, notFound: string, updated: string, deleted: string)
    requires DeleteReply(docs, Some(id), notFound, deleted).status == 200
    ensures UpdateReply(docs - {id}, Some(id), Some(patch), notFound, updated) == Failure(404, Some(notFound))
  {
  }

  /** The body of PUT /api/hotels/:id as a `$set`; None when a path fails to cast. */
  function HotelPatch(body: Body, host: Host): (p: Option<HotelModel.Hotel -> HotelModel.Hotel>)
    ensures p.Some? <==> HotelModel.CastFields(body, host).Some?
  {
    match HotelModel.CastFields(body, host)
    case None => None
    case Some(f) => Some((h: HotelModel.Hotel) => HotelModel.Merge(h, f))
  }

  function RoomPatch(body: Body, host: Host): (p: Option<RoomModel.Room -> RoomModel.Room>)
    ensures p.Some? <==> RoomModel.CastFields(body, host).Some?
  {
    match RoomModel.CastFields(body, host)
    case None => None
    case Some(f) => Some((r: RoomModel.Room) => RoomModel.Merge(r, f))
  }

  function ReservationPatch(body: Body, host: Host)
    : (p: Option<ReservationModel.Reservation -> ReservationModel.Reservation>)
    ensures p.Some? <==> ReservationModel.CastFields(body, host).Some?
  {
    match ReservationModel.CastFields(body, host)
    case None => None
    case Some(f) => Some((r: ReservationModel.Reservation) => ReservationModel.Merge(r, f))
  }

  method UpdateHotel(c: Collection<HotelModel.Hotel>, idParam: string, body: Body, host: Host)
    returns (reply: Reply<HotelModel.Hotel>)
    requires c.Valid()
    modifies c
    ensures c.Valid()
    ensures reply == UpdateReply(old(c.docs), host.objectId(idParam), HotelPatch(body, host), HotelNonTrouve, HotelModifie)
    ensures reply.status == 200 ==> c.docs == old(c.docs)[host.objectId(idParam).value := reply.data.value]
    ensures reply.status != 200 ==> c.docs == old(c.docs)
  {
    reply := Update(c, host.objectId(idParam), HotelPatch(body, host), HotelNonTrouve, HotelModifie);
  }

  method DeleteHotel(c: Collection<HotelModel.Hotel>, idParam: string, host: Host) returns (reply: Reply<HotelModel.Hotel>)
    requires c.Valid()
    modifies c
    ensures c.Valid()
    ensures reply == DeleteReply(old(c.docs), host.objectId(idParam), HotelNonTrouve, HotelSupprime)
    ensures reply.status == 200 ==> c.docs == old(c.docs) - {host.objectId(idParam).value}
    ensures reply.status != 200 ==> c.docs == old(c.docs)
  {
    reply := Delete(c, host.objectId(idParam), HotelNonTrouve, HotelSupprime);
  }

  method UpdateRoom(c: Collection<RoomModel.Room>, idParam: string, body: Body, host: Host)
    returns (reply: Reply<RoomModel.Room>)
    requires c.Valid()
    modifies c
    ensures c.Valid()
    ensures reply == UpdateReply(old(c.docs), host.objectId(idParam), RoomPatch(body, host), ChambreNonTrouvee, ChambreModifiee)
    ensures reply.status == 200 ==> c.docs == old(c.docs)[host.objectId(idParam).value := reply.data.value]
    ensures reply.status != 200 ==> c.docs == old(c.docs)
  {
    reply := Update(c, host.objectId(idParam), RoomPatch(body, host), ChambreNonTrouvee, ChambreModifiee);
  }

  method DeleteRoom(c: Collection<RoomModel.Room>, idParam: string, host: Host) returns (reply: Reply<RoomModel.Room>)
    requires c.Valid()
    modifies c
    ensures c.Valid()
    ensures reply == DeleteReply(old(c.docs), host.objectId(idParam), ChambreNonTrouvee, ChambreSupprimee)
    ensures reply.status == 200 ==> c.docs == old(c.docs) - {host.objectId(idParam).value}
    ensures reply.status != 200 ==> c.docs == old(c.docs)
  {
    reply := Delete(c, host.objectId(idParam), ChambreNonTrouvee, ChambreSupprimee);
  }

  method UpdateReservation(c: Collection<ReservationModel.Reservation>, idParam: string, body: Body, host: Host)
    returns (reply: Reply<ReservationModel.Reservation>)
    requires c.Valid()
    modifies c
    ensures c.Valid()
    ensures reply == UpdateReply(old(c.docs), host.objectId(idParam), ReservationPatch(body, host),
                                 ReservationNonTrouvee, ReservationModifiee)
    ensures reply.status == 200 ==> c.docs == old(c.docs)[host.objectId(idParam).value := reply.data.value]
    ensures reply.status != 200 ==> c.docs == old(c.docs)
  {
    reply := Update(c, host.objectId(idParam), ReservationPatch(body, host), ReservationNonTrouvee, ReservationModifiee);
  }

  method DeleteReservation(c: Collection<ReservationModel.Reservation>, idParam: string, host: Host)
    returns (reply: Reply<ReservationModel.Reservation>)
    requires c.Valid()
    modifies c
    ensures c.Valid()
    ensures reply == DeleteReply(old(c.docs), host.objectId(idParam), ReservationNonTrouvee, ReservationSupprimee)
    ensures reply.status == 200 ==> c.docs == old(c.docs) - {host.objectId(idParam).value}
    ensures reply.status != 200 ==> c.docs == old(c.docs)
  {
    reply := Delete(c, host.objectId(idParam), ReservationNonTrouvee, ReservationSupprimee);
  }

  // ---------------------------------------------------------------------------
  // Listings: build the filter, cast it, `find(filter).limit(limit).skip(skip)`
  // and `countDocuments(filter)`.

  datatype Page<T> = Page(items: seq<Entry<T>>, page: int, limit: int, total: int)

  /**
   * The page of `matching` that `limit(limit).skip(skip)` leaves: consecutive
   * matches starting at `skip`, no more than `limit` of them (a limit of 0 is
   * no limit), and `total` counts every match. None: a negative skip.
   */
  function PageOf<T>(matching: seq<Entry<T>>, paging: Paging): (r: Option<Page<T>>)
    ensures r.Some? <==> paging.skip >= 0
    ensures r.Some? ==> var items := r.value.items;
      && r.value.page == paging.page && r.value.limit == paging.limit && r.value.total == |matching|
      && (paging.limit > 0 ==> |items| <= paging.limit)
      && (paging.limit == 0 ==> |items| == |matching| - Min(paging.skip, |matching|))
      && Min(paging.skip, |matching|) + |items| <= |matching|
      && items == matching[Min(paging.skip, |matching|)..Min(paging.skip, |matching|) + |items|]
  {
    match Window(matching, paging.skip, paging.limit)
    case None => None
    case Some(items) => Some(Page(items, paging.page, paging.limit, |matching|))
  }

  /** The documents of `entries` that a filter matches, once cast; None: the cast threw. */
  function Matching<T>(entries: seq<Entry<T>>, f: Filter, idPaths: set<string>,
                       field: (T, string) -> Option<Value>, host: Host): (r: Option<seq<Entry<T>>>)
    ensures r.Some? <==> CastFilter(f, idPaths, host).Some?
    ensures r.Some? ==> forall i :: 0 <= i < |r.value| ==>
      r.value[i] in entries && Matches(r.value[i].doc, CastFilter(f, idPaths, host).value, field, host)
    ensures r.Some? ==> forall i :: 0 <= i < |entries| && Matches(entries[i].doc, CastFilter(f, idPaths, host).value, field, host) ==>
      entries[i] in r.value
  {
    match CastFilter(f, idPaths, host)
    case None => None
    case Some(cast) => Some(Find(entries, cast, field, host))
  }

  /**
   * The matches keep the collection's order and multiplicity: the documents
   * of `a + b` that match are those of `a`, then those of `b`, and each
   * matching document appears as often as it is stored.
   */
  lemma MatchingOrder<T>(a: seq<Entry<T>>, b: seq<Entry<T>>, f: Filter, idPaths: set<string>,
                         field: (T, string) -> Option<Value>, host: Host, e: Entry<T>)
    requires CastFilter(f, idPaths, host).Some?
    ensures Matching(a + b, f, idPaths, field, host).value
            == Matching(a, f, idPaths, field, host).value + Matching(b, f, idPaths, field, host).value
    ensures multiset(Matching(a, f, idPaths, field, host).value)[e]
            == if Matches(e.doc, CastFilter(f, idPaths, host).value, field, host) then multiset(a)[e] else 0
  {
    var cast := CastFilter(f, idPaths, host).value;
    FindAppend(a, b, cast, field, host);
    FindCount(a, cast, field, host, e);
  }

  /**
   * A listing route: build the filter (None: building it threw), read the
   * paging, find, and answer 200 with the page, or 500 for anything thrown.
   */
  function ListPage<T>(entries: seq<Entry<T>>, filter: Option<Filter>, idPaths: set<string>,
                       field: (T, string) -> Option<Value>, q: Query, host: Host): (r: Reply<Page<T>>)
    ensures r.status == 200 || r.status == 500
    ensures r.Success? <==> && filter.Some? && Pagination(q, host).Some?
                            && Matching(entries, filter.value, idPaths, field, host).Some?
                            && Pagination(q, host).value.skip >= 0
    ensures r.Success? ==> r.status == 200 && r.message.None?
    ensures r.Success? ==> r.data == PageOf(Matching(entries, filter.value, idPaths, field, host).value, Pagination(q, host).value)
  {
    match filter
    case None => Failure(500, None)
    case Some(f) =>
      match Pagination(q, host)
      case None => Failure(500, None)
      case Some(paging) =>
        match Matching(entries, f, idPaths, field, host)
        case None => Failure(500, None)
        case Some(matching) =>
          match PageOf(matching, paging)
          case None => Failure(500, None)
          case Some(page) => Success(200, None, Some(page))
  }

  /** Every document a listing returns is in the collection and matches the cast filter. */
  lemma {:induction false} ListPageMatches<T>(entries: seq<Entry<T>>, filter: Option<Filter>, idPaths: set<string>,
                                              field: (T, string) -> Option<Value>, q: Query, host: Host)
    requires ListPage(entries, filter, idPaths, field, q, host).Success?
    ensures var items := ListPage(entries, filter, idPaths, field, q, host).data.value.items;
      forall i :: 0 <= i < |items| ==>
        items[i] in entries && Matches(items[i].doc, CastFilter(filter.value, idPaths, host).value, field, host)
  {
    var matching := Matching(entries, filter.value, idPaths, field, host).value;
    var paging := Pagination(q, host).value;
    var items := ListPage(entries, filter, idPaths, field, q, host).data.value.items;
    var from := Min(paging.skip, |matching|);
    assert items == PageOf(matching, paging).value.items;
    SliceMatches(items, matching, from, entries, CastFilter(filter.value, idPaths, host).value, field, host);
  }

  /** A run of consecutive matches consists of matches. */
  lemma SliceMatches<T>(items: seq<Entry<T>>, matching: seq<Entry<T>>, from: nat, entries: seq<Entry<T>>,
                        f: Filter, field: (T, string) -> Option<Value>, host: Host)
    requires from + |items| <= |matching| && items == matching[from..from + |items|]
    requires forall j :: 0 <= j < |matching| ==> matching[j] in entries && Matches(matching[j].doc, f, field, host)
    ensures forall i :: 0 <= i < |items| ==> items[i] in entries && Matches(items[i].doc, f, field, host)
  {
    forall i | 0 <= i < |items|
      ensures items[i] in entries && Matches(items[i].doc, f, field, host)
    {
      assert items[i] == matching[from + i];
    }
  }

  /** A document passes a cast filter only if each key's cast condition holds of it. */
  lemma MatchesKey<T>(doc: T, f: Filter, idPaths: set<string>, field: (T, string) -> Option<Value>, host: Host, k: string)
    requires CastFilter(f, idPaths, host).Some? && k in f
    requires Matches(doc, CastFilter(f, idPaths, host).value, field, host)
    ensures CastCondition(f[k], k in idPaths, host).Some?
    ensures Holds(field(doc, k), CastCondition(f[k], k in idPaths, host).value, host)
  {
  }

  /** A value within a cast range lies within each bound the query gives. */
  lemma RangeHolds(q: Query, min: string, max: string, how: Reading, host: Host, v: Value)
    requires CastCondition(Range(q, min, max, how, host), false, host).Some?
    requires Holds(Some(v), CastCondition(Range(q, min, max, how, host), false, host).value, host)
    ensures Given(q, min) ==> AtMost(Read(how, q[min], host), v)
    ensures Given(q, max) ==> AtMost(v, Read(how, q[max], host))
  {
  }

  /** GET /api/hotels. */
  function ListHotels(entries: seq<Entry<HotelModel.Hotel>>, q: Query, host: Host): (r: Reply<Page<HotelModel.Hotel>>)
    ensures r.status == 200 || r.status == 500
    ensures Given(q, "ville") && !host.regexCompiles(q["ville"]) ==> r.status == 500
    ensures Given(q, "etoiles") && host.parseInt(q["etoiles"]).None? ==> r.status == 500
  {
    var filter := HotelListFilter(q, host);
    assert filter.Some? && Given(q, "etoiles") && host.parseInt(q["etoiles"]).None?
      ==> CastCondition(filter.value["etoiles"], false, host).None?;
    ListPage(entries, filter, HotelModel.IdPaths, HotelModel.Field, q, host)
  }

  /** Every hotel GET /api/hotels lists is active, and has the requested stars when they are given. */
  lemma ListHotelsSelects(entries: seq<Entry<HotelModel.Hotel>>, q: Query, host: Host)
    requires ListHotels(entries, q, host).Success?
    ensures var items := ListHotels(entries, q, host).data.value.items;
      && (forall i :: 0 <= i < |items| ==> items[i].doc.actif)
      && (Given(q, "etoiles") ==> forall i :: 0 <= i < |items| ==> Some(items[i].doc.etoiles) == host.parseInt(q["etoiles"]))
  {
    var items := ListHotels(entries, q, host).data.value.items;
    ListPageMatches(entries, HotelListFilter(q, host), HotelModel.IdPaths, HotelModel.Field, q, host);
    forall i | 0 <= i < |items|
      ensures items[i].doc.actif
      ensures Given(q, "etoiles") ==> Some(items[i].doc.etoiles) == host.parseInt(q["etoiles"])
    {
      HotelFilterSelects(items[i].doc, q, host);
    }
  }

  lemma HotelFilterSelects(h: HotelModel.Hotel, q: Query, host: Host)
    requires HotelListFilter(q, host).Some?
    requires CastFilter(HotelListFilter(q, host).value, HotelModel.IdPaths, host).Some?
    requires Matches(h, CastFilter(HotelListFilter(q, host).value, HotelModel.IdPaths, host).value, HotelModel.Field, host)
    ensures h.actif
    ensures Given(q, "etoiles") ==> Some(h.etoiles) == host.parseInt(q["etoiles"])
  {
    var filter := HotelListFilter(q, host).value;
    MatchesKey(h, filter, HotelModel.IdPaths, HotelModel.Field, host, "actif");
    if Given(q, "etoiles") {
      MatchesKey(h, filter, HotelModel.IdPaths, HotelModel.Field, host, "etoiles");
    }
  }

  datatype Found<T> = Found(count: int, items: seq<Entry<T>>)

  /**
   * GET /api/hotels/recherche/avancee: every matching hotel, with no paging,
   * and their number.
   */
  function SearchHotels(entries: seq<Entry<HotelModel.Hotel>>, q: Query, host: Host): (r: Reply<Found<HotelModel.Hotel>>)
    ensures r.status == 200 || r.status == 500
    ensures r.Success? <==> SearchFilter(q, host).Some?
                            && Matching(entries, SearchFilter(q, host).value, HotelModel.IdPaths, HotelModel.Field, host).Some?
    ensures r.Success? ==> r.data.Some? && r.data.value.count == |r.data.value.items|
    ensures r.Success? ==> r.data.value.items == Matching(entries, SearchFilter(q, host).value, HotelModel.IdPaths, HotelModel.Field, host).value
  {
    match SearchFilter(q, host)
    case None => Failure(500, None)
    case Some(f) =>
      match Matching(entries, f, HotelModel.IdPaths, HotelModel.Field, host)
      case None => Failure(500, None)
      case Some(hotels) => Success(200, None, Some(Found(|hotels|, hotels)))
  }

  /**
   * The `actif` parameter of the advanced search: absent or "true" finds only
   * active hotels, "false" only inactive ones.
   */
  lemma {:induction false} SearchHotelsActif(entries: seq<Entry<HotelModel.Hotel>>, q: Query, host: Host)
    requires SearchHotels(entries, q, host).Success?
    ensures var items := SearchHotels(entries, q, host).data.value.items;
      && (("actif" !in q || q["actif"] == "true") ==> forall i :: 0 <= i < |items| ==> items[i].doc.actif)
      && ("actif" in q && q["actif"] == "false" ==> forall i :: 0 <= i < |items| ==> !items[i].doc.actif)
  {
    var f := SearchFilter(q, host).value;
    var items := SearchHotels(entries, q, host).data.value.items;
    forall i | 0 <= i < |items| && "actif" in f
      ensures Holds(HotelModel.Field(items[i].doc, "actif"), f["actif"], host)
    {
      MatchesKey(items[i].doc, f, HotelModel.IdPaths, HotelModel.Field, host, "actif");
    }
  }

  /**
   * Any other `actif` value leaves `actif` unconstrained: a hotel that would
   * match with `actif` flipped is found as it is.
   */
  lemma {:induction false} SearchHotelsAnyActif(entries: seq<Entry<HotelModel.Hotel>>, q: Query, host: Host)
    requires SearchHotels(entries, q, host).Success?
    requires "actif" in q && q["actif"] != "true" && q["actif"] != "false"
    ensures var items := SearchHotels(entries, q, host).data.value.items;
      forall i :: 0 <= i < |entries| ==> entries[i] in items || !Matches(entries[i].doc.(actif := !entries[i].doc.actif),
        CastFilter(SearchFilter(q, host).value, HotelModel.IdPaths, host).value, HotelModel.Field, host)
  {
    var f := SearchFilter(q, host).value;
    var items := SearchHotels(entries, q, host).data.value.items;
    var cast := CastFilter(f, HotelModel.IdPaths, host).value;
    assert "actif" !in cast;
    forall i | 0 <= i < |entries| && Matches(entries[i].doc.(actif := !entries[i].doc.actif), cast, HotelModel.Field, host)
      ensures entries[i] in items
    {
      ActifIgnored(entries[i].doc, cast, host);
    }
  }

  /** A filter without `actif` that matches a hotel with `actif` flipped matches the hotel itself. */
  lemma ActifIgnored(h: HotelModel.Hotel, f: Filter, host: Host)
    requires "actif" !in f
    requires Matches(h.(actif := !h.actif), f, HotelModel.Field, host)
    ensures Matches(h, f, HotelModel.Field, host)
  {
    var g := h.(actif := !h.actif);
    forall k | k in f ensures Holds(HotelModel.Field(h, k), f[k], host) {
      assert Holds(HotelModel.Field(g, k), f[k], host);
      assert HotelModel.Field(g, k) == HotelModel.Field(h, k);
    }
  }

  /** GET /api/rooms. A `hotelId` that is not an ObjectId is a cast error. */
  function ListRooms(entries: seq<Entry<RoomModel.Room>>, q: Query, host: Host): (r: Reply<Page<RoomModel.Room>>)
    ensures r.status == 200 || r.status == 500
    ensures Given(q, "hotelId") && host.objectId(q["hotelId"]).None? ==> r.status == 500
  {
    var f := RoomListFilter(q, host);
    assert Given(q, "hotelId") && host.objectId(q["hotelId"]).None?
      ==> CastCondition(f["hotelId"], true, host).None?;
    ListPage(entries, Some(f), RoomModel.IdPaths, RoomModel.Field, q, host)
  }

  /** What the room filter demands of one room that matches it. */
  predicate RoomWanted(room: RoomModel.Room, q: Query, host: Host) {
    && (Given(q, "hotelId") ==> host.objectId(q["hotelId"]) == Some(room.hotelId))
    && (Given(q, "type") ==> room.roomType == q["type"])
    && ("disponible" in q ==> room.disponible == (q["disponible"] == "true"))
    && PricedWithin(room, q, host)
  }

  /** The nightly price lies within the bounds the query gives. */
  predicate PricedWithin(room: RoomModel.Room, q: Query, host: Host) {
    && (Given(q, "prixMin") ==> host.parseInt(q["prixMin"]).Some? && host.parseInt(q["prixMin"]).value <= room.prixNuit)
    && (Given(q, "prixMax") ==> host.parseInt(q["prixMax"]).Some? && room.prixNuit <= host.parseInt(q["prixMax"]).value)
  }

  lemma PriceFilterSelects(room: RoomModel.Room, q: Query, host: Host)
    requires CastFilter(RoomListFilter(q, host), RoomModel.IdPaths, host).Some?
    requires Matches(room, CastFilter(RoomListFilter(q, host), RoomModel.IdPaths, host).value, RoomModel.Field, host)
    ensures PricedWithin(room, q, host)
  {
    var f := RoomListFilter(q, host);
    if Given(q, "prixMin") || Given(q, "prixMax") {
      assert f["prixNuit"] == Range(q, "prixMin", "prixMax", AsNumber, host);
      assert "prixNuit" !in RoomModel.IdPaths;
      MatchesKey(room, f, RoomModel.IdPaths, RoomModel.Field, host, "prixNuit");
      RangeHolds(q, "prixMin", "prixMax", AsNumber, host, VNum(Some(room.prixNuit)));
    }
  }

  lemma {:induction false} RoomFilterSelects(room: RoomModel.Room, q: Query, host: Host)
    requires CastFilter(RoomListFilter(q, host), RoomModel.IdPaths, host).Some?
    requires Matches(room, CastFilter(RoomListFilter(q, host), RoomModel.IdPaths, host).value, RoomModel.Field, host)
    ensures RoomWanted(room, q, host)
  {
    var f := RoomListFilter(q, host);
    if Given(q, "hotelId") {
      MatchesKey(room, f, RoomModel.IdPaths, RoomModel.Field, host, "hotelId");
    }
    if Given(q, "type") {
      MatchesKey(room, f, RoomModel.IdPaths, RoomModel.Field, host, "type");
    }
    if "disponible" in q {
      MatchesKey(room, f, RoomModel.IdPaths, RoomModel.Field, host, "disponible");
    }
    PriceFilterSelects(room, q, host);
  }

  /**
   * Every room GET /api/rooms lists has the requested hotel and type, the
   * requested availability (any value but "true" asks for unavailable rooms),
   * and a price within the requested bounds.
   */
  lemma {:induction false} ListRoomsSelects(entries: seq<Entry<RoomModel.Room>>, q: Query, host: Host)
    requires ListRooms(entries, q, host).Success?
    ensures var items := ListRooms(entries, q, host).data.value.items;
      forall i :: 0 <= i < |items| ==> RoomWanted(items[i].doc, q, host)
  {
    var f := RoomListFilter(q, host);
    var items := ListRooms(entries, q, host).data.value.items;
    ListPageMatches(entries, Some(f), RoomModel.IdPaths, RoomModel.Field, q, host);
    forall i | 0 <= i < |items|
      ensures RoomWanted(items[i].doc, q, host)
    {
      RoomFilterSelects(items[i].doc, q, host);
    }
  }

  /** GET /api/reservations. */
  function ListReservations(entries: seq<Entry<ReservationModel.Reservation>>, q: Query, host: Host)
    : (r: Reply<Page<ReservationModel.Reservation>>)
    ensures r.status == 200 || r.status == 500
    ensures Given(q, "dateDebut") && host.parseDate(q["dateDebut"]).None? ==> r.status == 500
  {
    var f := ReservationListFilter(q, host);
    assert Given(q, "dateDebut") && host.parseDate(q["dateDebut"]).None?
      ==> CastCondition(f["dateArrivee"], false, host).None?;
    ListPage(entries, Some(f), ReservationModel.IdPaths, ReservationModel.Field, q, host)
  }

  /** What the reservation filter demands of one reservation that matches it. */
  predicate ReservationWanted(res: ReservationModel.Reservation, q: Query, host: Host) {
    && (Given(q, "statut") ==> res.statut == q["statut"])
    && (Given(q, "dateDebut") ==> host.parseDate(q["dateDebut"]).Some? && host.parseDate(q["dateDebut"]).value <= res.dateArrivee)
    && (Given(q, "dateFin") ==> host.parseDate(q["dateFin"]).Some? && res.dateArrivee <= host.parseDate(q["dateFin"]).value)
  }

  lemma {:induction false} ReservationFilterSelects(res: ReservationModel.Reservation, q: Query, host: Host)
    requires CastFilter(ReservationListFilter(q, host), ReservationModel.IdPaths, host).Some?
    requires Matches(res, CastFilter(ReservationListFilter(q, host), ReservationModel.IdPaths, host).value,
                     ReservationModel.Field, host)
    ensures ReservationWanted(res, q, host)
  {
    var f := ReservationListFilter(q, host);
    if Given(q, "statut") {
      MatchesKey(res, f, ReservationModel.IdPaths, ReservationModel.Field, host, "statut");
    }
    if Given(q, "dateDebut") || Given(q, "dateFin") {
      assert f["dateArrivee"] == Range(q, "dateDebut", "dateFin", AsDate, host);
      assert "dateArrivee" !in ReservationModel.IdPaths;
      MatchesKey(res, f, ReservationModel.IdPaths, ReservationModel.Field, host, "dateArrivee");
      RangeHolds(q, "dateDebut", "dateFin", AsDate, host, VDate(Some(res.dateArrivee)));
    }
  }

  /** Every reservation GET /api/reservations lists has the requested statut and arrives within the requested dates. */
  lemma {:induction false} ListReservationsSelects(entries: seq<Entry<ReservationModel.Reservation>>, q: Query, host: Host)
    requires ListReservations(entries, q, host).Success?
    ensures var items := ListReservations(entries, q, host).data.value.items;
      forall i :: 0 <= i < |items| ==> ReservationWanted(items[i].doc, q, host)
  {
    var f := ReservationListFilter(q, host);
    var items := ListReservations(entries, q, host).data.value.items;
    ListPageMatches(entries, Some(f), ReservationModel.IdPaths, ReservationModel.Field, q, host);
    forall i | 0 <= i < |items|
      ensures ReservationWanted(items[i].doc, q, host)
    {
      ReservationFilterSelects(items[i].doc, q, host);
    }
  }
}
