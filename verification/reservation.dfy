/**
 * The reservation schema: required `hotelId`, `roomId`, `client.nom`,
 * `client.email`, `client.telephone`, `dateArrivee`, `dateDepart`,
 * `prixTotal >= 0`; the `statut` enumeration with default 'en_attente'.
 * Nothing orders `dateDepart` after `dateArrivee`.
 */
module ReservationModel {
  import opened Wrappers
  import opened Js
  import opened Mongo

  datatype Client = Client(nom: Option<string>, email: Option<string>, telephone: Option<string>)

  /** A stored reservation. An update replaces `client` as a whole and runs no validator. */
  datatype Reservation = Reservation(
    hotelId: Id,
    roomId: Id,
    client: Client,
    dateArrivee: int,
    dateDepart: int,
    prixTotal: int,
    statut: string)

  /** The schema paths a request body sets once cast; None is a path left undefined. */
  datatype ReservationFields = ReservationFields(
    hotelId: Option<Id>,
    roomId: Option<Id>,
    client: Option<Client>,
    dateArrivee: Option<int>,
    dateDepart: Option<int>,
    prixTotal: Option<int>,
    statut: Option<string>)

  const Statuts: seq<string> := ["en_attente", "confirmee", "annulee"]
  const DefaultStatut := "en_attente"
  const MinPrixTotal := 0

  /** Casts the nested `client` object path by path. */
  function CastClient(v: Json): (r: Option<Client>)
    ensures r.Some? ==> v.Obj?
  {
    if !v.Obj? then None
    else
      var m := v.fields;
      var nom := CastPath(Get(m, "nom"), CastString);
      var email := CastPath(Get(m, "email"), CastString);
      var telephone := CastPath(Get(m, "telephone"), CastString);
      if nom.Invalid? || email.Invalid? || telephone.Invalid? then None
      else Some(Client(nom.ToOption(), email.ToOption(), telephone.ToOption()))
  }

  /** Every path the body gives casts to its schema type. */
  predicate Castable(body: Body, host: Host) {
    && ("hotelId" in body ==> CastObjectId(body["hotelId"], host).Some?)
    && ("roomId" in body ==> CastObjectId(body["roomId"], host).Some?)
    && ("client" in body ==> CastClient(body["client"]).Some?)
    && ("dateArrivee" in body ==> CastDate(body["dateArrivee"], host).Some?)
    && ("dateDepart" in body ==> CastDate(body["dateDepart"], host).Some?)
    && ("prixTotal" in body ==> CastNumber(body["prixTotal"], host).Some?)
    && ("statut" in body ==> CastString(body["statut"]).Some?)
  }

  /**
   * Casts a request body against the schema: None exactly when some given
   * path cannot be cast; otherwise each path holds the cast of the body's
   * value, or None when the body leaves it out.
   */
  function CastFields(body: Body, host: Host): (r: Option<ReservationFields>)
    ensures r.Some? <==> Castable(body, host)
    ensures r.Some? ==> r.value.hotelId == (if "hotelId" in body then CastObjectId(body["hotelId"], host) else None)
    ensures r.Some? ==> r.value.roomId == (if "roomId" in body then CastObjectId(body["roomId"], host) else None)
    ensures r.Some? ==> r.value.client == (if "client" in body then CastClient(body["client"]) else None)
    ensures r.Some? ==> r.value.dateArrivee == (if "dateArrivee" in body then CastDate(body["dateArrivee"], host) else None)
    ensures r.Some? ==> r.value.dateDepart == (if "dateDepart" in body then CastDate(body["dateDepart"], host) else None)
    ensures r.Some? ==> r.value.prixTotal == (if "prixTotal" in body then CastNumber(body["prixTotal"], host) else None)
    ensures r.Some? ==> r.value.statut == (if "statut" in body then CastString(body["statut"]) else None)
  {
    var hotelId := CastPath(Get(body, "hotelId"), (v: Json) => CastObjectId(v, host));
    var roomId := CastPath(Get(body, "roomId"), (v: Json) => CastObjectId(v, host));
    var client := CastPath(Get(body, "client"), CastClient);
    var dateArrivee := CastPath(Get(body, "dateArrivee"), (v: Json) => CastDate(v, host));
    var dateDepart := CastPath(Get(body, "dateDepart"), (v: Json) => CastDate(v, host));
    var prixTotal := CastPath(Get(body, "prixTotal"), (v: Json) => CastNumber(v, host));
    var statut := CastPath(Get(body, "statut"), CastString);
    if hotelId.Invalid? || roomId.Invalid? || client.Invalid? || dateArrivee.Invalid?
       || dateDepart.Invalid? || prixTotal.Invalid? || statut.Invalid?
    then None
    else Some(ReservationFields(hotelId.ToOption(), roomId.ToOption(), client.ToOption(),
                                dateArrivee.ToOption(), dateDepart.ToOption(),
                                prixTotal.ToOption(), statut.ToOption()))
  }

  /** The one default: `statut = 'en_attente'` where left undefined. */
  function ApplyDefaults(f: ReservationFields): (r: ReservationFields)
    ensures r.statut == Some(f.statut.GetOr(DefaultStatut))
    ensures f.statut.Some? ==> r.statut == f.statut
    ensures r.(statut := f.statut) == f
  {
    f.(statut := Some(f.statut.GetOr(DefaultStatut)))
  }

  /** The schema validators. No rule relates the two dates. */
  predicate Valid(f: ReservationFields) {
    && f.hotelId.Some?
    && f.roomId.Some?
    && f.client.Some?
    && Present(f.client.value.nom)
    && Present(f.client.value.email)
    && Present(f.client.value.telephone)
    && f.dateArrivee.Some?
    && f.dateDepart.Some?
    && f.prixTotal.Some? && f.prixTotal.value >= MinPrixTotal
    && f.statut.Some? && f.statut.value in Statuts
  }

  /** What the schema guarantees of a freshly created reservation. */
  predicate Conforms(r: Reservation) {
    && Present(r.client.nom)
    && Present(r.client.email)
    && Present(r.client.telephone)
    && r.prixTotal >= MinPrixTotal
    && r.statut in Statuts
  }

  /** `Reservation.create(body)` up to the insert; None is the thrown cast or validation error. */
  function Create(body: Body, host: Host): (r: Option<Reservation>)
    ensures r.Some? ==> Conforms(r.value)
    ensures r.Some? ==> ("statut" !in body ==> r.value.statut == DefaultStatut)
    ensures r.Some? ==> ("statut" in body ==> CastString(body["statut"]) == Some(r.value.statut))
    ensures r.Some? ==> "prixTotal" in body && Some(r.value.prixTotal) == CastNumber(body["prixTotal"], host)
    ensures r.Some? ==> "dateArrivee" in body && Some(r.value.dateArrivee) == CastDate(body["dateArrivee"], host)
    ensures r.Some? ==> "dateDepart" in body && Some(r.value.dateDepart) == CastDate(body["dateDepart"], host)
  {
    match CastFields(body, host)
    case None => None
    case Some(f) =>
      var d := ApplyDefaults(f);
      if Valid(d) then
        Some(Reservation(d.hotelId.value, d.roomId.value, d.client.value, d.dateArrivee.value,
                         d.dateDepart.value, d.prixTotal.value, d.statut.value))
      else None
  }

  /**
   * The schema does not order the dates: a body that is accepted stays
   * accepted when its departure is set before its arrival.
   */
  lemma DatesUnordered(body: Body, host: Host)
    requires Create(body, host).Some?
    requires "dateArrivee" in body && body["dateArrivee"].Num?
    ensures var b := body["dateDepart" := Num(body["dateArrivee"].n - 1)];
      && Create(b, host).Some?
      && Create(b, host).value.dateDepart < Create(b, host).value.dateArrivee
  {
    var b := body["dateDepart" := Num(body["dateArrivee"].n - 1)];
    var f := CastFields(body, host).value;
    var g := CastFields(b, host);
    assert g == Some(f.(dateDepart := Some(body["dateArrivee"].n - 1)));
    assert Valid(ApplyDefaults(g.value));
  }

  /** A body whose paths carry values of the schema's types passes when the validators do. */
  lemma CreateAccepts(body: Body, host: Host)
    requires "hotelId" in body && CastObjectId(body["hotelId"], host).Some?
    requires "roomId" in body && CastObjectId(body["roomId"], host).Some?
    requires "client" in body && body["client"].Obj?
    requires var c := body["client"].fields;
      && "nom" in c && c["nom"].Str? && c["nom"].s != ""
      && "email" in c && c["email"].Str? && c["email"].s != ""
      && "telephone" in c && c["telephone"].Str? && c["telephone"].s != ""
    requires "dateArrivee" in body && CastDate(body["dateArrivee"], host).Some?
    requires "dateDepart" in body && CastDate(body["dateDepart"], host).Some?
    requires "prixTotal" in body && body["prixTotal"].Num? && body["prixTotal"].n >= MinPrixTotal
    requires "statut" in body ==> body["statut"].Str? && body["statut"].s in Statuts
    ensures Create(body, host).Some?
    ensures Create(body, host).value.prixTotal == body["prixTotal"].n
    ensures Create(body, host).value.client.email == Some(body["client"].fields["email"].s)
  {
    var f := CastFields(body, host);
    assert CastClient(body["client"]).Some?;
    assert f.Some?;
    assert Valid(ApplyDefaults(f.value));
  }

  /** `findByIdAndUpdate(id, body)`: a `$set` of the cast paths, with no validator and no default. */
  function Merge(r: Reservation, p: ReservationFields): (m: Reservation)
    ensures m.hotelId == (if p.hotelId.Some? then p.hotelId.value else r.hotelId)
    ensures m.roomId == (if p.roomId.Some? then p.roomId.value else r.roomId)
    ensures m.client == (if p.client.Some? then p.client.value else r.client)
    ensures m.dateArrivee == (if p.dateArrivee.Some? then p.dateArrivee.value else r.dateArrivee)
    ensures m.dateDepart == (if p.dateDepart.Some? then p.dateDepart.value else r.dateDepart)
    ensures m.prixTotal == (if p.prixTotal.Some? then p.prixTotal.value else r.prixTotal)
    ensures m.statut == (if p.statut.Some? then p.statut.value else r.statut)
    ensures p == ReservationFields(None, None, None, None, None, None, None) ==> m == r
  {
    Reservation(p.hotelId.GetOr(r.hotelId), p.roomId.GetOr(r.roomId), p.client.GetOr(r.client),
                p.dateArrivee.GetOr(r.dateArrivee), p.dateDepart.GetOr(r.dateDepart),
                p.prixTotal.GetOr(r.prixTotal), p.statut.GetOr(r.statut))
  }

  /** Applying the same update twice is the same as applying it once. */
  lemma MergeIdempotent(r: Reservation, p: ReservationFields)
    ensures Merge(Merge(r, p), p) == Merge(r, p)
  {
  }

  /** An update that sets only paths with values the validators accept keeps a reservation conforming. */
  lemma MergeKeepsConformance(r: Reservation, p: ReservationFields)
    requires Conforms(r)
    requires p.client.Some? ==> var c := p.client.value;
      Present(c.nom) && Present(c.email) && Present(c.telephone)
    requires p.prixTotal.Some? ==> p.prixTotal.value >= MinPrixTotal
    requires p.statut.Some? ==> p.statut.value in Statuts
    ensures Conforms(Merge(r, p))
  {
  }

  /** The value a filter path reads from a stored reservation. */
  function Field(r: Reservation, path: string): (v: Option<Value>)
    ensures path == "statut" ==> v == Some(VStr(r.statut))
    ensures path == "dateArrivee" ==> v == Some(VDate(Some(r.dateArrivee)))
  {
    match path
    case "hotelId" => Some(VId(r.hotelId))
    case "roomId" => Some(VId(r.roomId))
    case "dateArrivee" => Some(VDate(Some(r.dateArrivee)))
    case "dateDepart" => Some(VDate(Some(r.dateDepart)))
    case "prixTotal" => Some(VNum(Some(r.prixTotal)))
    case "statut" => Some(VStr(r.statut))
    case _ => None
  }

  /** The ObjectId paths a reservation filter could name. */
  const IdPaths: set<string> := {"hotelId", "roomId"}
}
