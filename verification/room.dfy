/**
 * The room schema: required `hotelId`, `numero`, `type`, `prixNuit`,
 * `capacite`; the `type` enumeration; `prixNuit >= 0`; `capacite >= 1`; the
 * default `disponible = true`.
 */
module RoomModel {
  import opened Wrappers
  import opened Js
  import opened Mongo

  /** A stored room. Updates run no validator, so only the types are guaranteed. */
  datatype Room = Room(
    hotelId: Id,
    numero: string,
    roomType: string,   // the `type` path
    prixNuit: int,
    disponible: bool,
    capacite: int)

  /** The schema paths a request body sets once cast; None is a path left undefined. */
  datatype RoomFields = RoomFields(
    hotelId: Option<Id>,
    numero: Option<string>,
    roomType: Option<string>,
    prixNuit: Option<int>,
    disponible: Option<bool>,
    capacite: Option<int>)

  const RoomTypes: seq<string> := ["Simple", "Double", "Suite", "Famille"]
  const MinPrixNuit := 0
  const MinCapacite := 1

  /** Every path the body gives casts to its schema type. */
  predicate Castable(body: Body, host: Host) {
    && ("hotelId" in body ==> CastObjectId(body["hotelId"], host).Some?)
    && ("numero" in body ==> CastString(body["numero"]).Some?)
    && ("type" in body ==> CastString(body["type"]).Some?)
    && ("prixNuit" in body ==> CastNumber(body["prixNuit"], host).Some?)
    && ("disponible" in body ==> CastBoolean(body["disponible"]).Some?)
    && ("capacite" in body ==> CastNumber(body["capacite"], host).Some?)
  }

  /**
   * Casts a request body against the schema: None exactly when some given
   * path cannot be cast; otherwise each path holds the cast of the body's
   * value, or None when the body leaves it out.
   */
  function CastFields(body: Body, host: Host): (r: Option<RoomFields>)
    ensures r.Some? <==> Castable(body, host)
    ensures r.Some? ==> r.value.hotelId == (if "hotelId" in body then CastObjectId(body["hotelId"], host) else None)
    ensures r.Some? ==> r.value.numero == (if "numero" in body then CastString(body["numero"]) else None)
    ensures r.Some? ==> r.value.roomType == (if "type" in body then CastString(body["type"]) else None)
    ensures r.Some? ==> r.value.prixNuit == (if "prixNuit" in body then CastNumber(body["prixNuit"], host) else None)
    ensures r.Some? ==> r.value.disponible == (if "disponible" in body then CastBoolean(body["disponible"]) else None)
    ensures r.Some? ==> r.value.capacite == (if "capacite" in body then CastNumber(body["capacite"], host) else None)
  {
    var hotelId := CastPath(Get(body, "hotelId"), (v: Json) => CastObjectId(v, host));
    var numero := CastPath(Get(body, "numero"), CastString);
    var roomType := CastPath(Get(body, "type"), CastString);
    var prixNuit := CastPath(Get(body, "prixNuit"), (v: Json) => CastNumber(v, host));
    var disponible := CastPath(Get(body, "disponible"), CastBoolean);
    var capacite := CastPath(Get(body, "capacite"), (v: Json) => CastNumber(v, host));
    if hotelId.Invalid? || numero.Invalid? || roomType.Invalid? || prixNuit.Invalid?
       || disponible.Invalid? || capacite.Invalid?
    then None
    else Some(RoomFields(hotelId.ToOption(), numero.ToOption(), roomType.ToOption(),
                         prixNuit.ToOption(), disponible.ToOption(), capacite.ToOption()))
  }

  /** The one default: `disponible = true` where left undefined. */
  function ApplyDefaults(f: RoomFields): (r: RoomFields)
    ensures r.disponible == Some(f.disponible.GetOr(true))
    ensures f.disponible == Some(false) ==> r.disponible == Some(false)
    ensures r.(disponible := f.disponible) == f
  {
    f.(disponible := Some(f.disponible.GetOr(true)))
  }

  /** The schema validators: the required paths, the enumeration and the lower bounds. */
  predicate Valid(f: RoomFields) {
    && f.hotelId.Some?
    && f.numero.Some? && f.numero.value != ""
    && f.roomType.Some? && f.roomType.value != "" && f.roomType.value in RoomTypes
    && f.prixNuit.Some? && f.prixNuit.value >= MinPrixNuit
    && f.capacite.Some? && f.capacite.value >= MinCapacite
  }

  /** What the schema guarantees of a freshly created room. */
  predicate Conforms(r: Room) {
    && r.numero != ""
    && r.roomType in RoomTypes
    && r.prixNuit >= MinPrixNuit
    && r.capacite >= MinCapacite
  }

  /** `Room.create(body)` up to the insert; None is the thrown cast or validation error. */
  function Create(body: Body, host: Host): (r: Option<Room>)
    ensures r.Some? ==> Conforms(r.value)
    ensures r.Some? ==> ("disponible" !in body ==> r.value.disponible)
    ensures r.Some? ==> ("disponible" in body ==> CastBoolean(body["disponible"]) == Some(r.value.disponible))
    ensures r.Some? ==> "prixNuit" in body && Some(r.value.prixNuit) == CastNumber(body["prixNuit"], host)
    ensures r.Some? ==> "capacite" in body && Some(r.value.capacite) == CastNumber(body["capacite"], host)
  {
    match CastFields(body, host)
    case None => None
    case Some(f) =>
      var d := ApplyDefaults(f);
      if Valid(d) then
        Some(Room(d.hotelId.value, d.numero.value, d.roomType.value, d.prixNuit.value,
                  d.disponible.value, d.capacite.value))
      else None
  }

  /** A room with `capacite: 0` can never be created: the schema's minimum is 1. */
  lemma ZeroCapacityRefused(body: Body, host: Host)
    requires "capacite" in body && body["capacite"] == Num(0)
    ensures Create(body, host).None?
  {
  }

  /** A body whose paths carry values of the schema's types passes when the validators do. */
  lemma CreateAccepts(body: Body, host: Host)
    requires "hotelId" in body && CastObjectId(body["hotelId"], host).Some?
    requires "numero" in body && body["numero"].Str? && body["numero"].s != ""
    requires "type" in body && body["type"].Str? && body["type"].s in RoomTypes
    requires "prixNuit" in body && body["prixNuit"].Num? && body["prixNuit"].n >= MinPrixNuit
    requires "capacite" in body && body["capacite"].Num? && body["capacite"].n >= MinCapacite
    requires "disponible" in body ==> CastBoolean(body["disponible"]).Some?
    ensures Create(body, host).Some?
    ensures Create(body, host).value.roomType == body["type"].s
  {
    var f := CastFields(body, host);
    assert f.Some?;
    assert f.value.hotelId.Some?;
    assert f.value.numero.Some?;
    assert Valid(ApplyDefaults(f.value));
  }

  /** `findByIdAndUpdate(id, body)`: a `$set` of the cast paths, with no validator and no default. */
  function Merge(r: Room, p: RoomFields): (m: Room)
    ensures m.hotelId == (if p.hotelId.Some? then p.hotelId.value else r.hotelId)
    ensures m.numero == (if p.numero.Some? then p.numero.value else r.numero)
    ensures m.roomType == (if p.roomType.Some? then p.roomType.value else r.roomType)
    ensures m.prixNuit == (if p.prixNuit.Some? then p.prixNuit.value else r.prixNuit)
    ensures m.disponible == (if p.disponible.Some? then p.disponible.value else r.disponible)
    ensures m.capacite == (if p.capacite.Some? then p.capacite.value else r.capacite)
    ensures p == RoomFields(None, None, None, None, None, None) ==> m == r
  {
    Room(p.hotelId.GetOr(r.hotelId), p.numero.GetOr(r.numero), p.roomType.GetOr(r.roomType),
         p.prixNuit.GetOr(r.prixNuit), p.disponible.GetOr(r.disponible), p.capacite.GetOr(r.capacite))
  }

  /** Applying the same update twice is the same as applying it once. */
  lemma MergeIdempotent(r: Room, p: RoomFields)
    ensures Merge(Merge(r, p), p) == Merge(r, p)
  {
  }

  /**
   * An update does not re-run the validators: a conforming room updated
   * with `capacite: 0` is stored with no capacity.
   */
  lemma UpdateSkipsValidators(r: Room, host: Host)
    requires Conforms(r)
    ensures var p := CastFields(map["capacite" := Num(0)], host);
      && p.Some?
      && Merge(r, p.value).capacite == 0
      && !Conforms(Merge(r, p.value))
  {
  }

  /** An update that sets only paths with values the validators accept keeps a room conforming. */
  lemma MergeKeepsConformance(r: Room, p: RoomFields)
    requires Conforms(r)
    requires p.numero.Some? ==> p.numero.value != ""
    requires p.roomType.Some? ==> p.roomType.value in RoomTypes
    requires p.prixNuit.Some? ==> p.prixNuit.value >= MinPrixNuit
    requires p.capacite.Some? ==> p.capacite.value >= MinCapacite
    ensures Conforms(Merge(r, p))
  {
  }

  /** The value a filter path reads from a stored room. */
  function Field(r: Room, path: string): (v: Option<Value>)
    ensures path == "hotelId" ==> v == Some(VId(r.hotelId))
    ensures path == "type" ==> v == Some(VStr(r.roomType))
    ensures path == "disponible" ==> v == Some(VBool(r.disponible))
    ensures path == "prixNuit" ==> v == Some(VNum(Some(r.prixNuit)))
  {
    match path
    case "hotelId" => Some(VId(r.hotelId))
    case "numero" => Some(VStr(r.numero))
    case "type" => Some(VStr(r.roomType))
    case "prixNuit" => Some(VNum(Some(r.prixNuit)))
    case "disponible" => Some(VBool(r.disponible))
    case "capacite" => Some(VNum(Some(r.capacite)))
    case _ => None
  }

  /** `hotelId` is the ObjectId path a room filter can name. */
  const IdPaths: set<string> := {"hotelId"}
}
