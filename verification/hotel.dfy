/**
 * The hotel schema: required paths, the 1..5 star bound, `trim` on `nom`, and
 * the defaults `adresse.pays = 'France'` and `actif = true`.
 */
module HotelModel {
  import opened Wrappers
  import opened Js
  import opened Mongo

  datatype Address = Address(
    rue: Option<string>,
    ville: Option<string>,
    codePostal: Option<string>,
    pays: Option<string>)

  /**
   * A stored hotel. An update replaces `adresse` as a whole and runs no
   * validator, so its parts may be missing and nothing below is guaranteed
   * of a stored hotel except by `Conforms`.
   */
  datatype Hotel = Hotel(
    nom: string,
    adresse: Address,
    telephone: string,
    email: string,
    etoiles: int,
    description: Option<string>,
    actif: bool)

  /** The schema paths a request body sets once cast; None is a path left undefined. */
  datatype HotelFields = HotelFields(
    nom: Option<string>,
    adresse: Option<Address>,
    telephone: Option<string>,
    email: Option<string>,
    etoiles: Option<int>,
    description: Option<string>,
    actif: Option<bool>)

  const DefaultPays := "France"
  const MinEtoiles := 1
  const MaxEtoiles := 5

  /** The characters String.prototype.trim removes: white space and line terminators. */
  predicate IsWhitespace(c: char) {
    c == '\t' || c == '\n' || c == '\U{000B}' || c == '\U{000C}' || c == '\r' || c == ' '
    || c == '\U{00A0}' || c == '\U{1680}' || ('\U{2000}' <= c <= '\U{200A}')
    || c == '\U{2028}' || c == '\U{2029}' || c == '\U{202F}' || c == '\U{205F}'
    || c == '\U{3000}' || c == '\U{FEFF}'
  }

  function TrimStart(s: string): (r: string)
    ensures |r| <= |s| && r == s[|s| - |r|..]
    ensures r == [] || !IsWhitespace(r[0])
  {
    if s != [] && IsWhitespace(s[0]) then TrimStart(s[1..]) else s
  }

  function TrimEnd(s: string): (r: string)
    ensures |r| <= |s| && r == s[..|r|]
    ensures r == [] || !IsWhitespace(r[|r| - 1])
  {
    if s != [] && IsWhitespace(s[|s| - 1]) then TrimEnd(s[..|s| - 1]) else s
  }

  /** Every character of `s` is white space. */
  predicate AllWhitespace(s: string) {
    forall i :: 0 <= i < |s| ==> IsWhitespace(s[i])
  }

  /** Every character that `TrimStart` cuts off is white space. */
  lemma {:induction false} TrimStartDrops(s: string)
    ensures AllWhitespace(s[..|s| - |TrimStart(s)|])
  {
    if s != [] && IsWhitespace(s[0]) {
      TrimStartDrops(s[1..]);
      assert s[..|s| - |TrimStart(s)|] == [s[0]] + s[1..][..|s| - 1 - |TrimStart(s)|];
    }
  }

  /** Every character that `TrimEnd` cuts off is white space. */
  lemma {:induction false} TrimEndDrops(s: string)
    ensures AllWhitespace(s[|TrimEnd(s)|..])
  {
    if s != [] && IsWhitespace(s[|s| - 1]) {
      var p := s[..|s| - 1];
      TrimEndDrops(p);
      assert s[|TrimEnd(s)|..] == p[|TrimEnd(p)|..] + [s[|s| - 1]];
    }
  }

  /** The `trim: true` setter: `s` without leading and trailing white space. */
  function Trim(s: string): string {
    TrimEnd(TrimStart(s))
  }

  /**
   * A trimmed string is the part of the input that starts where `TrimStart`
   * stopped removing characters.
   */
  lemma TrimSlice(s: string)
    ensures var start := |s| - |TrimStart(s)|;
      start + |Trim(s)| <= |s| && Trim(s) == s[start..start + |Trim(s)|]
  {
    var t := TrimStart(s);
    assert Trim(s) == t[..|Trim(s)|];
  }

  /** A trimmed string neither starts nor ends with white space. */
  lemma TrimEdges(s: string)
    ensures Trim(s) == [] || (!IsWhitespace(Trim(s)[0]) && !IsWhitespace(Trim(s)[|Trim(s)| - 1]))
  {
    var t := TrimStart(s);
    if Trim(s) != [] {
      assert Trim(s)[0] == t[0];
    }
  }

  /** Every character that trimming cuts off after the kept part is white space. */
  lemma TrimEndDropsAfter(s: string)
    ensures AllWhitespace(s[|s| - |TrimStart(s)| + |Trim(s)|..])
  {
    var t := TrimStart(s);
    TrimEndDrops(t);
    assert s[|s| - |t| + |Trim(s)|..] == t[|TrimEnd(t)|..];
  }

  /** Trimming a trimmed name changes nothing. */
  lemma TrimIdempotent(s: string)
    ensures Trim(Trim(s)) == Trim(s)
  {
    var r := Trim(s);
    TrimSlice(s);
    TrimEdges(s);
    assert TrimStart(r) == r;
    assert TrimEnd(r) == r;
  }

  /** Mongoose's cast of `nom`: a string, trimmed by the setter. */
  function CastNom(v: Json): Option<string> {
    if v.Str? then Some(Trim(v.s)) else None
  }

  /** Casts the nested `adresse` object path by path. */
  function CastAddress(v: Json): (r: Option<Address>)
    ensures r.Some? ==> v.Obj?
  {
    if !v.Obj? then None
    else
      var m := v.fields;
      var rue := CastPath(Get(m, "rue"), CastString);
      var ville := CastPath(Get(m, "ville"), CastString);
      var codePostal := CastPath(Get(m, "codePostal"), CastString);
      var pays := CastPath(Get(m, "pays"), CastString);
      if rue.Invalid? || ville.Invalid? || codePostal.Invalid? || pays.Invalid? then None
      else Some(Address(rue.ToOption(), ville.ToOption(), codePostal.ToOption(), pays.ToOption()))
  }

  /** Every path the body gives casts to its schema type. */
  predicate Castable(body: Body, host: Host) {
    && ("nom" in body ==> CastNom(body["nom"]).Some?)
    && ("adresse" in body ==> CastAddress(body["adresse"]).Some?)
    && ("telephone" in body ==> CastString(body["telephone"]).Some?)
    && ("email" in body ==> CastString(body["email"]).Some?)
    && ("etoiles" in body ==> CastNumber(body["etoiles"], host).Some?)
    && ("description" in body ==> CastString(body["description"]).Some?)
    && ("actif" in body ==> CastBoolean(body["actif"]).Some?)
  }

  /**
   * Casts a request body against the schema: None exactly when some given
   * path cannot be cast; otherwise each path holds the cast of the body's
   * value, or None when the body leaves it out.
   */
  function CastFields(body: Body, host: Host): (r: Option<HotelFields>)
    ensures r.Some? <==> Castable(body, host)
    ensures r.Some? ==> r.value.nom == (if "nom" in body then CastNom(body["nom"]) else None)
    ensures r.Some? ==> r.value.adresse == (if "adresse" in body then CastAddress(body["adresse"]) else None)
    ensures r.Some? ==> r.value.telephone == (if "telephone" in body then CastString(body["telephone"]) else None)
    ensures r.Some? ==> r.value.email == (if "email" in body then CastString(body["email"]) else None)
    ensures r.Some? ==> r.value.etoiles == (if "etoiles" in body then CastNumber(body["etoiles"], host) else None)
    ensures r.Some? ==> r.value.description == (if "description" in body then CastString(body["description"]) else None)
    ensures r.Some? ==> r.value.actif == (if "actif" in body then CastBoolean(body["actif"]) else None)
  {
    var nom := CastPath(Get(body, "nom"), CastNom);
    var adresse := CastPath(Get(body, "adresse"), CastAddress);
    var telephone := CastPath(Get(body, "telephone"), CastString);
    var email := CastPath(Get(body, "email"), CastString);
    var etoiles := CastPath(Get(body, "etoiles"), (v: Json) => CastNumber(v, host));
    var description := CastPath(Get(body, "description"), CastString);
    var actif := CastPath(Get(body, "actif"), CastBoolean);
    if nom.Invalid? || adresse.Invalid? || telephone.Invalid? || email.Invalid?
       || etoiles.Invalid? || description.Invalid? || actif.Invalid?
    then None
    else Some(HotelFields(nom.ToOption(), adresse.ToOption(), telephone.ToOption(), email.ToOption(),
                          etoiles.ToOption(), description.ToOption(), actif.ToOption()))
  }

  /** The defaults: `adresse.pays = 'France'` and `actif = true` where left undefined. */
  function ApplyDefaults(f: HotelFields): (r: HotelFields)
    ensures r.actif == Some(f.actif.GetOr(true))
    ensures f.actif == Some(false) ==> r.actif == Some(false)
    ensures r.adresse.Some? && r.adresse.value.pays.Some?
    ensures f.adresse.Some? && f.adresse.value.pays.Some? ==> r.adresse == f.adresse
    ensures f.adresse.Some? && f.adresse.value.pays.None?
            ==> r.adresse == Some(f.adresse.value.(pays := Some(DefaultPays)))
    ensures f.adresse.None? ==> r.adresse == Some(Address(None, None, None, Some(DefaultPays)))
    ensures r.(adresse := f.adresse, actif := f.actif) == f
  {
    var a := f.adresse.GetOr(Address(None, None, None, None));
    f.(adresse := Some(a.(pays := Some(a.pays.GetOr(DefaultPays)))),
       actif := Some(f.actif.GetOr(true)))
  }

  /** The schema validators: the required paths and the `etoiles` bounds. */
  predicate Valid(f: HotelFields) {
    && Present(f.nom)
    && f.adresse.Some?
    && Present(f.adresse.value.rue)
    && Present(f.adresse.value.ville)
    && Present(f.adresse.value.codePostal)
    && Present(f.telephone)
    && Present(f.email)
    && f.etoiles.Some?
    && MinEtoiles <= f.etoiles.value <= MaxEtoiles
  }

  /** What the schema guarantees of a freshly created hotel. */
  predicate Conforms(h: Hotel) {
    && h.nom != "" && Trim(h.nom) == h.nom
    && Present(h.adresse.rue)
    && Present(h.adresse.ville)
    && Present(h.adresse.codePostal)
    && h.adresse.pays.Some?
    && h.telephone != ""
    && h.email != ""
    && MinEtoiles <= h.etoiles <= MaxEtoiles
  }

  /**
   * `Hotel.create(body)` up to the insert: cast, apply the defaults, run the
   * validators. None is the thrown cast or validation error.
   */
  function Create(body: Body, host: Host): (r: Option<Hotel>)
    ensures r.Some? ==> Conforms(r.value)
  {
    match CastFields(body, host)
    case None => None
    case Some(f) =>
      var d := ApplyDefaults(f);
      if Valid(d) then
        assert d.nom == f.nom;
        TrimIdempotent(body["nom"].s);
        Some(Hotel(d.nom.value, d.adresse.value, d.telephone.value, d.email.value,
                   d.etoiles.value, d.description, d.actif.value))
      else None
  }

  /** A created hotel keeps the body's stars and email, and takes the defaults where the body is silent. */
  lemma CreateTakesBody(body: Body, host: Host)
    requires Create(body, host).Some?
    ensures var h := Create(body, host).value;
      && Some(h.etoiles) == CastNumber(body["etoiles"], host)
      && Some(h.email) == CastString(body["email"])
      && ("actif" !in body ==> h.actif)
      && ("actif" in body ==> CastBoolean(body["actif"]) == Some(h.actif))
      && var a := body["adresse"].fields;
         && ("pays" !in a ==> h.adresse.pays == Some(DefaultPays))
         && ("pays" in a ==> h.adresse.pays == CastString(a["pays"]))
  {
    var f := CastFields(body, host).value;
    var d := ApplyDefaults(f);
    assert Valid(d);
  }

  /** A body whose paths all carry values of the schema's types passes when the validators do. */
  lemma CreateAccepts(body: Body, host: Host)
    requires "nom" in body && body["nom"].Str? && Trim(body["nom"].s) != ""
    requires "adresse" in body && body["adresse"].Obj?
    requires var a := body["adresse"].fields;
      && "rue" in a && a["rue"].Str? && a["rue"].s != ""
      && "ville" in a && a["ville"].Str? && a["ville"].s != ""
      && "codePostal" in a && a["codePostal"].Str? && a["codePostal"].s != ""
      && ("pays" in a ==> a["pays"].Str?)
    requires "telephone" in body && body["telephone"].Str? && body["telephone"].s != ""
    requires "email" in body && body["email"].Str? && body["email"].s != ""
    requires "etoiles" in body && body["etoiles"].Num? && MinEtoiles <= body["etoiles"].n <= MaxEtoiles
    requires "description" in body ==> body["description"].Str?
    requires "actif" in body ==> CastBoolean(body["actif"]).Some?
    ensures Create(body, host).Some?
    ensures Create(body, host).value.nom == Trim(body["nom"].s)
  {
    var f := CastFields(body, host);
    assert f.Some?;
    assert Valid(ApplyDefaults(f.value));
  }

  /**
   * `findByIdAndUpdate(id, body)`: a `$set` of the cast paths, with no
   * validator and no default. `adresse` is replaced as a whole.
   */
  function Merge(h: Hotel, p: HotelFields): (r: Hotel)
    ensures r.nom == (if p.nom.Some? then p.nom.value else h.nom)
    ensures r.adresse == (if p.adresse.Some? then p.adresse.value else h.adresse)
    ensures r.telephone == (if p.telephone.Some? then p.telephone.value else h.telephone)
    ensures r.email == (if p.email.Some? then p.email.value else h.email)
    ensures r.etoiles == (if p.etoiles.Some? then p.etoiles.value else h.etoiles)
    ensures r.description == (if p.description.Some? then p.description else h.description)
    ensures r.actif == (if p.actif.Some? then p.actif.value else h.actif)
    ensures p == HotelFields(None, None, None, None, None, None, None) ==> r == h
  {
    Hotel(p.nom.GetOr(h.nom), p.adresse.GetOr(h.adresse), p.telephone.GetOr(h.telephone),
          p.email.GetOr(h.email), p.etoiles.GetOr(h.etoiles),
          if p.description.Some? then p.description else h.description,
          p.actif.GetOr(h.actif))
  }

  /** Applying the same update twice is the same as applying it once. */
  lemma MergeIdempotent(h: Hotel, p: HotelFields)
    ensures Merge(Merge(h, p), p) == Merge(h, p)
  {
  }

  /**
   * An update does not re-run the validators: a conforming hotel updated
   * with `etoiles: 9` is stored with nine stars.
   */
  lemma UpdateSkipsValidators(h: Hotel, host: Host)
    requires Conforms(h)
    ensures var p := CastFields(map["etoiles" := Num(9)], host);
      && p.Some?
      && Merge(h, p.value).etoiles == 9
      && !Conforms(Merge(h, p.value))
  {
  }

  /** An update that sets only paths with values the validators accept keeps a hotel conforming. */
  lemma MergeKeepsConformance(h: Hotel, p: HotelFields)
    requires Conforms(h)
    requires p.nom.Some? ==> p.nom.value != "" && Trim(p.nom.value) == p.nom.value
    requires p.adresse.Some? ==> var a := p.adresse.value;
      Present(a.rue) && Present(a.ville) && Present(a.codePostal) && a.pays.Some?
    requires p.telephone.Some? ==> p.telephone.value != ""
    requires p.email.Some? ==> p.email.value != ""
    requires p.etoiles.Some? ==> MinEtoiles <= p.etoiles.value <= MaxEtoiles
    ensures Conforms(Merge(h, p))
  {
    var r := Merge(h, p);
    var nom := if p.nom.Some? then p.nom.value else h.nom;
    assert r.nom == nom && nom != "" && Trim(nom) == nom;
  }

  /** The value a filter path reads from a stored hotel; None when the path is missing. */
  function Field(h: Hotel, path: string): (r: Option<Value>)
    ensures path == "actif" ==> r == Some(VBool(h.actif))
    ensures path == "etoiles" ==> r == Some(VNum(Some(h.etoiles)))
    ensures path == "adresse.ville" ==> (r.Some? <==> h.adresse.ville.Some?)
    ensures path == "adresse.ville" && r.Some? ==> r.value == VStr(h.adresse.ville.value)
  {
    match path
    case "nom" => Some(VStr(h.nom))
    case "adresse.rue" => (match h.adresse.rue case Some(v) => Some(VStr(v)) case None => None)
    case "adresse.ville" => (match h.adresse.ville case Some(v) => Some(VStr(v)) case None => None)
    case "adresse.codePostal" => (match h.adresse.codePostal case Some(v) => Some(VStr(v)) case None => None)
    case "adresse.pays" => (match h.adresse.pays case Some(v) => Some(VStr(v)) case None => None)
    case "telephone" => Some(VStr(h.telephone))
    case "email" => Some(VStr(h.email))
    case "etoiles" => Some(VNum(Some(h.etoiles)))
    case "description" => (match h.description case Some(v) => Some(VStr(v)) case None => None)
    case "actif" => Some(VBool(h.actif))
    case _ => None
  }

  /** The hotel schema has no ObjectId path a filter can name. */
  const IdPaths: set<string> := {}
}
