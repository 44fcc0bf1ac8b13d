// The `Property` document of Backend/models/Property.js: its enumerations, the
// `required` and `enum` validators, the defaults, the `trim` setter on the
// title and the `pre('save')` hook. Validation on create checks every path;
// the update validators (`runValidators` on `findByIdAndUpdate`) check only the
// paths present in the update body.
module PropertySchema {
  import opened Wrappers
  import opened Text

  /** A `User` document's ObjectId. */
  type UserId = nat

  datatype PropertyType = Land | Residential | Commercial
  datatype Status = Available | Sold | Pending

  function TypeName(t: PropertyType): string {
    match t
    case Land => "land"
    case Residential => "residential"
    case Commercial => "commercial"
  }

  function StatusName(s: Status): string {
    match s
    case Available => "available"
    case Sold => "sold"
    case Pending => "pending"
  }

  /** The `enum` validator of `type`: only the three listed names are accepted. */
  function ParseType(s: string): (r: Option<PropertyType>)
    ensures r.Some? ==> TypeName(r.value) == s
    ensures r.None? ==> forall t: PropertyType :: TypeName(t) != s
  {
    if s == "land" then Some(Land)
    else if s == "residential" then Some(Residential)
    else if s == "commercial" then Some(Commercial)
    else None
  }

  /** The `enum` validator of `status`. */
  function ParseStatus(s: string): (r: Option<Status>)
    ensures r.Some? ==> StatusName(r.value) == s
    ensures r.None? ==> forall t: Status :: StatusName(t) != s
  {
    if s == "available" then Some(Available)
    else if s == "sold" then Some(Sold)
    else if s == "pending" then Some(Pending)
    else None
  }

  datatype Location = Location(address: string, city: string, state: string, zipCode: string)
  datatype Features = Features(area: int, bedrooms: int, bathrooms: int, parking: bool, garden: bool)
  datatype Contact = Contact(phone: Option<string>, email: Option<string>)

  /** A stored listing. `id` is the document's `_id`. */
  datatype Property = Property(
    id: nat,
    title: string,
    description: string,
    kind: PropertyType,
    price: int,
    location: Location,
    features: Features,
    images: seq<string>,
    status: Status,
    contactInfo: Contact,
    createdBy: UserId,
    createdAt: int,
    updatedAt: int)

  datatype LocationDraft = LocationDraft(
    address: Option<string>, city: Option<string>, state: Option<string>, zipCode: Option<string>)

  datatype FeaturesDraft = FeaturesDraft(
    area: Option<int>, bedrooms: Option<int>, bathrooms: Option<int>,
    parking: Option<bool>, garden: Option<bool>)

  /** A request body as Mongoose sees it: each schema path is present or absent.
      The same shape serves `new Property(body)` and a `findByIdAndUpdate` body. */
  datatype Draft = Draft(
    title: Option<string>,
    description: Option<string>,
    kind: Option<string>,
    price: Option<int>,
    location: LocationDraft,
    features: FeaturesDraft,
    images: Option<seq<string>>,
    status: Option<string>,
    contactInfo: Contact,
    createdBy: Option<UserId>,
    createdAt: Option<int>,
    updatedAt: Option<int>)

  const NoLocation := LocationDraft(None, None, None, None)
  const NoFeatures := FeaturesDraft(None, None, None, None, None)

  /** A body that names no path at all. */
  const EmptyDraft := Draft(None, None, None, None, NoLocation, NoFeatures, None, None,
                            Contact(None, None), None, None, None)

  /** The schema paths that carry a validator, in declaration order. */
  datatype Path = Title | Description | Kind | Price | Address | City | State | ZipCode
                | Area | StatusPath | CreatedBy

  const SchemaOrder: seq<Path> :=
    [Title, Description, Kind, Price, Address, City, State, ZipCode, Area, StatusPath, CreatedBy]

  /** Validation on `save` checks every path; update validators only the paths in the body. */
  datatype Mode = OnCreate | OnUpdate

  /** Mongoose's `required` check for a String path: set and not the empty string. */
  predicate Filled(s: Option<string>) {
    s.Some? && s.value != ""
  }

  /** The `trim: true` setter of `title`, applied when the value is cast. */
  function CastTitle(t: Option<string>): (r: Option<string>)
    ensures r.Some? <==> t.Some?
    ensures r.Some? ==> Trimmed(r.value) && |r.value| <= |t.value|
  {
    if t.Some? then Some(Trim(t.value)) else None
  }

  /** Path `p` is set in the body. */
  predicate Supplied(d: Draft, p: Path) {
    match p
    case Title => d.title.Some?
    case Description => d.description.Some?
    case Kind => d.kind.Some?
    case Price => d.price.Some?
    case Address => d.location.address.Some?
    case City => d.location.city.Some?
    case State => d.location.state.Some?
    case ZipCode => d.location.zipCode.Some?
    case Area => d.features.area.Some?
    case StatusPath => d.status.Some?
    case CreatedBy => d.createdBy.Some?
  }

  /** The validators of path `p` reject the cast value: `required` for the
      required paths, `enum` for `type` and `status`. `price` and
      `features.area` carry no range check. An absent `status` is filled by
      its default before validation, so it never fails. */
  predicate Rejects(d: Draft, p: Path) {
    match p
    case Title => !Filled(CastTitle(d.title))
    case Description => !Filled(d.description)
    case Kind => d.kind.None? || ParseType(d.kind.value).None?
    case Price => d.price.None?
    case Address => !Filled(d.location.address)
    case City => !Filled(d.location.city)
    case State => !Filled(d.location.state)
    case ZipCode => !Filled(d.location.zipCode)
    case Area => d.features.area.None?
    case StatusPath => d.status.Some? && ParseStatus(d.status.value).None?
    case CreatedBy => d.createdBy.None?
  }

  predicate Fails(d: Draft, p: Path, mode: Mode) {
    (mode == OnUpdate ==> Supplied(d, p)) && Rejects(d, p)
  }

  function FailingPaths(d: Draft, mode: Mode, paths: seq<Path>): (r: seq<Path>)
    ensures forall p :: p in r <==> p in paths && Fails(d, p, mode)
  {
    if paths == [] then []
    else (if Fails(d, paths[0], mode) then [paths[0]] else []) + FailingPaths(d, mode, paths[1..])
  }

  /** The paths a `ValidationError` names. */
  function Violations(d: Draft, mode: Mode): (r: seq<Path>)
    ensures forall p :: p in r <==> Fails(d, p, mode)
    ensures r == [] <==> forall p :: !Fails(d, p, mode)
  {
    var r := FailingPaths(d, mode, SchemaOrder);
    assert forall p :: Fails(d, p, mode) ==> p in r by {
      forall p | Fails(d, p, mode) ensures p in r { InSchemaOrder(p); }
    }
    assert r != [] ==> r[0] in r;
    r
  }

  lemma InSchemaOrder(p: Path)
    ensures p in SchemaOrder
  {
    match p
    case Title => assert SchemaOrder[0] == p;
    case Description => assert SchemaOrder[1] == p;
    case Kind => assert SchemaOrder[2] == p;
    case Price => assert SchemaOrder[3] == p;
    case Address => assert SchemaOrder[4] == p;
    case City => assert SchemaOrder[5] == p;
    case State => assert SchemaOrder[6] == p;
    case ZipCode => assert SchemaOrder[7] == p;
    case Area => assert SchemaOrder[8] == p;
    case StatusPath => assert SchemaOrder[9] == p;
    case CreatedBy => assert SchemaOrder[10] == p;
  }

  /** What the schema guarantees of every document it lets through: the
      required strings are non-empty and the title carries no surrounding
      white space. */
  predicate WellFormed(p: Property) {
    && p.title != "" && Trimmed(p.title)
    && p.description != ""
    && p.location.address != "" && p.location.city != ""
    && p.location.state != "" && p.location.zipCode != ""
  }

  /** `new Property(body)` followed by validation: the setters and defaults are
      applied, and the document exists only when no path fails. `createdAt`
      and `updatedAt` default to the current time `now`. */
  function Instantiate(d: Draft, id: nat, now: int): (r: Result<Property, seq<Path>>)
    ensures r.Failure? <==> Violations(d, OnCreate) != []
    ensures r.Failure? ==> r.error == Violations(d, OnCreate)
    ensures r.Success? ==> WellFormed(r.value) && r.value.id == id
  {
    var errs := Violations(d, OnCreate);
    if errs != [] then Failure(errs)
    else
      Accepted(d);
      Success(Property(
        id,
        Trim(d.title.value),
        d.description.value,
        ParseType(d.kind.value).value,
        d.price.value,
        Location(d.location.address.value, d.location.city.value,
                 d.location.state.value, d.location.zipCode.value),
        Features(d.features.area.value,
                 d.features.bedrooms.GetOr(0), d.features.bathrooms.GetOr(0),
                 d.features.parking.GetOr(false), d.features.garden.GetOr(false)),
        d.images.GetOr([]),
        if d.status.Some? then ParseStatus(d.status.value).value else Available,
        d.contactInfo,
        d.createdBy.value,
        d.createdAt.GetOr(now),
        d.updatedAt.GetOr(now)))
  }

  /** What a body that passes validation on create provides. */
  lemma Accepted(d: Draft)
    requires Violations(d, OnCreate) == []
    ensures d.title.Some? && Trim(d.title.value) != "" 
    ensures Filled(d.description) && d.price.Some? && d.features.area.Some? && d.createdBy.Some?
    ensures d.kind.Some? && ParseType(d.kind.value).Some?
    ensures d.status.Some? ==> ParseStatus(d.status.value).Some?
    ensures Filled(d.location.address) && Filled(d.location.city)
    ensures Filled(d.location.state) && Filled(d.location.zipCode)
  {
    AcceptedText(d);
    AcceptedLocation(d);
    AcceptedRest(d);
  }

  /** A body valid on create has a title that is not blank and a description. */
  lemma AcceptedText(d: Draft)
    requires Violations(d, OnCreate) == []
    ensures d.title.Some? && Trim(d.title.value) != "" && Filled(d.description)
  {
    assert !Fails(d, Title, OnCreate) && !Fails(d, Description, OnCreate);
  }

  /** A body valid on create has every part of the location filled in. */
  lemma AcceptedLocation(d: Draft)
    requires Violations(d, OnCreate) == []
    ensures Filled(d.location.address) && Filled(d.location.city)
    ensures Filled(d.location.state) && Filled(d.location.zipCode)
  {
    assert !Fails(d, Address, OnCreate) && !Fails(d, City, OnCreate);
    assert !Fails(d, State, OnCreate) && !Fails(d, ZipCode, OnCreate);
  }

  /** A body valid on create has a known type, a price, an area and a creator,
      and a known status if it gives one. */
  lemma AcceptedRest(d: Draft)
    requires Violations(d, OnCreate) == []
    ensures d.price.Some? && d.features.area.Some? && d.createdBy.Some?
    ensures d.kind.Some? && ParseType(d.kind.value).Some?
    ensures d.status.Some? ==> ParseStatus(d.status.value).Some?
  {
    assert !Fails(d, Kind, OnCreate) && !Fails(d, Price, OnCreate);
    assert !Fails(d, Area, OnCreate) && !Fails(d, StatusPath, OnCreate) && !Fails(d, CreatedBy, OnCreate);
  }

  /** The `pre('save')` hook: `updatedAt` becomes the current time and nothing
      else changes. */
  function Saved(p: Property, now: int): (r: Property)
    ensures r.updatedAt == now
    ensures r.(updatedAt := p.updatedAt) == p
    ensures p.createdAt <= now ==> r.createdAt <= r.updatedAt
  {
    p.(updatedAt := now)
  }

  function Pick<T>(o: Option<T>, old_: T): T {
    if o.Some? then o.value else old_
  }

  /** `findByIdAndUpdate(id, body)`: every path present in the body replaces the
      stored value (after the title setter), every absent path is kept. */
  function Merge(p: Property, d: Draft): (r: Property)
    requires Violations(d, OnUpdate) == []
    ensures r.id == p.id
  {
    assert !Fails(d, Kind, OnUpdate) && !Fails(d, StatusPath, OnUpdate);
    Property(
      p.id,
      if d.title.Some? then Trim(d.title.value) else p.title,
      Pick(d.description, p.description),
      if d.kind.Some? then ParseType(d.kind.value).value else p.kind,
      Pick(d.price, p.price),
      Location(Pick(d.location.address, p.location.address), Pick(d.location.city, p.location.city),
               Pick(d.location.state, p.location.state), Pick(d.location.zipCode, p.location.zipCode)),
      Features(Pick(d.features.area, p.features.area),
               Pick(d.features.bedrooms, p.features.bedrooms),
               Pick(d.features.bathrooms, p.features.bathrooms),
               Pick(d.features.parking, p.features.parking),
               Pick(d.features.garden, p.features.garden)),
      Pick(d.images, p.images),
      if d.status.Some? then ParseStatus(d.status.value).value else p.status,
      Contact(if d.contactInfo.phone.Some? then d.contactInfo.phone else p.contactInfo.phone,
              if d.contactInfo.email.Some? then d.contactInfo.email else p.contactInfo.email),
      Pick(d.createdBy, p.createdBy),
      Pick(d.createdAt, p.createdAt),
      Pick(d.updatedAt, p.updatedAt))
  }

  /** A stored document read back as a body that names every path. */
  function AsDraft(p: Property): Draft {
    Draft(Some(p.title), Some(p.description), Some(TypeName(p.kind)), Some(p.price),
          LocationDraft(Some(p.location.address), Some(p.location.city),
                        Some(p.location.state), Some(p.location.zipCode)),
          FeaturesDraft(Some(p.features.area), Some(p.features.bedrooms), Some(p.features.bathrooms),
                        Some(p.features.parking), Some(p.features.garden)),
          Some(p.images), Some(StatusName(p.status)), p.contactInfo,
          Some(p.createdBy), Some(p.createdAt), Some(p.updatedAt))
  }

  /** Every required path that the body leaves out fails validation, and the
      document is not created: title, description, type, price, the four
      location fields, features.area and createdBy. */
  lemma MissingRequiredRejected(d: Draft, p: Path, id: nat, now: int)
    requires p != StatusPath && !Supplied(d, p)
    ensures p in Violations(d, OnCreate)
    ensures Instantiate(d, id, now) == Failure(Violations(d, OnCreate))
  {
    assert Fails(d, p, OnCreate);
  }

  /** A `type` outside land/residential/commercial, or a `status` outside
      available/sold/pending, fails its `enum` validator, on create and on update. */
  lemma EnumsEnforced(d: Draft, mode: Mode)
    ensures d.kind.Some? && (forall t :: TypeName(t) != d.kind.value) ==> Kind in Violations(d, mode)
    ensures d.status.Some? && (forall t :: StatusName(t) != d.status.value) ==> StatusPath in Violations(d, mode)
  {
    if d.kind.Some? && (forall t :: TypeName(t) != d.kind.value) {
      assert Fails(d, Kind, mode);
    }
    if d.status.Some? && (forall t :: StatusName(t) != d.status.value) {
      assert Fails(d, StatusPath, mode);
    }
  }

  /** The document built from an accepted body takes every supplied value
      (the title trimmed) and the schema defaults for the rest: status
      available, no bedrooms or bathrooms, no parking or garden, no images,
      and the current time for both timestamps. */
  lemma DefaultsApplied(d: Draft, id: nat, now: int)
    requires Instantiate(d, id, now).Success?
    ensures var p := Instantiate(d, id, now).value;
      && p.title == Trim(d.title.value)
      && Some(p.description) == d.description && Some(TypeName(p.kind)) == d.kind
      && Some(p.price) == d.price && Some(p.features.area) == d.features.area
      && Some(p.location.address) == d.location.address && Some(p.location.city) == d.location.city
      && Some(p.location.state) == d.location.state && Some(p.location.zipCode) == d.location.zipCode
      && p.contactInfo == d.contactInfo && Some(p.createdBy) == d.createdBy
      && (d.status.None? ==> p.status == Available)
      && (d.status.Some? ==> Some(StatusName(p.status)) == d.status)
      && p.features.bedrooms == d.features.bedrooms.GetOr(0)
      && p.features.bathrooms == d.features.bathrooms.GetOr(0)
      && p.features.parking == d.features.parking.GetOr(false)
      && p.features.garden == d.features.garden.GetOr(false)
      && p.images == d.images.GetOr([])
      && p.createdAt == d.createdAt.GetOr(now) && p.updatedAt == d.updatedAt.GetOr(now)
  {
    Accepted(d);
  }

  /** Bodies on which every path fails or passes alike get the same verdict. */
  lemma {:induction false} SameVerdicts(d: Draft, e: Draft, mode: Mode, paths: seq<Path>)
    requires forall p :: Fails(d, p, mode) == Fails(e, p, mode)
    ensures FailingPaths(d, mode, paths) == FailingPaths(e, mode, paths)
  {
    if paths != [] {
      SameVerdicts(d, e, mode, paths[1..]);
    }
  }

  /** Validation puts no range on `price` or `features.area`: whatever numbers
      the body carries, the verdict is the one for a price and area of 0. */
  lemma NumbersUnconstrained(d: Draft, price: int, area: int, mode: Mode)
    ensures Violations(d.(price := Some(price), features := d.features.(area := Some(area))), mode)
         == Violations(d.(price := Some(0), features := d.features.(area := Some(0))), mode)
  {
    var e1 := d.(price := Some(price), features := d.features.(area := Some(area)));
    var e2 := d.(price := Some(0), features := d.features.(area := Some(0)));
    assert forall p :: Fails(e1, p, mode) == Fails(e2, p, mode);
    SameVerdicts(e1, e2, mode, SchemaOrder);
  }

  /** A well-formed stored document, re-submitted with every path, is
      accepted and rebuilt exactly. */
  lemma StoredRoundTrip(p: Property, now: int)
    requires WellFormed(p)
    ensures Instantiate(AsDraft(p), p.id, now) == Success(p)
  {
    var d := AsDraft(p);
    TrimFixes(p.title);
    assert ParseType(TypeName(p.kind)) == Some(p.kind) by { match p.kind case Land => case Residential => case Commercial => }
    assert ParseStatus(StatusName(p.status)) == Some(p.status) by { match p.status case Available => case Sold => case Pending => }
    forall q: Path ensures !Fails(d, q, OnCreate) {
      match q
      case Title => TrimFixes(p.title);
      case _ =>
    }
  }

  /** An update whose paths pass the update validators keeps a well-formed
      document well-formed. */
  lemma MergeKeepsWellFormed(p: Property, d: Draft)
    requires WellFormed(p) && Violations(d, OnUpdate) == []
    ensures WellFormed(Merge(p, d))
  {
    MergedTitle(p, d);
    MergedText(p, d);
  }

  lemma MergedTitle(p: Property, d: Draft)
    requires WellFormed(p) && Violations(d, OnUpdate) == []
    ensures var m := Merge(p, d); m.title != "" && Trimmed(m.title)
  {
    if d.title.Some? {
      assert !Fails(d, Title, OnUpdate);
    }
  }

  lemma MergedText(p: Property, d: Draft)
    requires WellFormed(p) && Violations(d, OnUpdate) == []
    ensures var m := Merge(p, d);
      && m.description != "" && m.location.address != "" && m.location.city != ""
      && m.location.state != "" && m.location.zipCode != ""
  {
    assert !Fails(d, Description, OnUpdate);
    assert !Fails(d, Address, OnUpdate) && !Fails(d, City, OnUpdate);
    assert !Fails(d, State, OnUpdate) && !Fails(d, ZipCode, OnUpdate);
  }

  /** An update body that names no path leaves the document as it was. */
  lemma EmptyUpdateKeeps(p: Property)
    ensures Violations(EmptyDraft, OnUpdate) == []
    ensures Merge(p, EmptyDraft) == p
  {
    EmptyUpdatePasses();
  }

  /** An update body that names no path passes the update validators. */
  lemma EmptyUpdatePasses()
    ensures Violations(EmptyDraft, OnUpdate) == []
  {
    forall q: Path ensures !Fails(EmptyDraft, q, OnUpdate) {
    }
  }

  /** Updating with a well-formed document's every path replaces the stored
      document by that one, except for the id and a contact field the new
      document leaves unset. */
  lemma FullUpdateReplaces(p: Property, q: Property)
    requires WellFormed(q)
    ensures Violations(AsDraft(q), OnUpdate) == []
    ensures var m := Merge(p, AsDraft(q));
      && m.(contactInfo := q.contactInfo) == q.(id := p.id)
      && (q.contactInfo.phone.Some? ==> m.contactInfo.phone == q.contactInfo.phone)
      && (q.contactInfo.email.Some? ==> m.contactInfo.email == q.contactInfo.email)
  {
    var d := AsDraft(q);
    TrimFixes(q.title);
    assert ParseType(TypeName(q.kind)) == Some(q.kind) by { match q.kind case Land => case Residential => case Commercial => }
    assert ParseStatus(StatusName(q.status)) == Some(q.status) by { match q.status case Available => case Sold => case Pending => }
    forall x: Path ensures !Fails(d, x, OnUpdate) {
    }
  }

  /** A body that names only `price` changes only the price; in particular it
      leaves `updatedAt` as it was, since the update does not run the hook. */
  lemma PriceOnlyUpdate(p: Property, price: int)
    ensures Violations(EmptyDraft.(price := Some(price)), OnUpdate) == []
    ensures Merge(p, EmptyDraft.(price := Some(price))) == p.(price := price)
  {
    var d := EmptyDraft.(price := Some(price));
    forall q: Path ensures !Fails(d, q, OnUpdate) {
    }
  }
}
