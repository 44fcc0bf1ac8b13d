// The listing routes of Backend/routes/properties.js over an in-memory store.
// `GET /` turns the query string into a MongoDB filter document, finds the
// matching listings, joins in the owner's public fields and sorts by
// `createdAt` descending. The other routes read, create, update and delete
// one listing by id.
module ListingRoutes {
  import opened Wrappers
  import opened Text
  import opened PropertySchema

  // ---------------------------------------------------------------------------
  // The query string and the filter built from it

  /** The recognised query parameters. Prices arrive already converted to
      numbers; `None` stands for a parameter that is missing or empty. */
  datatype Query = Query(
    kind: Option<string>, minPrice: Option<int>, maxPrice: Option<int>,
    city: Option<string>, status: Option<string>)

  const NoQuery := Query(None, None, None, None, None)

  function TypeQuery(t: string): Query {
    Query(Some(t), None, None, None, None)
  }

  /** JavaScript truthiness of a query-string value: present and non-empty. */
  predicate Given(s: Option<string>) {
    s.Some? && s.value != ""
  }

  datatype PriceRange = PriceRange(gte: Option<int>, lte: Option<int>)

  /** The MongoDB filter document: `type`, `status`, a case-insensitive
      pattern on `location.city`, and a `price` range. */
  datatype Filter = Filter(
    kind: Option<string>, status: Option<string>, city: Option<string>, price: Option<PriceRange>)

  const Everything := Filter(None, None, None, None)

  function KeepGiven(s: Option<string>): Option<string> {
    if Given(s) then s else None
  }

  /** The filter object built field by field from the query. */
  function BuildFilter(q: Query): (f: Filter)
    ensures f.kind.Some? <==> Given(q.kind)
    ensures f.status.Some? <==> Given(q.status)
    ensures f.city.Some? <==> Given(q.city)
    ensures f.kind.Some? ==> f.kind == q.kind
    ensures f.status.Some? ==> f.status == q.status
    ensures f.city.Some? ==> f.city == q.city
    ensures f.price.Some? <==> q.minPrice.Some? || q.maxPrice.Some?
    ensures f.price.Some? ==> f.price.value.gte == q.minPrice && f.price.value.lte == q.maxPrice
  {
    Filter(
      KeepGiven(q.kind),
      KeepGiven(q.status),
      KeepGiven(q.city),
      if q.minPrice.Some? || q.maxPrice.Some? then Some(PriceRange(q.minPrice, q.maxPrice)) else None)
  }

  /** How MongoDB evaluates the filter document against one stored listing. */
  predicate Satisfies(p: Property, f: Filter) {
    && (f.kind.Some? ==> TypeName(p.kind) == f.kind.value)
    && (f.status.Some? ==> StatusName(p.status) == f.status.value)
    && (f.city.Some? ==> ContainsIgnoreCase(p.location.city, f.city.value))
    && (f.price.Some? ==>
          && (f.price.value.gte.Some? ==> p.price >= f.price.value.gte.value)
          && (f.price.value.lte.Some? ==> p.price <= f.price.value.lte.value))
  }

  /** The listing contract, filter by filter: every supplied filter holds. */
  predicate Matches(p: Property, q: Query) {
    && (Given(q.kind) ==> TypeName(p.kind) == q.kind.value)
    && (Given(q.status) ==> StatusName(p.status) == q.status.value)
    && (Given(q.city) ==> ContainsIgnoreCase(p.location.city, q.city.value))
    && (q.minPrice.Some? ==> p.price >= q.minPrice.value)
    && (q.maxPrice.Some? ==> p.price <= q.maxPrice.value)
  }

  /** The filter document selects exactly the listings the contract describes. */
  lemma FilterMeansMatch(p: Property, q: Query)
    ensures Satisfies(p, BuildFilter(q)) <==> Matches(p, q)
  {
  }

  /** Parameters that are missing or empty impose no constraint. */
  lemma BlankQueryImposesNothing(q: Query)
    requires !Given(q.kind) && !Given(q.status) && !Given(q.city)
    requires q.minPrice.None? && q.maxPrice.None?
    ensures BuildFilter(q) == Everything
    ensures forall p :: Matches(p, q)
  {
  }

  // ---------------------------------------------------------------------------
  // Ordering: `sort({ createdAt: -1 })`

  /** `a` is listed before `b`: it was created later, or at the same time and
      has the smaller id. The sort itself names no second key, so MongoDB may
      return equal timestamps in any order; the model fixes this one. */
  predicate Newer(a: Property, b: Property) {
    a.createdAt > b.createdAt || (a.createdAt == b.createdAt && a.id < b.id)
  }

  predicate NewestFirst(s: seq<Property>) {
    forall i, j :: 0 <= i < j < |s| ==> Newer(s[i], s[j])
  }

  predicate DistinctIds(s: seq<Property>) {
    forall i, j :: 0 <= i < j < |s| ==> s[i].id != s[j].id
  }

  function Insert(p: Property, s: seq<Property>): (r: seq<Property>)
    ensures multiset(r) == multiset(s) + multiset{p}
  {
    if s == [] then [p]
    else if Newer(p, s[0]) then [p] + s
    else
      assert s == [s[0]] + s[1..];
      [s[0]] + Insert(p, s[1..])
  }

  /** Insertion sort, newest first. */
  function SortNewestFirst(s: seq<Property>): (r: seq<Property>)
    ensures multiset(r) == multiset(s)
  {
    if s == [] then []
    else
      assert s == [s[0]] + s[1..];
      Insert(s[0], SortNewestFirst(s[1..]))
  }

  /** Inserting a listing whose id is new into a newest-first sequence keeps
      it newest first. */
  lemma {:induction false} InsertKeepsOrder(p: Property, s: seq<Property>)
    requires NewestFirst(s)
    requires forall x :: x in s ==> x.id != p.id
    ensures NewestFirst(Insert(p, s))
  {
    if s == [] {
    } else if Newer(p, s[0]) {
      forall x | x in s ensures Newer(p, x) {
        var j :| 0 <= j < |s| && s[j] == x;
        if j > 0 {
          assert Newer(s[0], s[j]);
        }
      }
      ConsKeepsOrder(p, s);
    } else {
      var t := Insert(p, s[1..]);
      TailNewestFirst(s);
      InsertKeepsOrder(p, s[1..]);
      assert Newer(s[0], p) by {
        assert s[0] in s;
      }
      forall x | x in t ensures Newer(s[0], x) {
        InsertMember(p, s[1..], x);
        if x != p {
          var j :| 0 <= j < |s[1..]| && s[1..][j] == x;
          assert s[j + 1] == x;
        }
      }
      ConsKeepsOrder(s[0], t);
    }
  }

  /** The tail of a newest-first sequence is newest first. */
  lemma TailNewestFirst(s: seq<Property>)
    requires s != [] && NewestFirst(s)
    ensures NewestFirst(s[1..])
  {
    forall i, j | 0 <= i < j < |s[1..]| ensures Newer(s[1..][i], s[1..][j]) {
      assert s[1..][i] == s[i + 1] && s[1..][j] == s[j + 1];
    }
  }

  /** The members of `Insert(p, s)` are `p` and the members of `s`. */
  lemma InsertMember(p: Property, s: seq<Property>, x: Property)
    ensures x in Insert(p, s) <==> x == p || x in s
  {
    assert x in Insert(p, s) <==> x in multiset(Insert(p, s));
    assert x in s <==> x in multiset(s);
  }

  /** A listing newer than every member of a newest-first sequence can go in front. */
  lemma ConsKeepsOrder(h: Property, t: seq<Property>)
    requires NewestFirst(t)
    requires forall x :: x in t ==> Newer(h, x)
    ensures NewestFirst([h] + t)
  {
    var r := [h] + t;
    forall i, j | 0 <= i < j < |r| ensures Newer(r[i], r[j]) {
      if i > 0 {
        assert r[i] == t[i - 1] && r[j] == t[j - 1];
      } else {
        assert r[j] == t[j - 1];
        assert r[j] in t;
      }
    }
  }

  /** Sorting listings with distinct ids yields them newest first. */
  lemma {:induction false} SortOrders(s: seq<Property>)
    requires DistinctIds(s)
    ensures NewestFirst(SortNewestFirst(s))
  {
    if s != [] {
      var tail := SortNewestFirst(s[1..]);
      assert DistinctIds(s[1..]) by {
        forall i, j | 0 <= i < j < |s[1..]| ensures s[1..][i].id != s[1..][j].id {
          assert s[1..][i] == s[i + 1] && s[1..][j] == s[j + 1];
        }
      }
      SortOrders(s[1..]);
      forall x | x in tail ensures x.id != s[0].id {
        assert x in multiset(tail);
        assert x in s[1..];
        var j :| 0 <= j < |s[1..]| && s[1..][j] == x;
        assert s[j + 1] == x;
      }
      InsertKeepsOrder(s[0], tail);
    }
  }

  // ---------------------------------------------------------------------------
  // Finding the matching listings

  /** Every stored listing sits under its own id. */
  predicate KeyedById(docs: map<nat, Property>) {
    forall k :: k in docs ==> docs[k].id == k
  }

  /** The stored listings with ids below `n` that satisfy `f`, by ascending id. */
  function Candidates(docs: map<nat, Property>, f: Filter, n: nat): (r: seq<Property>)
    requires KeyedById(docs)
    ensures forall x :: x in r <==> x.id < n && x.id in docs && docs[x.id] == x && Satisfies(x, f)
    ensures forall i, j :: 0 <= i < j < |r| ==> r[i].id < r[j].id
  {
    if n == 0 then []
    else
      var prefix := Candidates(docs, f, n - 1);
      var r := prefix + (if n - 1 in docs && Satisfies(docs[n - 1], f) then [docs[n - 1]] else []);
      assert forall i :: 0 <= i < |prefix| ==> prefix[i] in prefix;
      r
  }

  /** The ids of the stored listings below `n` that satisfy `f`. */
  function MatchingIds(docs: map<nat, Property>, f: Filter, n: nat): set<nat> {
    set k | k in docs && k < n && Satisfies(docs[k], f)
  }

  /** `Property.find(filter).sort({ createdAt: -1 })`. */
  function Find(docs: map<nat, Property>, f: Filter, n: nat): (r: seq<Property>)
    requires KeyedById(docs)
    ensures forall x :: x in r <==> x.id < n && x.id in docs && docs[x.id] == x && Satisfies(x, f)
    ensures NewestFirst(r)
  {
    var c := Candidates(docs, f, n);
    SortOrders(c);
    var r := SortNewestFirst(c);
    assert forall x :: x in r <==> x in c by {
      forall x ensures x in r <==> x in c {
        assert x in r <==> x in multiset(r);
        assert x in c <==> x in multiset(c);
      }
    }
    r
  }

  lemma {:induction false} CandidatesCount(docs: map<nat, Property>, f: Filter, n: nat)
    requires KeyedById(docs)
    ensures |Candidates(docs, f, n)| == |MatchingIds(docs, f, n)|
    decreases n
  {
    if n > 0 {
      CandidatesCount(docs, f, n - 1);
      CountStep(docs, f, n);
    }
  }

  /** Raising the bound by one grows the scan and the matching ids alike. */
  lemma CountStep(docs: map<nat, Property>, f: Filter, n: nat)
    requires KeyedById(docs) && n > 0
    ensures |Candidates(docs, f, n)| - |MatchingIds(docs, f, n)|
         == |Candidates(docs, f, n - 1)| - |MatchingIds(docs, f, n - 1)|
  {
    MatchingIdsStep(docs, f, n);
    CandidatesStep(docs, f, n);
  }

  lemma CandidatesStep(docs: map<nat, Property>, f: Filter, n: nat)
    requires KeyedById(docs) && n > 0
    ensures var hit := n - 1 in docs && Satisfies(docs[n - 1], f);
      |Candidates(docs, f, n)| == |Candidates(docs, f, n - 1)| + (if hit then 1 else 0)
  {
  }

  /** Raising the bound by one adds at most the id just below it. */
  lemma MatchingIdsStep(docs: map<nat, Property>, f: Filter, n: nat)
    requires n > 0
    ensures var hit := n - 1 in docs && Satisfies(docs[n - 1], f);
      |MatchingIds(docs, f, n)| == |MatchingIds(docs, f, n - 1)| + (if hit then 1 else 0)
  {
    var before, after := MatchingIds(docs, f, n - 1), MatchingIds(docs, f, n);
    var hit := n - 1 in docs && Satisfies(docs[n - 1], f);
    forall k ensures k in after <==> k in before || (k == n - 1 && hit) {
    }
    if hit {
      assert after == before + {n - 1};
      assert n - 1 !in before;
    } else {
      assert after == before;
    }
  }

  /** The listing holds one entry per matching stored listing, no more. */
  lemma FindCount(docs: map<nat, Property>, f: Filter, n: nat)
    requires KeyedById(docs)
    ensures |Find(docs, f, n)| == |MatchingIds(docs, f, n)|
  {
    CandidatesCount(docs, f, n);
    var c := Candidates(docs, f, n);
    assert |SortNewestFirst(c)| == |multiset(SortNewestFirst(c))| == |multiset(c)| == |c|;
  }

  // ---------------------------------------------------------------------------
  // Owners and responses

  datatype Role = Admin | Member

  /** A `User` document, as far as the listing routes read it. */
  datatype User = User(name: string, email: string, phone: Option<string>, role: Role)

  /** The owner fields joined into a response; `phone` is only selected for a
      single-listing fetch. */
  datatype Owner = Owner(id: UserId, name: string, email: string, phone: Option<string>)

  /** A listing as returned: the document with `createdBy` populated, or
      `None` when the owner no longer exists (populate yields null). */
  datatype Listing = Listing(doc: Property, owner: Option<Owner>)

  /** `populate('createdBy', 'name email')`. */
  function Summary(users: map<UserId, User>, uid: UserId): Option<Owner> {
    if uid in users then Some(Owner(uid, users[uid].name, users[uid].email, None)) else None
  }

  /** `populate('createdBy', 'name email phone')`. */
  function ContactCard(users: map<UserId, User>, uid: UserId): Option<Owner> {
    if uid in users then Some(Owner(uid, users[uid].name, users[uid].email, users[uid].phone)) else None
  }

  function Populate(users: map<UserId, User>, ps: seq<Property>): (r: seq<Listing>)
    ensures |r| == |ps|
    ensures forall i :: 0 <= i < |ps| ==> r[i] == Listing(ps[i], Summary(users, ps[i].createdBy))
  {
    seq(|ps|, i requires 0 <= i < |ps| => Listing(ps[i], Summary(users, ps[i].createdBy)))
  }

  function Docs(r: seq<Listing>): (ps: seq<Property>)
    ensures |ps| == |r| && forall i :: 0 <= i < |r| ==> ps[i] == r[i].doc
  {
    seq(|r|, i requires 0 <= i < |r| => r[i].doc)
  }

  /** The response of `GET /` for query `q` over the listings with ids below `n`:
      exactly the stored listings that match every supplied filter, each once,
      each with its owner's name and email, ordered by `createdAt` descending
      (equal timestamps by ascending id, the model's choice, see `Newer`). */
  function Catalogue(docs: map<nat, Property>, users: map<UserId, User>, n: nat, q: Query): (r: seq<Listing>)
    requires KeyedById(docs)
    ensures forall i :: 0 <= i < |r| ==>
      && r[i].doc.id < n && r[i].doc.id in docs && docs[r[i].doc.id] == r[i].doc
      && Matches(r[i].doc, q) && r[i].owner == Summary(users, r[i].doc.createdBy)
    ensures forall k :: k in docs && k < n && Matches(docs[k], q) ==> docs[k] in Docs(r)
    ensures forall i, j :: 0 <= i < j < |r| ==> Newer(r[i].doc, r[j].doc)
    ensures |r| == |set k | k in docs && k < n && Matches(docs[k], q)|
  {
    var ps := Find(docs, BuildFilter(q), n);
    var r := Populate(users, ps);
    QuerySound(docs, n, q);
    QueryComplete(docs, n, q);
    QueryCount(docs, n, q);
    assert Docs(r) == ps;
    r
  }

  lemma QuerySound(docs: map<nat, Property>, n: nat, q: Query)
    requires KeyedById(docs)
    ensures var ps := Find(docs, BuildFilter(q), n);
      forall i :: 0 <= i < |ps| ==>
        ps[i].id < n && ps[i].id in docs && docs[ps[i].id] == ps[i] && Matches(ps[i], q)
  {
    var ps := Find(docs, BuildFilter(q), n);
    forall i | 0 <= i < |ps|
      ensures ps[i].id < n && ps[i].id in docs && docs[ps[i].id] == ps[i] && Matches(ps[i], q)
    {
      assert ps[i] in ps;
      FilterMeansMatch(ps[i], q);
    }
  }

  lemma QueryComplete(docs: map<nat, Property>, n: nat, q: Query)
    requires KeyedById(docs)
    ensures forall k :: k in docs && k < n && Matches(docs[k], q) ==> docs[k] in Find(docs, BuildFilter(q), n)
  {
    forall k | k in docs && k < n && Matches(docs[k], q)
      ensures docs[k] in Find(docs, BuildFilter(q), n)
    {
      FilterMeansMatch(docs[k], q);
    }
  }

  lemma QueryCount(docs: map<nat, Property>, n: nat, q: Query)
    requires KeyedById(docs)
    ensures |Find(docs, BuildFilter(q), n)| == |set k | k in docs && k < n && Matches(docs[k], q)|
  {
    var f := BuildFilter(q);
    FindCount(docs, f, n);
    forall k ensures k in MatchingIds(docs, f, n) <==> k in docs && k < n && Matches(docs[k], q) {
      if k in docs {
        FilterMeansMatch(docs[k], q);
      }
    }
    assert MatchingIds(docs, f, n) == set k | k in docs && k < n && Matches(docs[k], q);
  }

  /** The request parameter `:id`: a well-formed ObjectId, or text that is not
      one (the cast fails and the handler's catch answers 500). */
  datatype IdParam = ObjectId(key: nat) | Malformed(text: string)

  /** An HTTP answer: a status code with a JSON body, or with `{ message }`. */
  datatype Reply<T> = Ok(code: int, value: T) | Fail(code: int, message: string)

  const NotFound: string := "Property not found"
  const ServerError: string := "Server error"
  const DeletedMessage: string := "Property deleted successfully"

  /** What the `adminAuth` middleware lets through. */
  predicate IsAdmin(users: map<UserId, User>, uid: UserId) {
    uid in users && users[uid].role == Admin
  }

  // ---------------------------------------------------------------------------
  // The store

  /** The `Property` collection with the handlers that read and change it.
      `nextId` stands for ObjectId generation, `clock` for the last value of
      `Date.now()` seen, and `users` for the `User` collection these routes
      only read. */
  class ListingStore {
    var docs: map<nat, Property>
    var nextId: nat
    var clock: int
    const users: map<UserId, User>

    ghost predicate Valid()
      reads this
    {
      forall k :: k in docs ==> docs[k].id == k && k < nextId && WellFormed(docs[k])
    }

    constructor (users: map<UserId, User>, start: int)
      ensures Valid()
      ensures docs == map[] && nextId == 0 && clock == start && this.users == users
    {
      docs := map[];
      nextId := 0;
      clock := start;
      this.users := users;
    }

    /** `GET /`: every stored listing is below `nextId`, so the catalogue
        covers the whole collection. */
    method List(q: Query) returns (r: seq<Listing>)
      requires Valid()
      ensures r == Catalogue(docs, users, nextId, q)
      ensures forall k :: k in docs && Matches(docs[k], q) ==> docs[k] in Docs(r)
    {
      r := Populate(users, Find(docs, BuildFilter(q), nextId));
    }

    /** `GET /type/:type`: the same answer as `GET /` with only `type` set. */
    method ListByType(t: string) returns (r: seq<Listing>)
      requires Valid() && t != ""
      ensures r == Catalogue(docs, users, nextId, TypeQuery(t))
    {
      r := Populate(users, Find(docs, Filter(Some(t), None, None, None), nextId));
    }

    /** `GET /:id`. */
    method Get(id: IdParam) returns (r: Reply<Listing>)
      requires Valid()
      ensures id.Malformed? ==> r == Fail(500, ServerError)
      ensures id.ObjectId? && id.key !in docs ==> r == Fail(404, NotFound)
      ensures id.ObjectId? && id.key in docs ==>
        r == Ok(200, Listing(docs[id.key], ContactCard(users, docs[id.key].createdBy)))
    {
      match id
      case Malformed(_) =>
        r := Fail(500, ServerError);
      case ObjectId(key) =>
        if key in docs {
          r := Ok(200, Listing(docs[key], ContactCard(users, docs[key].createdBy)));
        } else {
          r := Fail(404, NotFound);
        }
    }

    /** `POST /`: the body with `createdBy` set to the caller, validated, saved
        under a fresh id with `updatedAt` set by the save hook. A body that
        fails validation answers 500 and stores nothing. */
    method Create(caller: UserId, body: Draft, now: int) returns (r: Reply<Listing>)
      requires Valid() && IsAdmin(users, caller) && clock <= now
      modifies this
      ensures Valid() && clock == now
      ensures var d := body.(createdBy := Some(caller));
        match Instantiate(d, old(nextId), now)
        case Failure(_) =>
          r == Fail(500, ServerError) && docs == old(docs) && nextId == old(nextId)
        case Success(p) =>
          && r == Ok(201, Listing(Saved(p, now), Summary(users, caller)))
          && old(nextId) !in old(docs)
          && docs == old(docs)[old(nextId) := Saved(p, now)]
          && nextId == old(nextId) + 1
      ensures r.Ok? ==> r.value.doc.createdBy == caller && r.value.doc.updatedAt == now
    {
      var d := body.(createdBy := Some(caller));
      clock := now;
      match Instantiate(d, nextId, now)
      case Failure(_) =>
        r := Fail(500, ServerError);
      case Success(p) =>
        DefaultsApplied(d, nextId, now);
        var saved := Saved(p, now);
        docs := docs[nextId := saved];
        nextId := nextId + 1;
        r := Ok(201, Listing(saved, Summary(users, caller)));
    }

    /** `PUT /:id` with `runValidators`: the update validators run on the
        paths the body names before the document is looked up; a missing id
        then answers 404. The save hook does not run, so `updatedAt` changes
        only if the body sets it. */
    method Update(caller: UserId, id: IdParam, body: Draft) returns (r: Reply<Listing>)
      requires Valid() && IsAdmin(users, caller)
      modifies this`docs
      ensures Valid()
      ensures id.Malformed? || Violations(body, OnUpdate) != [] ==>
        r == Fail(500, ServerError) && docs == old(docs)
      ensures id.ObjectId? && Violations(body, OnUpdate) == [] && id.key !in old(docs) ==>
        r == Fail(404, NotFound) && docs == old(docs)
      ensures id.ObjectId? && Violations(body, OnUpdate) == [] && id.key in old(docs) ==>
        var m := Merge(old(docs)[id.key], body);
        docs == old(docs)[id.key := m] && r == Ok(200, Listing(m, Summary(users, m.createdBy)))
    {
      match id
      case Malformed(_) =>
        r := Fail(500, ServerError);
      case ObjectId(key) =>
        if Violations(body, OnUpdate) != [] {
          r := Fail(500, ServerError);
        } else if key !in docs {
          r := Fail(404, NotFound);
        } else {
          var m := Merge(docs[key], body);
          MergeKeepsWellFormed(docs[key], body);
          docs := docs[key := m];
          r := Ok(200, Listing(m, Summary(users, m.createdBy)));
        }
    }

    /** `DELETE /:id`: removes exactly that listing. */
    method Delete(caller: UserId, id: IdParam) returns (r: Reply<string>)
      requires Valid() && IsAdmin(users, caller)
      modifies this`docs
      ensures Valid()
      ensures id.Malformed? ==> r == Fail(500, ServerError) && docs == old(docs)
      ensures id.ObjectId? && id.key !in old(docs) ==> r == Fail(404, NotFound) && docs == old(docs)
      ensures id.ObjectId? && id.key in old(docs) ==>
        r == Ok(200, DeletedMessage) && docs == old(docs) - {id.key}
    {
      match id
      case Malformed(_) =>
        r := Fail(500, ServerError);
      case ObjectId(key) =>
        if key in docs {
          docs := docs - {key};
          r := Ok(200, DeletedMessage);
        } else {
          r := Fail(404, NotFound);
        }
    }
  }

  /** A client of the store: after a delete, fetching the same id answers 404
      and every other listing is still there, unchanged. */
  method DeleteThenGet(store: ListingStore, caller: UserId, key: nat) returns (r: Reply<Listing>)
    requires store.Valid() && IsAdmin(store.users, caller)
    modifies store
    ensures r == Fail(404, NotFound)
    ensures store.docs == old(store.docs) - {key}
  {
    var _ := store.Delete(caller, ObjectId(key));
    r := store.Get(ObjectId(key));
  }

  /** A client of the store: a listing that was created can be fetched back
      under its new id, owned by the caller. */
  method CreateThenGet(store: ListingStore, caller: UserId, body: Draft, now: int)
    returns (created: Reply<Listing>, fetched: Reply<Listing>)
    requires store.Valid() && IsAdmin(store.users, caller) && store.clock <= now
    modifies store
    ensures created.Ok? ==> fetched.Ok? && fetched.value.doc == created.value.doc
    ensures created.Ok? ==> fetched.value.owner == ContactCard(store.users, caller)
  {
    var id := store.nextId;
    created := store.Create(caller, body, now);
    fetched := store.Get(ObjectId(id));
  }
}
