// The dashboard: the five most recent listings and the listing statistics,
// both computed from one `GET /api/properties`, and the delete button that
// refreshes them (Frontend/src/pages/Dashboard.js).
module Dashboard {
  import opened Wrappers
  import opened PropertySchema
  import opened ListingRoutes

  /** How many listings the recent list shows. */
  const RecentCount := 5

  /** `data.slice(0, 5)`: the first five listings, or all of them when fewer. */
  function Recent<T>(s: seq<T>): (r: seq<T>)
    ensures |r| == if |s| < RecentCount then |s| else RecentCount
    ensures r <= s
  {
    if |s| < RecentCount then s else s[..RecentCount]
  }

  /** `data.filter(p => p.status === 'available')`, keeping the order. */
  function AvailableOnes(s: seq<Listing>): (r: seq<Listing>)
    ensures |r| <= |s|
    ensures forall x :: x in r <==> x in s && x.doc.status == Available
    ensures forall x :: multiset(r)[x] == if x.doc.status == Available then multiset(s)[x] else 0
  {
    if s == [] then []
    else
      var rest := AvailableOnes(s[1..]);
      assert forall x :: x in s <==> x == s[0] || x in s[1..];
      assert s == [s[0]] + s[1..];
      if s[0].doc.status == Available then [s[0]] + rest else rest
  }

  /** The listings are strictly in listing order, newest first. */
  predicate InOrder(s: seq<Listing>) {
    forall i, j :: 0 <= i < j < |s| ==> Newer(s[i].doc, s[j].doc)
  }

  /** Filtering keeps the listing order. */
  lemma {:induction false} AvailableOnesInOrder(s: seq<Listing>)
    requires InOrder(s)
    ensures InOrder(AvailableOnes(s))
  {
    if s != [] {
      AvailableOnesInOrder(s[1..]);
      var rest := AvailableOnes(s[1..]);
      forall x | x in rest
        ensures Newer(s[0].doc, x.doc)
      {
        var j :| 0 <= j < |s[1..]| && s[1..][j] == x;
        assert s[j + 1] == x;
      }
    }
  }

  /** The user-count card: 0 for an administrator, `'N/A'` for anyone else. */
  datatype UserCount = Count(n: nat) | NotAvailable

  datatype Stats = Stats(totalProperties: nat, availableProperties: nat, totalUsers: UserCount)

  /** The statistics computed from the fetched listings. */
  function StatsOf(fetched: seq<Listing>, isAdmin: bool): (s: Stats)
    ensures s.totalProperties == |fetched|
    ensures s.availableProperties == |AvailableOnes(fetched)| <= s.totalProperties
    ensures s.totalUsers == if isAdmin then Count(0) else NotAvailable
  {
    Stats(|fetched|, |AvailableOnes(fetched)|, if isAdmin then Count(0) else NotAvailable)
  }

  /** The query `?status=available` of the listings page. */
  const AvailableQuery := Query(None, None, None, None, Some("available"))

  /** Two listing sequences in strict listing order with the same members are
      the same sequence. */
  lemma {:induction false} InOrderUnique(a: seq<Listing>, b: seq<Listing>)
    requires InOrder(a) && InOrder(b)
    requires forall x :: x in a <==> x in b
    ensures a == b
    decreases |a|
  {
    assert b != [] ==> b[0] in b;
    if a != [] {
      assert a[0] in b;
      assert b != [];
      assert b[0] in a;
      assert a[0] == b[0];
      forall x
        ensures x in a[1..] <==> x in b[1..]
      {
        if x in a[1..] {
          var i :| 1 <= i < |a| && a[i] == x;
          assert x != a[0] by { assert Newer(a[0].doc, a[i].doc); }
          assert x in b;
          var j :| 0 <= j < |b| && b[j] == x;
          assert j != 0;
          assert x == b[1..][j - 1];
        }
        if x in b[1..] {
          var j :| 1 <= j < |b| && b[j] == x;
          assert x != b[0] by { assert Newer(b[0].doc, b[j].doc); }
          assert x in a;
          var i :| 0 <= i < |a| && a[i] == x;
          assert i != 0;
          assert x == a[1..][i - 1];
        }
      }
      InOrderUnique(a[1..], b[1..]);
      assert a == [a[0]] + a[1..] && b == [b[0]] + b[1..];
    }
  }

  /** The members of a full listing: every stored listing below `n`, with
      its owner summary. */
  lemma CatalogueMembers(docs: map<nat, Property>, users: map<UserId, User>, n: nat, q: Query, x: Listing)
    requires KeyedById(docs)
    ensures x in Catalogue(docs, users, n, q) <==>
      && x.doc.id in docs && x.doc.id < n && docs[x.doc.id] == x.doc && Matches(x.doc, q)
      && x.owner == Summary(users, x.doc.createdBy)
  {
    var r := Catalogue(docs, users, n, q);
    var k := x.doc.id;
    if k in docs && k < n && docs[k] == x.doc && Matches(x.doc, q) && x.owner == Summary(users, x.doc.createdBy) {
      assert docs[k] in Docs(r);
      var i :| 0 <= i < |r| && Docs(r)[i] == docs[k];
      assert r[i] == x;
    }
  }

  /** The dashboard's available count is the length of the listings page's
      answer to `?status=available`: filtering the full listing for available
      ones gives exactly that answer, in the same order. */
  lemma AvailableAgreesWithStatusQuery(docs: map<nat, Property>, users: map<UserId, User>, n: nat)
    requires KeyedById(docs)
    ensures AvailableOnes(Catalogue(docs, users, n, NoQuery)) == Catalogue(docs, users, n, AvailableQuery)
    ensures StatsOf(Catalogue(docs, users, n, NoQuery), false).availableProperties
      == |Catalogue(docs, users, n, AvailableQuery)|
  {
    var all := Catalogue(docs, users, n, NoQuery);
    var avail := Catalogue(docs, users, n, AvailableQuery);
    AvailableOnesInOrder(all);
    forall x
      ensures x in AvailableOnes(all) <==> x in avail
    {
      CatalogueMembers(docs, users, n, NoQuery, x);
      CatalogueMembers(docs, users, n, AvailableQuery, x);
      assert Matches(x.doc, AvailableQuery) <==> x.doc.status == Available;
    }
    InOrderUnique(AvailableOnes(all), avail);
  }

  /** The recent list holds the newest listings: any stored listing not shown
      in it is older than every one that is. */
  lemma RecentAreNewest(docs: map<nat, Property>, users: map<UserId, User>, n: nat, k: nat)
    requires KeyedById(docs) && k in docs && k < n
    requires docs[k] !in Docs(Recent(Catalogue(docs, users, n, NoQuery)))
    ensures forall x :: x in Recent(Catalogue(docs, users, n, NoQuery)) ==> Newer(x.doc, docs[k])
  {
    var all := Catalogue(docs, users, n, NoQuery);
    assert InOrder(all);
    assert docs[k] in Docs(all);
    var j :| 0 <= j < |all| && Docs(all)[j] == docs[k];
    BeyondRecent(all, j);
  }

  /** In a sequence in listing order, an entry the recent list leaves out is
      older than every entry it shows. */
  lemma BeyondRecent(all: seq<Listing>, j: nat)
    requires InOrder(all) && j < |all| && all[j].doc !in Docs(Recent(all))
    ensures forall x :: x in Recent(all) ==> Newer(x.doc, all[j].doc)
  {
    var recent := Recent(all);
    assert forall i :: 0 <= i < |recent| ==> Docs(recent)[i] == all[i].doc;
    forall x | x in recent
      ensures Newer(x.doc, all[j].doc)
    {
      var i :| 0 <= i < |recent| && recent[i] == x;
      assert all[i] == x;
    }
  }

  /** The dashboard's state. `isAdmin` comes from the signed-in user. */
  class DashboardView {
    var properties: seq<Listing>
    var stats: Stats
    const isAdmin: bool

    constructor(isAdmin: bool)
      ensures properties == [] && stats == Stats(0, 0, Count(0)) && this.isAdmin == isAdmin
    {
      properties := [];
      stats := Stats(0, 0, Count(0));
      this.isAdmin := isAdmin;
    }

    /** `fetchDashboardData`: the recent five and the statistics, both from
        the full listing. */
    method FetchDashboardData(store: ListingStore)
      requires store.Valid()
      modifies this`properties, this`stats
      ensures var all := Catalogue(store.docs, store.users, store.nextId, NoQuery);
        properties == Recent(all) && stats == StatsOf(all, isAdmin)
    {
      var all := store.List(NoQuery);
      properties := Recent(all);
      stats := StatsOf(all, isAdmin);
    }

    /** `handleDeleteProperty`: nothing happens unless the user confirms; a
        confirmed delete is sent, and only a successful one refreshes the
        dashboard from the store as it now is. */
    method HandleDeleteProperty(store: ListingStore, caller: UserId, id: IdParam, confirmed: bool)
      returns (r: Option<Reply<string>>)
      requires store.Valid() && IsAdmin(store.users, caller)
      modifies this`properties, this`stats, store`docs
      ensures store.Valid()
      ensures !confirmed ==>
        r.None? && store.docs == old(store.docs)
        && properties == old(properties) && stats == old(stats)
      ensures confirmed && id.ObjectId? && id.key in old(store.docs) ==>
        && r == Some(Ok(200, DeletedMessage)) && store.docs == old(store.docs) - {id.key}
        && var all := Catalogue(store.docs, store.users, store.nextId, NoQuery);
           properties == Recent(all) && stats == StatsOf(all, isAdmin)
      ensures confirmed && !(id.ObjectId? && id.key in old(store.docs)) ==>
        && r.Some? && r.value.Fail? && store.docs == old(store.docs)
        && properties == old(properties) && stats == old(stats)
    {
      if !confirmed {
        return None;
      }
      var reply := store.Delete(caller, id);
      r := Some(reply);
      if reply.Ok? {
        FetchDashboardData(store);
      }
    }
  }
}
