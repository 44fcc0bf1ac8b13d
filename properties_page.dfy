// The listings page: its five filters, the query parameters built from them,
// and the type badge on each card (Frontend/src/pages/Properties.js).
module PropertiesPage {
  import opened Wrappers
  import opened Text
  import opened PropertySchema

  /** The filter inputs, by their `name`. */
  datatype FilterKey = TypeKey | MinPriceKey | MaxPriceKey | CityKey | StatusKey

  function KeyName(k: FilterKey): string {
    match k
    case TypeKey => "type"
    case MinPriceKey => "minPrice"
    case MaxPriceKey => "maxPrice"
    case CityKey => "city"
    case StatusKey => "status"
  }

  /** The order the keys appear in the `filters` object. */
  const KeyOrder: seq<FilterKey> := [TypeKey, MinPriceKey, MaxPriceKey, CityKey, StatusKey]

  /** A key's place in `KeyOrder`. */
  function Rank(k: FilterKey): (r: nat)
    ensures r < |KeyOrder| && KeyOrder[r] == k
  {
    match k
    case TypeKey => 0
    case MinPriceKey => 1
    case MaxPriceKey => 2
    case CityKey => 3
    case StatusKey => 4
  }

  /** The component's `filters` state. */
  datatype Filters = Filters(kind: string, minPrice: string, maxPrice: string, city: string, status: string)

  function Get(f: Filters, k: FilterKey): string {
    match k
    case TypeKey => f.kind
    case MinPriceKey => f.minPrice
    case MaxPriceKey => f.maxPrice
    case CityKey => f.city
    case StatusKey => f.status
  }

  /** `handleFilterChange`: the named filter takes the new value, the others keep theirs. */
  function Set(f: Filters, k: FilterKey, v: string): (r: Filters)
    ensures Get(r, k) == v
    ensures forall o :: o != k ==> Get(r, o) == Get(f, o)
  {
    match k
    case TypeKey => f.(kind := v)
    case MinPriceKey => f.(minPrice := v)
    case MaxPriceKey => f.(maxPrice := v)
    case CityKey => f.(city := v)
    case StatusKey => f.(status := v)
  }

  /** `clearFilters` and the initial state: every filter blank. */
  function Cleared(): (r: Filters)
    ensures forall k :: Get(r, k) == ""
  {
    Filters("", "", "", "", "")
  }

  /** One `key=value` pair of the request's query string. */
  datatype Param = Param(key: FilterKey, value: string)

  /** The pairs for the first `i` keys of `KeyOrder`: each key whose filter is
      non-empty, in key order. */
  function ParamsBefore(f: Filters, i: nat): seq<Param>
    requires i <= |KeyOrder|
  {
    if i == 0 then []
    else
      var k := KeyOrder[i - 1];
      ParamsBefore(f, i - 1) + (if Get(f, k) != "" then [Param(k, Get(f, k))] else [])
  }

  /** The pairs for the first `i` keys are exactly the non-empty filters whose
      key comes before position `i`. */
  lemma {:induction false} ParamsBeforeMembers(f: Filters, i: nat)
    requires i <= |KeyOrder|
    ensures forall p :: p in ParamsBefore(f, i) <==> Rank(p.key) < i && Get(f, p.key) == p.value && p.value != ""
  {
    if i > 0 {
      ParamsBeforeMembers(f, i - 1);
    }
  }

  /** The pairs come with strictly increasing key positions. */
  predicate InKeyOrder(r: seq<Param>) {
    forall a, b :: 0 <= a < b < |r| ==> Rank(r[a].key) < Rank(r[b].key)
  }

  /** The pairs for the first `i` keys come in key order. */
  lemma {:induction false} ParamsBeforeOrdered(f: Filters, i: nat)
    requires i <= |KeyOrder|
    ensures InKeyOrder(ParamsBefore(f, i))
  {
    if i > 0 {
      var k := KeyOrder[i - 1];
      var init := ParamsBefore(f, i - 1);
      ParamsBeforeOrdered(f, i - 1);
      if Get(f, k) != "" {
        ParamsBeforeMembers(f, i - 1);
        RankAt(i - 1);
        AppendInKeyOrder(init, Param(k, Get(f, k)));
      } else {
        assert ParamsBefore(f, i) == init + [] == init;
      }
    }
  }

  /** A pair whose key comes after every key already present keeps the order. */
  lemma AppendInKeyOrder(init: seq<Param>, x: Param)
    requires InKeyOrder(init) && forall p :: p in init ==> Rank(p.key) < Rank(x.key)
    ensures InKeyOrder(init + [x])
  {
    var r := init + [x];
    forall a, b | 0 <= a < b < |r| ensures Rank(r[a].key) < Rank(r[b].key) {
      assert r[a] == init[a];
      if b == |init| {
        assert r[a] in init;
      } else {
        assert r[b] == init[b];
      }
    }
  }

  /** The query string `fetchProperties` sends: exactly the non-empty filters,
      each once, in the order type, minPrice, maxPrice, city, status. */
  function ParamsOf(f: Filters): (r: seq<Param>)
    ensures forall p :: p in r <==> Get(f, p.key) == p.value && p.value != ""
    ensures InKeyOrder(r)
  {
    ParamsBeforeMembers(f, |KeyOrder|);
    ParamsBeforeOrdered(f, |KeyOrder|);
    ParamsBefore(f, |KeyOrder|)
  }

  /** `fetchProperties`' loop: each key in turn, appending the non-empty ones. */
  method BuildParams(f: Filters) returns (params: seq<Param>)
    ensures params == ParamsOf(f)
  {
    params := [];
    var i := 0;
    while i < |KeyOrder|
      invariant 0 <= i <= |KeyOrder|
      invariant params == ParamsBefore(f, i)
    {
      var k := KeyOrder[i];
      if Get(f, k) != "" {
        params := params + [Param(k, Get(f, k))];
      }
      i := i + 1;
    }
  }

  /** After clearing, the request carries no parameters. */
  lemma ClearedSendsNothing()
    ensures ParamsOf(Cleared()) == []
  {
    NoneBefore(|KeyOrder|);
  }

  lemma {:induction false} NoneBefore(i: nat)
    requires i <= |KeyOrder|
    ensures ParamsBefore(Cleared(), i) == []
  {
    if i > 0 {
      NoneBefore(i - 1);
    }
  }

  /** Setting one filter from a clear state sends exactly that filter. */
  lemma OneFilterSendsOne(k: FilterKey, v: string)
    requires v != ""
    ensures ParamsOf(Set(Cleared(), k, v)) == [Param(k, v)]
  {
    OnlyOneBefore(k, v, |KeyOrder|);
  }

  lemma {:induction false} OnlyOneBefore(k: FilterKey, v: string, i: nat)
    requires v != "" && i <= |KeyOrder|
    ensures ParamsBefore(Set(Cleared(), k, v), i) == if Rank(k) < i then [Param(k, v)] else []
  {
    if i > 0 {
      OnlyOneBefore(k, v, i - 1);
      var g, j := Set(Cleared(), k, v), KeyOrder[i - 1];
      var before := ParamsBefore(g, i - 1);
      RankAt(i - 1);
      if j == k {
        assert Get(g, j) == v;
        assert before == [];
        assert ParamsBefore(g, i) == [] + [Param(k, v)];
      } else {
        assert Get(g, j) == Get(Cleared(), j) == "";
        assert ParamsBefore(g, i) == before + [];
        assert before + [] == before;
      }
    }
  }

  /** `Rank` inverts `KeyOrder`. */
  lemma RankAt(i: nat)
    requires i < |KeyOrder|
    ensures Rank(KeyOrder[i]) == i
  {
  }

  /** The badge colours. */
  datatype Tone = Blue | Purple | Green

  datatype Badge = Badge(caption: string, tone: Tone)

  /** The type badge on a card: none for an empty type; otherwise the type with
      its first letter upper-cased, blue for residential, purple for commercial
      and green otherwise. */
  function TypeBadge(kind: string): (r: Option<Badge>)
    ensures r.None? <==> kind == ""
    ensures r.Some? ==> r.value.caption == Capitalize(kind)
    ensures r.Some? ==> |r.value.caption| == |kind| && Lower(r.value.caption) == Lower(kind)
    ensures r.Some? ==> (r.value.tone == Blue <==> kind == "residential")
    ensures r.Some? ==> (r.value.tone == Purple <==> kind == "commercial")
  {
    if kind == "" then None
    else
      var tone := if kind == "residential" then Blue else if kind == "commercial" then Purple else Green;
      CapitalizeKeepsLower(kind);
      Some(Badge(Capitalize(kind), tone))
  }

  lemma CapitalizeKeepsLower(s: string)
    ensures Lower(Capitalize(s)) == Lower(s)
  {
    if s != [] {
      var c := s[0];
      assert LowerChar(UpperChar(c)) == LowerChar(c);
    }
  }

  /** Every stored listing gets a badge, and the three types get three colours. */
  lemma StoredTypesBadged(t: PropertyType)
    ensures TypeBadge(TypeName(t)).Some?
    ensures TypeBadge(TypeName(t)).value.tone == match t
      case Residential => Blue
      case Commercial => Purple
      case Land => Green
  {
  }

  /** The listings page: the filter state and the parameters of its last request. */
  class PropertiesView {
    var filters: Filters
    var lastParams: seq<Param>

    constructor()
      ensures filters == Cleared() && lastParams == []
    {
      filters := Cleared();
      lastParams := [];
    }

    /** The effect that runs whenever the filters change. */
    method FetchProperties()
      modifies this`lastParams
      ensures lastParams == ParamsOf(filters)
    {
      lastParams := BuildParams(filters);
    }

    method HandleFilterChange(k: FilterKey, v: string)
      modifies this`filters
      ensures filters == Set(old(filters), k, v)
    {
      filters := Set(filters, k, v);
    }

    method ClearFilters()
      modifies this`filters
      ensures filters == Cleared()
    {
      filters := Cleared();
    }

    /** Clearing and then fetching sends a request with no parameters. */
    method ClearThenFetch()
      modifies this
      ensures filters == Cleared() && lastParams == []
    {
      ClearFilters();
      FetchProperties();
      ClearedSendsNothing();
    }
  }
}
