// Worked queries over the sample data of Backend/seed.js: two users and five
// listings saved one after another, so the later ones carry later timestamps.
// Each description is cut to its first sentence and each listing keeps its
// first image; neither field takes part in any query below.
module ListingScenarios {
  import opened Wrappers
  import opened PropertySchema
  import opened ListingRoutes

  const AdminId: UserId := 0
  const MemberId: UserId := 1

  const SeedUsers: map<UserId, User> := map[
    AdminId := User("Admin User", "admin@brocker.com", Some("+1234567890"), Admin),
    MemberId := User("John Doe", "user@brocker.com", Some("+1987654321"), Member)]

  /** One sample listing, created by the administrator and saved at time `id + 1`. */
  function SeedDoc(id: nat, title: string, description: string, kind: PropertyType, price: int,
                   location: Location, features: Features, images: seq<string>): Property
  {
    Property(id, title, description, kind, price, location, features, images, Available,
      Contact(Some("+1234567890"), Some("admin@brocker.com")), AdminId, id + 1, id + 1)
  }

  const Villa := SeedDoc(0, "Beautiful Residential Villa",
    "A stunning 4-bedroom villa with modern amenities, located in a prime residential area.", Residential, 750000,
    Location("789 Luxury Lane", "Beverly Hills", "CA", "90210"),
    Features(3500, 4, 3, true, true),
    ["https://images.unsplash.com/photo-1564013799919-ab600027ffc6?w=800"])

  const Office := SeedDoc(1, "Commercial Office Space",
    "Prime commercial office space in downtown area.", Commercial, 1200000,
    Location("321 Business Blvd", "Los Angeles", "CA", "90001"),
    Features(5000, 0, 2, true, false),
    ["https://images.unsplash.com/photo-1497366216548-37526070297c?w=800"])

  const Plot := SeedDoc(2, "Large Land Plot for Development",
    "Spacious land plot perfect for residential or commercial development.", Land, 450000,
    Location("555 Development Drive", "San Diego", "CA", "92101"),
    Features(10000, 0, 0, false, false),
    ["https://images.unsplash.com/photo-1500382017468-9049fed747ef?w=800"])

  const Home := SeedDoc(3, "Cozy Family Home",
    "Perfect family home with 3 bedrooms, modern kitchen, and beautiful backyard.", Residential, 550000,
    Location("123 Family Street", "Irvine", "CA", "92602"),
    Features(2200, 3, 2, true, true),
    ["https://images.unsplash.com/photo-1568605114967-8130f3a36994?w=800"])

  const Retail := SeedDoc(4, "Retail Space in Shopping Center",
    "High-traffic retail space in popular shopping center.", Commercial, 850000,
    Location("777 Shopping Center Way", "Anaheim", "CA", "92801"),
    Features(3000, 0, 1, true, false),
    ["https://images.unsplash.com/photo-1441986300917-64674bd600d8?w=800"])

  /** The listings in the order the script saves them; each one's id is its position. */
  const SeedList: seq<Property> := [Villa, Office, Plot, Home, Retail]

  const SeedDocs: map<nat, Property> := map i | 0 <= i < |SeedList| :: SeedList[i]

  /** The sample collection holds ids 0 to 4, one listing each. */
  lemma SeedEntries()
    ensures SeedDocs.Keys == {0, 1, 2, 3, 4}
    ensures SeedDocs[0] == Villa && SeedDocs[1] == Office && SeedDocs[2] == Plot
    ensures SeedDocs[3] == Home && SeedDocs[4] == Retail
  {
    forall k ensures k in SeedDocs <==> k in {0, 1, 2, 3, 4} {
    }
  }

  lemma SeedKeyed()
    ensures KeyedById(SeedDocs)
  {
    SeedEntries();
  }

  /** A query matching exactly two stored listings lists the newer one first. */
  lemma CatalogueOfTwo(docs: map<nat, Property>, users: map<UserId, User>, n: nat, q: Query, a: nat, b: nat)
    requires KeyedById(docs) && a in docs && b in docs && a != b && Newer(docs[a], docs[b])
    requires (set k | k in docs && k < n && Matches(docs[k], q)) == {a, b}
    ensures Docs(Catalogue(docs, users, n, q)) == [docs[a], docs[b]]
  {
    var r := Catalogue(docs, users, n, q);
    assert |r| == 2 by {
      assert |{a, b}| == 2;
    }
    EntryOf(docs, users, n, q, 0, a, b);
    EntryOf(docs, users, n, q, 1, a, b);
    TwoInOrder(r, docs, a, b);
  }

  /** Two listings, stored under `a` and `b` and listed newer first, are the
      listing under `a` followed by the one under `b`. */
  lemma TwoInOrder(r: seq<Listing>, docs: map<nat, Property>, a: nat, b: nat)
    requires a in docs && b in docs && Newer(docs[a], docs[b])
    requires |r| == 2 && Newer(r[0].doc, r[1].doc)
    requires (r[0].doc.id == a || r[0].doc.id == b) && r[0].doc.id in docs && docs[r[0].doc.id] == r[0].doc
    requires (r[1].doc.id == a || r[1].doc.id == b) && r[1].doc.id in docs && docs[r[1].doc.id] == r[1].doc
    ensures Docs(r) == [docs[a], docs[b]]
  {
    assert Docs(r) == [r[0].doc, r[1].doc];
  }

  /** The `i`-th listing of a catalogue whose matching ids are `a` and `b` is
      stored under one of them. */
  lemma EntryOf(docs: map<nat, Property>, users: map<UserId, User>, n: nat, q: Query, i: nat, a: nat, b: nat)
    requires KeyedById(docs) && i < |Catalogue(docs, users, n, q)|
    requires (set k | k in docs && k < n && Matches(docs[k], q)) == {a, b}
    ensures var x := Catalogue(docs, users, n, q)[i].doc;
      (x.id == a || x.id == b) && x.id in docs && docs[x.id] == x
  {
    var x := Catalogue(docs, users, n, q)[i].doc;
    OneOfPair(docs, n, q, a, b, x.id);
  }

  /** A matching id below the bound is one of the two matching ids. */
  lemma OneOfPair(docs: map<nat, Property>, n: nat, q: Query, a: nat, b: nat, k: nat)
    requires (set j | j in docs && j < n && Matches(docs[j], q)) == {a, b}
    requires k in docs && k < n && Matches(docs[k], q)
    ensures k == a || k == b
  {
    var s := set j | j in docs && j < n && Matches(docs[j], q);
    assert k in s;
    assert k in {a, b};
  }

  /** A query matching exactly one stored listing lists just that one. */
  lemma CatalogueOfOne(docs: map<nat, Property>, users: map<UserId, User>, n: nat, q: Query, a: nat)
    requires KeyedById(docs) && a in docs
    requires forall k :: k in docs && k < n ==> (Matches(docs[k], q) <==> k == a)
    requires a < n && Matches(docs[a], q)
    ensures Docs(Catalogue(docs, users, n, q)) == [docs[a]]
  {
    assert (set k | k in docs && k < n && Matches(docs[k], q)) == {a};
    var r := Catalogue(docs, users, n, q);
    assert |r| == 1;
    assert r[0].doc.id in {a};
    assert Docs(r) == [r[0].doc];
  }

  const ResidentialQuery := Query(Some("residential"), Some(500000), None, None, None)
  const BeverlyQuery := Query(None, None, None, Some("beverly"), None)

  lemma ResidentialMatches()
    ensures (set k | k in SeedDocs && k < 5 && Matches(SeedDocs[k], ResidentialQuery)) == {0, 3}
  {
    assert Matches(Villa, ResidentialQuery) && Matches(Home, ResidentialQuery);
    assert !Matches(Office, ResidentialQuery) && !Matches(Plot, ResidentialQuery);
    assert !Matches(Retail, ResidentialQuery);
    SeedEntries();
  }

  lemma BeverlyMatches()
    ensures forall k :: k in SeedDocs && k < 5 ==> (Matches(SeedDocs[k], BeverlyQuery) <==> k == 0)
  {
    SeedEntries();
    forall k | k in SeedDocs && k < 5
      ensures Matches(SeedDocs[k], BeverlyQuery) <==> k == 0
    {
      if k == 0 {
        VillaInBeverly();
      } else if k == 1 {
        OfficeNotInBeverly();
      } else if k == 2 {
        PlotNotInBeverly();
      } else if k == 3 {
        HomeNotInBeverly();
      } else {
        RetailNotInBeverly();
      }
    }
  }

  lemma VillaInBeverly()
    ensures Matches(Villa, BeverlyQuery)
  {
    assert "Beverly" <= "Beverly Hills";
    Text.LowerPrefix("Beverly", "Beverly Hills");
    assert Text.Lower("Beverly") == "beverly";
    assert Text.Lower("beverly") == "beverly";
  }

  lemma OfficeNotInBeverly()
    ensures !Matches(Office, BeverlyQuery)
  {
    NoBeverly("Los Angeles");
  }

  lemma PlotNotInBeverly()
    ensures !Matches(Plot, BeverlyQuery)
  {
    NoBeverly("San Diego");
  }

  lemma HomeNotInBeverly()
    ensures !Matches(Home, BeverlyQuery)
  {
    NoBeverly("Irvine");
  }

  lemma RetailNotInBeverly()
    ensures !Matches(Retail, BeverlyQuery)
  {
    NoBeverly("Anaheim");
  }

  /** A city with no `b` in it cannot contain `beverly`. */
  lemma NoBeverly(city: string)
    requires 'b' !in city && 'B' !in city
    ensures !Text.ContainsIgnoreCase(city, "beverly")
  {
    var low := Text.Lower(city);
    assert Text.Lower("beverly") == "beverly";
    Text.IsInfixAt("beverly", low);
    forall i | 0 <= i <= |low|
      ensures !("beverly" <= low[i..])
    {
      if i < |low| {
        assert city[i] in city;
        assert low[i..][0] == low[i] == Text.LowerChar(city[i]) != 'b';
      }
    }
  }

  /** `?type=residential&minPrice=500000` lists the family home (newer) and then the villa. */
  lemma ResidentialOverHalfMillion()
    ensures KeyedById(SeedDocs)
    ensures Docs(Catalogue(SeedDocs, SeedUsers, 5, ResidentialQuery)) == [Home, Villa]
  {
    SeedKeyed();
    SeedEntries();
    ResidentialMatches();
    CatalogueOfTwo(SeedDocs, SeedUsers, 5, ResidentialQuery, 3, 0);
  }

  /** `?city=beverly` finds the listing in Beverly Hills: the city filter ignores case. */
  lemma CityIgnoresCase()
    ensures KeyedById(SeedDocs)
    ensures Docs(Catalogue(SeedDocs, SeedUsers, 5, BeverlyQuery)) == [Villa]
  {
    SeedKeyed();
    SeedEntries();
    BeverlyMatches();
    CatalogueOfOne(SeedDocs, SeedUsers, 5, BeverlyQuery, 0);
  }
}
