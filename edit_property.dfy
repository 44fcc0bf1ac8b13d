// The edit-property page: the form state loaded from a stored listing and the
// handlers that edit it (Frontend/src/pages/EditProperty.js).
module EditProperty {
  import opened Wrappers
  import opened Text
  import opened PropertySchema

  /** A form value: what an input or a list in the form state holds. */
  datatype Value = Str(text: string) | Num(n: int) | Flag(b: bool) | Strs(items: seq<string>)

  /** A top-level form field: a plain value, or a nested object such as `location`. */
  datatype Entry = Leaf(v: Value) | Group(fields: map<string, Value>)

  /** The component's `formData` object, keyed by field name. */
  type Form = map<string, Entry>

  /** The top-level fields of the form. */
  const FormKeys: set<string> :=
    {"title", "description", "type", "price", "status", "location", "features", "images"}

  /** The form the page starts with, before the listing is fetched. */
  function InitialForm(): (f: Form)
    ensures Shaped(f) && Images(f) == [] && Amenities(f) == []
    ensures f.Keys == FormKeys
  {
    map[
      "title" := Leaf(Str("")),
      "description" := Leaf(Str("")),
      "type" := Leaf(Str("residential")),
      "price" := Leaf(Str("")),
      "status" := Leaf(Str("available")),
      "location" := Group(map[
        "address" := Str(""), "city" := Str(""), "state" := Str(""), "zipCode" := Str("")]),
      "features" := Group(map[
        "area" := Str(""), "bedrooms" := Str(""), "bathrooms" := Str(""),
        "parking" := Flag(false), "garden" := Flag(false), "amenities" := Strs([])]),
      "images" := Leaf(Strs([]))
    ]
  }

  /** The two lists the handlers extend and shrink are where they expect them:
      `images` at the top and `features.amenities` inside `features`. */
  predicate Shaped(f: Form) {
    && "images" in f && f["images"].Leaf? && f["images"].v.Strs?
    && "features" in f && f["features"].Group?
    && "amenities" in f["features"].fields && f["features"].fields["amenities"].Strs?
  }

  function Images(f: Form): seq<string>
    requires Shaped(f)
  {
    f["images"].v.items
  }

  function Amenities(f: Form): seq<string>
    requires Shaped(f)
  {
    f["features"].fields["amenities"].items
  }

  // ---------------------------------------------------------------- loading

  /** `x || ''` for a number: a falsy 0 shows as an empty input. */
  function NumberOrBlank(n: int): (v: Value)
    ensures v == Str("") <==> n == 0
    ensures v != Str("") ==> v == Num(n)
  {
    if n == 0 then Str("") else Num(n)
  }

  /** `x || d` for a string: an empty string falls back to `d`. */
  function TextOr(s: string, d: string): (r: string)
    ensures r == (if s == "" then d else s)
    ensures d != "" ==> r != ""
  {
    if s == "" then d else s
  }

  /** `fetchProperty`: the form filled from the fetched listing, each missing or
      falsy field replaced by its default. The listing has no amenities, so the
      amenity list starts empty. */
  function FromProperty(p: Property): (f: Form)
    ensures Shaped(f) && Images(f) == p.images && Amenities(f) == []
    ensures f.Keys == FormKeys
  {
    map[
      "title" := Leaf(Str(TextOr(p.title, ""))),
      "description" := Leaf(Str(TextOr(p.description, ""))),
      "type" := Leaf(Str(TextOr(TypeName(p.kind), "residential"))),
      "price" := Leaf(NumberOrBlank(p.price)),
      "status" := Leaf(Str(TextOr(StatusName(p.status), "available"))),
      "location" := Group(LocationFields(p.location)),
      "features" := Group(FeatureFields(p.features)),
      "images" := Leaf(Strs(p.images))
    ]
  }

  /** The loaded form shows the listing's type and status, and its price,
      area, bedrooms and bathrooms: blank where the listing holds 0, the stored
      number otherwise. */
  lemma LoadedValues(p: Property)
    ensures var f := FromProperty(p);
      && f["type"] == Leaf(Str(TypeName(p.kind))) && f["status"] == Leaf(Str(StatusName(p.status)))
      && f["price"] == Leaf(NumberOrBlank(p.price))
      && (f["price"] == Leaf(Str("")) <==> p.price == 0)
    ensures var g := FromProperty(p)["features"].fields;
      && g.Keys == {"area", "bedrooms", "bathrooms", "parking", "garden", "amenities"}
      && g["area"] == NumberOrBlank(p.features.area)
      && g["bedrooms"] == NumberOrBlank(p.features.bedrooms)
      && g["bathrooms"] == NumberOrBlank(p.features.bathrooms)
      && (g["area"] == Str("") <==> p.features.area == 0)
      && (g["bedrooms"] == Str("") <==> p.features.bedrooms == 0)
      && (g["bathrooms"] == Str("") <==> p.features.bathrooms == 0)
  {
  }

  /** The loaded form shows the listing's title, description, address and
      feature flags as stored. */
  lemma LoadedText(p: Property)
    ensures var f := FromProperty(p);
      && f["title"] == Leaf(Str(p.title)) && f["description"] == Leaf(Str(p.description))
    ensures var g := FromProperty(p)["location"].fields;
      && g.Keys == {"address", "city", "state", "zipCode"}
      && g["address"] == Str(p.location.address) && g["city"] == Str(p.location.city)
      && g["state"] == Str(p.location.state) && g["zipCode"] == Str(p.location.zipCode)
    ensures var g := FromProperty(p)["features"].fields;
      && g["parking"] == Flag(p.features.parking) && g["garden"] == Flag(p.features.garden)
  {
  }

  /** The `location` object of the loaded form, each missing part blank. */
  function LocationFields(l: Location): (g: map<string, Value>)
    ensures g.Keys == {"address", "city", "state", "zipCode"}
  {
    map[
      "address" := Str(TextOr(l.address, "")),
      "city" := Str(TextOr(l.city, "")),
      "state" := Str(TextOr(l.state, "")),
      "zipCode" := Str(TextOr(l.zipCode, ""))]
  }

  /** The `features` object of the loaded form: each count as stored, or blank
      where it is 0, the flags as stored, and an empty amenity list. */
  function FeatureFields(x: Features): (g: map<string, Value>)
    ensures g.Keys == {"area", "bedrooms", "bathrooms", "parking", "garden", "amenities"}
    ensures g["amenities"] == Strs([])
    ensures g["area"] == NumberOrBlank(x.area) && g["bedrooms"] == NumberOrBlank(x.bedrooms)
    ensures g["bathrooms"] == NumberOrBlank(x.bathrooms)
    ensures g["area"] == Str("") <==> x.area == 0
    ensures g["bedrooms"] == Str("") <==> x.bedrooms == 0
    ensures g["bathrooms"] == Str("") <==> x.bathrooms == 0
  {
    map[
      "area" := NumberOrBlank(x.area),
      "bedrooms" := NumberOrBlank(x.bedrooms),
      "bathrooms" := NumberOrBlank(x.bathrooms),
      "parking" := Flag(x.parking),
      "garden" := Flag(x.garden),
      "amenities" := Strs([])]
  }

  // ---------------------------------------------------------------- handleChange

  /** The change event of one input: its `name`, `value`, whether it is a
      checkbox, and `checked`. */
  datatype Input = Input(name: string, value: string, isCheckbox: bool, checked: bool)

  /** The plain inputs the page binds to `handleChange`. */
  const PlainInputs: set<string> := {"title", "description", "type", "status", "price"}

  /** The dotted inputs, as (parent, child) pairs. */
  const NestedInputs: set<(string, string)> := {
    ("location", "address"), ("location", "city"), ("location", "state"), ("location", "zipCode"),
    ("features", "area"), ("features", "bedrooms"), ("features", "bathrooms"),
    ("features", "parking"), ("features", "garden")}

  /** The names of all inputs the page binds to `handleChange`. */
  const InputNames: set<string> :=
    PlainInputs + set pc | pc in NestedInputs :: pc.0 + "." + pc.1

  /** The longest prefix of `s` that does not contain `c`: the first piece of
      `s.split(c)`. */
  function Before(s: string, c: char): (r: string)
    ensures r <= s && c !in r
    ensures |r| < |s| ==> s[|r|] == c
  {
    if s == [] || s[0] == c then [] else [s[0]] + Before(s[1..], c)
  }

  /** `const [parent, child] = name.split('.')` for a name containing a dot. */
  function Parent(name: string): string {
    Before(name, '.')
  }

  function Child(name: string): string
    requires '.' in name
  {
    var parent := Before(name, '.');
    Before(name[|parent| + 1..], '.')
  }

  /** What the input stores: `checked` for a checkbox, `value` otherwise. */
  function Stored(e: Input): (v: Value)
    ensures e.isCheckbox ==> v == Flag(e.checked)
    ensures !e.isCheckbox ==> v == Str(e.value)
  {
    if e.isCheckbox then Flag(e.checked) else Str(e.value)
  }

  /** `{...prev[parent]}`: the fields of a nested object; a missing entry or a
      plain value spreads to no fields. */
  function GroupOf(f: Form, parent: string): map<string, Value> {
    if parent in f && f[parent].Group? then f[parent].fields else map[]
  }

  /** The top-level field an input writes to. */
  function Target(name: string): string {
    if '.' in name then Parent(name) else name
  }

  /** `handleChange`: the form after input `e` fires. A dotted name
      `parent.child` writes `child` inside `parent` and keeps the other fields
      of `parent`; a plain name writes that top-level field. Either way every
      other top-level field is left as it was. */
  function Changed(f: Form, e: Input): (r: Form)
    ensures r.Keys == f.Keys + {Target(e.name)}
    ensures forall k :: k in f && k != Target(e.name) ==> r[k] == f[k]
    ensures '.' !in e.name ==> r[e.name] == Leaf(Stored(e))
    ensures '.' in e.name ==>
      && r[Parent(e.name)].Group?
      && r[Parent(e.name)].fields.Keys == GroupOf(f, Parent(e.name)).Keys + {Child(e.name)}
      && r[Parent(e.name)].fields[Child(e.name)] == Stored(e)
      && forall c :: c in GroupOf(f, Parent(e.name)) && c != Child(e.name) ==>
           r[Parent(e.name)].fields[c] == GroupOf(f, Parent(e.name))[c]
  {
    f[Target(e.name) := Written(f, e)]
  }

  /** The new value of the top-level field input `e` writes to. */
  function Written(f: Form, e: Input): Entry {
    if '.' in e.name then Group(GroupOf(f, Parent(e.name))[Child(e.name) := Stored(e)])
    else Leaf(Stored(e))
  }

  /** A string without `c` is its own first piece. */
  lemma {:induction false} BeforeAbsent(s: string, c: char)
    requires c !in s
    ensures Before(s, c) == s
    decreases |s|
  {
    if s != [] {
      BeforeAbsent(s[1..], c);
      assert s == [s[0]] + s[1..];
    }
  }

  /** The first piece of `a + [c] + rest` is `a` when `a` holds no `c`. */
  lemma {:induction false} BeforeStops(a: string, c: char, rest: string)
    requires c !in a
    ensures Before(a + [c] + rest, c) == a
    decreases |a|
  {
    var s := a + [c] + rest;
    if a == [] {
      assert s[0] == c;
    } else {
      assert s[0] == a[0] && s[1..] == a[1..] + [c] + rest;
      BeforeStops(a[1..], c, rest);
      assert a == [a[0]] + a[1..];
    }
  }

  /** `parent.child` splits back into `parent` and `child` when neither holds a dot. */
  lemma SplitName(parent: string, child: string)
    requires '.' !in parent && '.' !in child
    ensures var name := parent + "." + child;
      '.' in name && Parent(name) == parent && Child(name) == child
  {
    var name := parent + "." + child;
    assert name == parent + ['.'] + child;
    assert name[|parent|] == '.';
    BeforeStops(parent, '.', child);
    assert name[|parent| + 1..] == child;
    BeforeAbsent(child, '.');
  }

  /** The plain inputs hold no dot and are none of the nested or list fields. */
  lemma PlainShape(name: string)
    requires name in PlainInputs
    ensures '.' !in name && name !in {"images", "features", "location"}
  {
  }

  /** The dotted inputs are split at a single dot, under `location` or
      `features`, and none of them is the amenity list. */
  lemma NestedShape(pc: (string, string))
    requires pc in NestedInputs
    ensures '.' !in pc.0 && '.' !in pc.1
    ensures pc.0 in {"location", "features"} && pc.1 != "amenities"
  {
  }

  /** Where each of the page's inputs writes: `location` or `features` for the
      dotted ones (never the amenity list), its own field otherwise. */
  lemma InputTargets(name: string)
    requires name in InputNames
    ensures '.' in name <==> name !in PlainInputs
    ensures '.' in name ==> (Parent(name), Child(name)) in NestedInputs
    ensures '.' in name ==> name == Parent(name) + "." + Child(name)
    ensures '.' in name ==> Parent(name) in {"location", "features"} && Child(name) != "amenities"
    ensures '.' !in name ==> name !in {"images", "features", "location"}
  {
    if name in PlainInputs {
      PlainShape(name);
    } else {
      var pc :| pc in NestedInputs && name == pc.0 + "." + pc.1;
      NestedShape(pc);
      SplitName(pc.0, pc.1);
      assert (Parent(name), Child(name)) == pc;
    }
  }

  /** None of the page's inputs disturbs the image or amenity lists. */
  lemma ChangeKeepsLists(f: Form, e: Input)
    requires Shaped(f) && e.name in InputNames
    ensures Shaped(Changed(f, e))
    ensures Images(Changed(f, e)) == Images(f) && Amenities(Changed(f, e)) == Amenities(f)
  {
    InputTargets(e.name);
  }

  /** Edits to two different fields give the same form in either order. */
  lemma EditsCommute(f: Form, e1: Input, e2: Input)
    requires e1.name != e2.name && e1.name in InputNames && e2.name in InputNames
    ensures Changed(Changed(f, e1), e2) == Changed(Changed(f, e2), e1)
  {
    InputTargets(e1.name);
    InputTargets(e2.name);
    if Target(e1.name) == Target(e2.name) {
      assert '.' in e1.name && '.' in e2.name;
      SiblingEditsCommute(f, e1, e2);
    } else {
      SeparateEditsCommute(f, e1, e2);
    }
  }

  /** Edits to two different top-level fields commute. */
  lemma SeparateEditsCommute(f: Form, e1: Input, e2: Input)
    requires Target(e1.name) != Target(e2.name)
    ensures Changed(Changed(f, e1), e2) == Changed(Changed(f, e2), e1)
  {
    var t1, t2 := Target(e1.name), Target(e2.name);
    var f1, f2 := Changed(f, e1), Changed(f, e2);
    assert Written(f1, e2) == Written(f, e2) by {
      if '.' in e2.name { assert GroupOf(f1, t2) == GroupOf(f, t2); }
    }
    assert Written(f2, e1) == Written(f, e1) by {
      if '.' in e1.name { assert GroupOf(f2, t1) == GroupOf(f, t1); }
    }
  }

  /** Edits to two different fields of the same nested object commute. */
  lemma SiblingEditsCommute(f: Form, e1: Input, e2: Input)
    requires '.' in e1.name && '.' in e2.name
    requires Parent(e1.name) == Parent(e2.name) && Child(e1.name) != Child(e2.name)
    ensures Changed(Changed(f, e1), e2) == Changed(Changed(f, e2), e1)
  {
    var t := Parent(e1.name);
    var c1, c2 := Child(e1.name), Child(e2.name);
    var v1, v2 := Stored(e1), Stored(e2);
    var g := GroupOf(f, t);
    assert GroupOf(Changed(f, e1), t) == g[c1 := v1];
    assert GroupOf(Changed(f, e2), t) == g[c2 := v2];
    assert g[c1 := v1][c2 := v2] == g[c2 := v2][c1 := v1];
  }

  // ---------------------------------------------------------------- lists

  /** `s.filter((_, j) => j !== i)`: the elements of `s` at every position but `i`. */
  function DropAt<T>(s: seq<T>, i: int): (r: seq<T>)
    ensures |r| == if 0 <= i < |s| then |s| - 1 else |s|
  {
    if s == [] then [] else (if i == 0 then [] else [s[0]]) + DropAt(s[1..], i - 1)
  }

  /** Dropping position `i` splices out exactly that element; any other index
      leaves the sequence as it was. */
  lemma {:induction false} DropAtSlices<T>(s: seq<T>, i: int)
    ensures 0 <= i < |s| ==> DropAt(s, i) == s[..i] + s[i + 1..]
    ensures !(0 <= i < |s|) ==> DropAt(s, i) == s
    decreases |s|
  {
    if s != [] {
      var rest := DropAt(s[1..], i - 1);
      DropAtSlices(s[1..], i - 1);
      if i == 0 {
        assert DropAt(s, i) == [] + rest;
        assert s[i + 1..] == s[1..];
      } else {
        assert DropAt(s, i) == [s[0]] + rest;
        if 0 < i < |s| {
          SlicesAfterHead(s, i);
        } else {
          assert s == [s[0]] + s[1..];
        }
      }
    }
  }

  /** The slices around position `i > 0` of `s` are those around `i - 1` of its tail. */
  lemma SlicesAfterHead<T>(s: seq<T>, i: int)
    requires 0 < i < |s|
    ensures s[..i] + s[i + 1..] == [s[0]] + (s[1..][..i - 1] + s[1..][i..])
  {
    assert s[..i] == [s[0]] + s[1..][..i - 1];
    assert s[i + 1..] == s[1..][i..];
  }

  /** `handleImageChange`: the new image URLs go after the existing ones. */
  function WithImages(f: Form, urls: seq<string>): (r: Form)
    requires Shaped(f)
    ensures Shaped(r) && Images(r) == Images(f) + urls && Amenities(r) == Amenities(f)
    ensures r.Keys == f.Keys && forall k :: k in f && k != "images" ==> r[k] == f[k]
  {
    f["images" := Leaf(Strs(Images(f) + urls))]
  }

  /** `removeImage(i)`. */
  function WithoutImage(f: Form, i: int): (r: Form)
    requires Shaped(f)
    ensures Shaped(r) && Amenities(r) == Amenities(f)
    ensures 0 <= i < |Images(f)| ==> Images(r) == Images(f)[..i] + Images(f)[i + 1..]
    ensures !(0 <= i < |Images(f)|) ==> r == f
    ensures r.Keys == f.Keys && forall k :: k in f && k != "images" ==> r[k] == f[k]
  {
    DropAtSlices(Images(f), i);
    f["images" := Leaf(Strs(DropAt(Images(f), i)))]
  }

  /** The form with `amenities` inside `features` replaced by `items`. */
  function WithAmenityList(f: Form, items: seq<string>): (r: Form)
    requires Shaped(f)
    ensures Shaped(r) && Amenities(r) == items && Images(r) == Images(f)
    ensures r.Keys == f.Keys && forall k :: k in f && k != "features" ==> r[k] == f[k]
    ensures r["features"].fields.Keys == f["features"].fields.Keys
    ensures forall c :: c in f["features"].fields && c != "amenities" ==>
      r["features"].fields[c] == f["features"].fields[c]
  {
    f["features" := Group(f["features"].fields["amenities" := Strs(items)])]
  }

  /** The amenity list grown by `a` at the end. */
  function WithAmenity(f: Form, a: string): (r: Form)
    requires Shaped(f)
    ensures Shaped(r) && Amenities(r) == Amenities(f) + [a] && Images(r) == Images(f)
    ensures r.Keys == f.Keys && forall k :: k in f && k != "features" ==> r[k] == f[k]
    ensures r["features"].fields.Keys == f["features"].fields.Keys
    ensures forall c :: c in f["features"].fields && c != "amenities" ==>
      r["features"].fields[c] == f["features"].fields[c]
  {
    WithAmenityList(f, Amenities(f) + [a])
  }

  /** `removeAmenity(i)`: only the amenity list changes, losing position `i`. */
  function WithoutAmenity(f: Form, i: int): (r: Form)
    requires Shaped(f)
    ensures Shaped(r) && Images(r) == Images(f)
    ensures 0 <= i < |Amenities(f)| ==> Amenities(r) == Amenities(f)[..i] + Amenities(f)[i + 1..]
    ensures !(0 <= i < |Amenities(f)|) ==> r == f
    ensures r.Keys == f.Keys && forall k :: k in f && k != "features" ==> r[k] == f[k]
    ensures r["features"].fields.Keys == f["features"].fields.Keys
    ensures forall c :: c in f["features"].fields && c != "amenities" ==>
      r["features"].fields[c] == f["features"].fields[c]
  {
    DropAtSlices(Amenities(f), i);
    if 0 <= i < |Amenities(f)| then WithAmenityList(f, DropAt(Amenities(f), i))
    else SameAmenities(f); WithAmenityList(f, DropAt(Amenities(f), i))
  }

  /** Writing back the amenity list a form already has changes nothing. */
  lemma SameAmenities(f: Form)
    requires Shaped(f)
    ensures WithAmenityList(f, Amenities(f)) == f
  {
    var g := f["features"].fields;
    assert g["amenities" := Strs(Amenities(f))] == g;
    assert Group(g) == f["features"];
  }

  /** Removing an image just added restores the form. */
  lemma RemoveImageUndoesAdd(f: Form, url: string)
    requires Shaped(f)
    ensures WithoutImage(WithImages(f, [url]), |Images(f)|) == f
  {
    var g := WithImages(f, [url]);
    assert Images(g)[..|Images(f)|] == Images(f);
    var r := WithoutImage(g, |Images(f)|);
    assert r["images"] == Leaf(Strs(Images(f))) == f["images"];
    assert r.Keys == f.Keys;
    assert forall k :: k in f ==> r[k] == f[k];
  }

  /** Removing an amenity just added restores the form. */
  lemma RemoveAmenityUndoesAdd(f: Form, a: string)
    requires Shaped(f)
    ensures WithoutAmenity(WithAmenity(f, a), |Amenities(f)|) == f
  {
    var g := WithAmenity(f, a);
    assert Amenities(g)[..|Amenities(f)|] == Amenities(f);
    var r := WithoutAmenity(g, |Amenities(f)|);
    var fs, rs := f["features"].fields, r["features"].fields;
    assert rs["amenities"] == Strs(Amenities(f)) == fs["amenities"];
    assert rs.Keys == fs.Keys;
    assert forall c :: c in fs ==> rs[c] == fs[c];
    assert rs == fs;
    assert r["features"] == f["features"];
    assert r.Keys == f.Keys;
    assert forall k :: k in f ==> r[k] == f[k];
  }

  // ---------------------------------------------------------------- the page

  /** The page's editable state: `formData` and the amenity text box. */
  class EditForm {
    var formData: Form
    var amenityInput: string

    predicate Valid()
      reads this
    {
      Shaped(formData)
    }

    constructor()
      ensures Valid() && formData == InitialForm() && amenityInput == ""
    {
      formData := InitialForm();
      amenityInput := "";
    }

    /** `fetchProperty`: a fetched listing replaces the form; a failed fetch
        leaves it as it was. */
    method Load(fetched: Option<Property>)
      requires Valid()
      modifies this`formData
      ensures Valid()
      ensures fetched.Some? ==> formData == FromProperty(fetched.value)
      ensures fetched.None? ==> formData == old(formData)
    {
      if fetched.Some? {
        formData := FromProperty(fetched.value);
      }
    }

    method HandleChange(e: Input)
      requires Valid() && e.name in InputNames
      modifies this`formData
      ensures Valid() && formData == Changed(old(formData), e)
      ensures Images(formData) == Images(old(formData))
      ensures Amenities(formData) == Amenities(old(formData))
    {
      ChangeKeepsLists(formData, e);
      formData := Changed(formData, e);
    }

    /** The amenity text box's own `onChange`. */
    method SetAmenityInput(text: string)
      modifies this`amenityInput
      ensures amenityInput == text
    {
      amenityInput := text;
    }

    method HandleImageChange(urls: seq<string>)
      requires Valid()
      modifies this`formData
      ensures Valid() && formData == WithImages(old(formData), urls)
    {
      formData := WithImages(formData, urls);
    }

    method RemoveImage(i: int)
      requires Valid()
      modifies this`formData
      ensures Valid() && formData == WithoutImage(old(formData), i)
    {
      formData := WithoutImage(formData, i);
    }

    /** `addAmenity`: a box holding more than white space adds its trimmed text
        at the end of the list and is emptied; otherwise nothing changes. */
    method AddAmenity()
      requires Valid()
      modifies this
      ensures Valid()
      ensures Trim(old(amenityInput)) == [] ==>
        formData == old(formData) && amenityInput == old(amenityInput)
      ensures Trim(old(amenityInput)) != [] ==>
        formData == WithAmenity(old(formData), Trim(old(amenityInput))) && amenityInput == ""
    {
      var item := Trim(amenityInput);
      if item != [] {
        formData := WithAmenity(formData, item);
        amenityInput := "";
      }
    }

    method RemoveAmenity(i: int)
      requires Valid()
      modifies this`formData
      ensures Valid() && formData == WithoutAmenity(old(formData), i)
    {
      formData := WithoutAmenity(formData, i);
    }
  }
}
