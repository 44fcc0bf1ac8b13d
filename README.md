# Brocker listings, modelled in Dafny

Brocker is a real-estate listing application with an Express/MongoDB back end and a React front end. This project models its core and proves properties of that model:

- **The `Property` document** (`property_schema.dfy`). Covers its Mongoose validators, its defaults, the `trim` setter on the title and the `pre('save')` hook. A request body either becomes a well-formed document or is rejected with the list of failing paths. The update validators check only the paths an update names.
- **The listing routes** (`listing_routes.dfy`). `GET /` builds a MongoDB filter from the query string, finds the matching listings, joins in the owner and sorts newest first. The single-listing read, create, update and delete routes and `GET /type/:type` are also covered. The collection is a `ListingStore` class whose methods change it in place. Every route's 200/201 and 404 answers are modelled, and so are the 500 answers for a malformed id or a failed validation.
- **The sample data of the seed script** (`listing_scenarios.dfy`). Two worked queries over it.
- **The front-end pages**:
  - edit-property form (`edit_property.dfy`): loading a listing into the form, `handleChange` with dotted input names, and the image and amenity lists;
  - detail-page carousel and status badge (`property_detail.dfy`);
  - registration form's password checks and payload (`register.dfy`);
  - listings page's filters and query string (`properties_page.dfy`);
  - dashboard's recent list, statistics and delete button (`dashboard.dfy`).

Shared pieces:

- `wrappers.dfy` holds `Option` and `Result`.
- `text.dfy` holds `String.prototype.trim`, ASCII case conversion and the case-insensitive substring test behind the city filter.

Stored listings are keyed by a natural number that stands for the ObjectId. A request's `:id` is either a well-formed ObjectId or malformed text. A malformed id makes the cast fail, so the handler answers 500 "Server error", not 404.

## Model

| member | source | states |
|---|---|---|
| Text.Trim | Backend/models/Property.js:7 | the result is the slice of the input between its leading and trailing white space; every dropped character is white space; the result neither starts nor ends with white space; it is empty exactly when the input is all white space |
| Text.TrimFixes | Backend/models/Property.js:7 | `trim` leaves a string unchanged exactly when it has no surrounding white space |
| Text.TrimIdempotent | Backend/models/Property.js:7 | trimming twice gives the same as trimming once |
| Text.Capitalize | Frontend/src/pages/PropertyDetail.js:240 | `charAt(0).toUpperCase() + slice(1)`: same length, first letter upper-cased, the rest unchanged |
| Text.LowerPrefix | Backend/routes/properties.js:15 | lower-casing keeps a prefix a prefix, so a case-insensitive match of a prefix carries over to the whole text |
| Text.IsInfixAt | Backend/routes/properties.js:15 | the recursive substring test holds exactly when the pattern starts at some position of the text |
| PropertySchema.ParseType | Backend/models/Property.js:13-17 | the `type` enum accepts exactly the names of land, residential and commercial, and gives back the type named |
| PropertySchema.ParseStatus | Backend/models/Property.js:66-70 | the `status` enum accepts exactly available, sold and pending |
| PropertySchema.FailingPaths | Backend/models/Property.js:3-88 | a path is listed exactly when it is among the paths checked and its validator rejects the body in the given mode |
| PropertySchema.Violations | Backend/models/Property.js:3-88 | the reported paths are exactly those whose validator fails (`Rejects`: `required` on the required paths, `enum` on type and status; on update only for the paths the body names, `Fails`); the list is empty exactly when no validator fails |
| PropertySchema.Instantiate | Backend/models/Property.js:3-88 | `new Property(body)` plus validation fails exactly when some path fails, reporting those paths; a document it builds is well formed (required strings non-empty, title trimmed) and carries the given id |
| PropertySchema.Saved | Backend/models/Property.js:91-94 | the save hook sets `updatedAt` to now and changes nothing else, so `createdAt <= updatedAt` whenever the document was created no later than now |
| PropertySchema.Merge | Backend/routes/properties.js:71-75 | `findByIdAndUpdate` keeps the document's id |
| PropertySchema.MissingRequiredRejected | Backend/models/Property.js:4-44 | leaving out any required path (title, description, type, price, the four location fields, features.area, createdBy) is reported, and no document is created |
| PropertySchema.Accepted | Backend/models/Property.js:4-79 | a body valid on create has a non-blank title, a description, a known type, a price, the four location fields, an area, a creator, and a known status if it gives one |
| PropertySchema.AcceptedText | Backend/models/Property.js:4-12 | a body valid on create has a title that is not blank after trimming, and a description |
| PropertySchema.AcceptedLocation | Backend/models/Property.js:22-39 | a body valid on create has address, city, state and zip code |
| PropertySchema.AcceptedRest | Backend/models/Property.js:13-79 | a body valid on create has a known type, a price, an area and a creator, and a known status if it gives one |
| PropertySchema.EnumsEnforced | Backend/models/Property.js:13-17 | a `type` or `status` outside its enum is reported, on create and on update |
| PropertySchema.CastTitle | Backend/models/Property.js:4-8 | the cast title is present exactly when one is given, is no longer than it, and neither starts nor ends with white space (so trimming it again changes nothing, by Text.TrimFixes) |
| PropertySchema.DefaultsApplied | Backend/models/Property.js:4-87 | an accepted document takes every supplied value (title trimmed; description, type, price, all four location fields, area, contact details, creator) and the schema default for each absent one: status available, 0 bedrooms and bathrooms, no parking or garden, no images, and the current time for `createdAt` and `updatedAt` |
| PropertySchema.SameVerdicts | Backend/models/Property.js:3-88 | two bodies on which every validator agrees get the same list of failing paths |
| PropertySchema.NumbersUnconstrained | Backend/models/Property.js:18-21 | price and features.area carry no range check: any numbers get the same verdict as 0 |
| PropertySchema.StoredRoundTrip | Backend/models/Property.js:3-88 | re-submitting a well-formed stored document with every path set is accepted and rebuilds that document exactly |
| PropertySchema.MergeKeepsWellFormed | Backend/routes/properties.js:71-75 | an update that passes the update validators keeps a well-formed document well formed |
| PropertySchema.EmptyUpdateKeeps | Backend/routes/properties.js:71-75 | an update body naming no path passes the update validators and leaves the document unchanged |
| PropertySchema.EmptyUpdatePasses | Backend/routes/properties.js:71-75 | an update body naming no path passes every update validator |
| PropertySchema.FullUpdateReplaces | Backend/routes/properties.js:71-75 | an update with every path of a well-formed document passes the update validators and yields that document under the old id (a contact field the new document leaves unset keeps its stored value) |
| PropertySchema.PriceOnlyUpdate | Backend/routes/properties.js:71-75 | a body naming only `price` passes the update validators and changes only the price, not `updatedAt` |
| ListingRoutes.BuildFilter | Backend/routes/properties.js:11-20 | a type, status or city condition is present exactly when that parameter is non-empty, and then carries it; a price range is present exactly when either bound is given, with the bounds as given |
| ListingRoutes.FilterMeansMatch | Backend/routes/properties.js:10-20 | the filter document built from the query selects a listing exactly when every supplied filter holds for it, where selection (`Satisfies`) is equality on type and status, a case-insensitive substring on city, and `$gte`/`$lte` on price |
| ListingRoutes.BlankQueryImposesNothing | Backend/routes/properties.js:13-16 | missing or empty parameters build the empty filter, which every listing satisfies |
| ListingRoutes.Insert | Backend/routes/properties.js:24 | inserting adds exactly that listing (multiset) |
| ListingRoutes.SortNewestFirst | Backend/routes/properties.js:24 | sorting is a permutation of its input |
| ListingRoutes.InsertKeepsOrder | Backend/routes/properties.js:24 | inserting a listing with a new id into a newest-first sequence keeps it newest first |
| ListingRoutes.TailNewestFirst | Backend/routes/properties.js:24 | the tail of a newest-first sequence is newest first |
| ListingRoutes.InsertMember | Backend/routes/properties.js:24 | the members after an insertion are the inserted listing and the old members |
| ListingRoutes.ConsKeepsOrder | Backend/routes/properties.js:24 | a listing newer than every member of a newest-first sequence can go in front of it |
| ListingRoutes.SortOrders | Backend/routes/properties.js:24 | sorting listings with distinct ids yields them newest first |
| ListingRoutes.Candidates | Backend/routes/properties.js:22 | the scan yields exactly the stored listings below the bound that satisfy the filter, by ascending id |
| ListingRoutes.Find | Backend/routes/properties.js:22-24 | `find(filter).sort({createdAt: -1})` yields exactly the stored listings that satisfy the filter, newest first |
| ListingRoutes.CandidatesCount | Backend/routes/properties.js:22 | the scan yields one entry per matching id |
| ListingRoutes.MatchingIdsStep | Backend/routes/properties.js:22 | scanning one more id adds one matching id exactly when the listing there matches |
| ListingRoutes.FindCount | Backend/routes/properties.js:22-24 | the found listings are as many as the matching ids: no duplicates |
| ListingRoutes.Populate | Backend/routes/properties.js:23 | each listing is kept in place and joined with its owner's name and email |
| ListingRoutes.Catalogue | Backend/routes/properties.js:8-31 | `GET /` answers exactly the stored listings matching every supplied filter, each once, each with its owner's summary, ordered by `createdAt` descending (the predicate `Newer`; ties by id, see Left out) |
| ListingRoutes.ListingStore.constructor | Backend/models/Property.js:96 | the store starts with an empty collection, the given users and clock, and the first id free |
| ListingRoutes.ListingStore.List | Backend/routes/properties.js:8-31 | the answer is the catalogue of the whole collection for the query |
| ListingRoutes.ListingStore.ListByType | Backend/routes/properties.js:105-116 | `GET /type/:type` gives the same answer as `GET /?type=` |
| ListingRoutes.ListingStore.Get | Backend/routes/properties.js:34-48 | 500 for a malformed id, 404 for an unknown one, otherwise the listing with its owner's contact card |
| ListingRoutes.ListingStore.Create | Backend/routes/properties.js:51-66 | a body that fails validation answers 500 and stores nothing; otherwise the document, owned by the caller and stamped by the save hook, is stored under a fresh id and returned with 201 |
| ListingRoutes.ListingStore.Update | Backend/routes/properties.js:69-86 | 500 for a malformed id or a body the update validators reject (checked before the lookup), 404 for an unknown id, otherwise the merged document replaces that listing alone; the store invariant is kept |
| ListingRoutes.ListingStore.Delete | Backend/routes/properties.js:89-102 | 500 for a malformed id, 404 for an unknown one, otherwise exactly that listing is removed and the confirmation message returned |
| ListingRoutes.DeleteThenGet | Backend/routes/properties.js:34-48 | after a delete, fetching the same id answers 404 and nothing else changed |
| ListingRoutes.CreateThenGet | Backend/routes/properties.js:34-66 | a created listing can be fetched back under its new id, with the caller as owner |
| ListingScenarios.SeedEntries | Backend/seed.js:40-191 | the sample collection holds ids 0 to 4, one listing each, in the order the script saves them |
| ListingScenarios.SeedKeyed | Backend/seed.js:40-191 | every sample listing is stored under its own id |
| ListingScenarios.CatalogueOfTwo | Backend/routes/properties.js:22-24 | a query matching exactly two listings lists the newer first |
| ListingScenarios.CatalogueOfOne | Backend/routes/properties.js:22-24 | a query matching exactly one listing lists just that one |
| ListingScenarios.ResidentialOverHalfMillion | Backend/seed.js:40-191 | `?type=residential&minPrice=500000` over the sample data lists the family home and then the villa |
| ListingScenarios.CityIgnoresCase | Backend/routes/properties.js:15 | `?city=beverly` over the sample data finds the Beverly Hills villa alone |
| ListingScenarios.NoBeverly | Backend/routes/properties.js:15 | a city without the letter b never matches the pattern `beverly` |
| EditProperty.InitialForm | Frontend/src/pages/EditProperty.js:12-33 | the starting form has the image and amenity lists in place, both empty |
| EditProperty.NumberOrBlank | Frontend/src/pages/EditProperty.js:52 | `n \|\| ''` shows a blank exactly for 0 and the number otherwise |
| EditProperty.FromProperty | Frontend/src/pages/EditProperty.js:47-68 | the loaded form has the same top-level fields as the initial one, the listing's images and no amenities |
| EditProperty.LoadedText | Frontend/src/pages/EditProperty.js:47-68 | the loaded form shows the listing's title, description, address, city, state, zip code, parking and garden as stored |
| EditProperty.LoadedValues | Frontend/src/pages/EditProperty.js:47-68 | the loaded form shows the listing's type and status, and its price, area, bedrooms and bathrooms as `n \|\| ''`: blank exactly where the listing holds 0, the stored number otherwise |
| EditProperty.Before | Frontend/src/pages/EditProperty.js:81 | the first piece of `split('.')`: a dot-free prefix followed by a dot or the end |
| EditProperty.Changed | Frontend/src/pages/EditProperty.js:77-95 | `handleChange` writes the checkbox state or the text to the named field, or inside the parent object for a dotted name keeping its sibling fields, and leaves every other field as it was |
| EditProperty.BeforeStops | Frontend/src/pages/EditProperty.js:81 | splitting at the first dot returns everything before it |
| EditProperty.SplitName | Frontend/src/pages/EditProperty.js:81 | `parent.child` splits back into parent and child |
| EditProperty.InputTargets | Frontend/src/pages/EditProperty.js:186-360 | each input the page binds writes into `location` or `features` (never the amenity list) when dotted, and to its own plain field otherwise |
| EditProperty.ChangeKeepsLists | Frontend/src/pages/EditProperty.js:77-95 | no bound input disturbs the image or amenity lists |
| EditProperty.EditsCommute | Frontend/src/pages/EditProperty.js:77-95 | changes to two different inputs give the same form in either order |
| EditProperty.SeparateEditsCommute | Frontend/src/pages/EditProperty.js:77-95 | changes to two different top-level fields commute |
| EditProperty.SiblingEditsCommute | Frontend/src/pages/EditProperty.js:82-88 | changes to two different fields of one nested object commute |
| EditProperty.DropAt | Frontend/src/pages/EditProperty.js:109 | `filter((_, i) => i !== index)` shortens the list by one exactly when the index is in range |
| EditProperty.DropAtSlices | Frontend/src/pages/EditProperty.js:109 | the filter splices out exactly the element at the index, and leaves the list alone for any other index |
| EditProperty.WithImages | Frontend/src/pages/EditProperty.js:97-104 | the new URLs go after the existing images; nothing else changes |
| EditProperty.WithoutImage | Frontend/src/pages/EditProperty.js:106-111 | the image at the index is removed, an out-of-range index changes nothing, and no other field changes |
| EditProperty.WithAmenity | Frontend/src/pages/EditProperty.js:115-121 | the amenity goes at the end of the list; every other field and sibling feature is kept |
| EditProperty.WithoutAmenity | Frontend/src/pages/EditProperty.js:126-134 | the amenity at the index is removed, an out-of-range index changes nothing, and every other field and sibling feature is kept |
| EditProperty.RemoveImageUndoesAdd | Frontend/src/pages/EditProperty.js:97-111 | removing the image just added restores the form |
| EditProperty.RemoveAmenityUndoesAdd | Frontend/src/pages/EditProperty.js:113-134 | removing the amenity just added restores the form |
| EditProperty.EditForm.constructor | Frontend/src/pages/EditProperty.js:12-35 | the page starts from the initial form and an empty amenity box |
| EditProperty.EditForm.Load | Frontend/src/pages/EditProperty.js:41-74 | a fetched listing replaces the form; a failed fetch leaves it |
| EditProperty.EditForm.SetAmenityInput | Frontend/src/pages/EditProperty.js:376-377 | typing in the amenity box sets its text and nothing else |
| EditProperty.EditForm.HandleChange | Frontend/src/pages/EditProperty.js:77-95 | the form becomes the changed form, with the image and amenity lists untouched |
| EditProperty.EditForm.HandleImageChange | Frontend/src/pages/EditProperty.js:97-104 | the form gains the new images at the end |
| EditProperty.EditForm.RemoveImage | Frontend/src/pages/EditProperty.js:106-111 | the form loses the image at the index |
| EditProperty.EditForm.AddAmenity | Frontend/src/pages/EditProperty.js:113-124 | a box holding only white space changes nothing; otherwise its trimmed text is appended and the box emptied |
| EditProperty.EditForm.RemoveAmenity | Frontend/src/pages/EditProperty.js:126-134 | the form loses the amenity at the index |
| PropertyDetail.Next | Frontend/src/pages/PropertyDetail.js:53-57 | the forward arrow moves to `(i + 1) mod n`, staying in range |
| PropertyDetail.Prev | Frontend/src/pages/PropertyDetail.js:59-63 | the back arrow moves to `(i - 1) mod n`, staying in range |
| PropertyDetail.StepsUndo | Frontend/src/pages/PropertyDetail.js:53-63 | a step back undoes a step forward and the other way round |
| PropertyDetail.NextTimesShifts | Frontend/src/pages/PropertyDetail.js:53-57 | k forward steps land at `(i + k) mod n` |
| PropertyDetail.FullCycle | Frontend/src/pages/PropertyDetail.js:53-57 | n forward steps return to the starting image |
| PropertyDetail.MainImage | Frontend/src/pages/PropertyDetail.js:103 | the main picture is never empty: the image at the index when it exists and is non-empty, the placeholder otherwise |
| PropertyDetail.StatusTone | Frontend/src/pages/PropertyDetail.js:235-238 | green exactly for available, yellow exactly for pending, red exactly for sold |
| PropertyDetail.StatusLabel | Frontend/src/pages/PropertyDetail.js:240 | the badge reads `Available`, `Sold` or `Pending`: the status's length, an upper-case first letter, and lower-casing gives the status back |
| PropertyDetail.LabelsRead | Frontend/src/pages/PropertyDetail.js:240 | capitalizing each status name gives `Available`, `Sold` and `Pending` |
| PropertyDetail.LabelsDistinct | Frontend/src/pages/PropertyDetail.js:240 | different statuses get different badge texts |
| PropertyDetail.Gallery.constructor | Frontend/src/pages/PropertyDetail.js:13 | the carousel starts on the first image |
| PropertyDetail.Gallery.Shown | Frontend/src/pages/PropertyDetail.js:103 | the main frame shows `images[currentImageIndex] \|\| placeholder`: never empty, shows the placeholder for a listing without images, and one of the images when all are non-empty |
| PropertyDetail.Gallery.NextImage | Frontend/src/pages/PropertyDetail.js:53-57 | the right arrow steps forward and keeps the index valid |
| PropertyDetail.Gallery.PrevImage | Frontend/src/pages/PropertyDetail.js:59-63 | the left arrow steps back and keeps the index valid |
| PropertyDetail.Gallery.SelectThumbnail | Frontend/src/pages/PropertyDetail.js:132-136 | a thumbnail click shows that image |
| Register.PasswordCheck | Frontend/src/pages/Register.js:36-44 | the mismatch message exactly when the passwords differ, the length message exactly when they agree but are shorter than 6, and no message exactly when they agree and have at least 6 characters |
| Register.Payload | Frontend/src/pages/Register.js:48 | every field but `confirmPassword`, unchanged |
| Register.PayloadIgnoresConfirmation | Frontend/src/pages/Register.js:48 | what the confirmation box holds does not affect the payload |
| Register.PayloadRestores | Frontend/src/pages/Register.js:48 | putting the confirmation back into the payload gives back the form |
| Register.AcceptedPayload | Frontend/src/pages/Register.js:36-49 | an accepted form sends a password of at least 6 characters that equals the confirmation |
| Register.RegisterForm.constructor | Frontend/src/pages/Register.js:7-16 | the form starts with six blank fields, no message and not loading |
| Register.RegisterForm.HandleChange | Frontend/src/pages/Register.js:20-30 | only the named field changes; typing into either password box clears the password message |
| Register.RegisterForm.HandleSubmit | Frontend/src/pages/Register.js:32-54 | a failed check shows its message and sends nothing; otherwise the payload is sent, loading ends, and the page moves to `/dashboard` exactly when registration succeeds |
| PropertiesPage.Rank | Frontend/src/pages/Properties.js:9-15 | each filter key's position in the `filters` object |
| PropertiesPage.Set | Frontend/src/pages/Properties.js:40-46 | the named filter takes the new value and the others keep theirs |
| PropertiesPage.Cleared | Frontend/src/pages/Properties.js:48-56 | every filter blank |
| PropertiesPage.ParamsBeforeMembers | Frontend/src/pages/Properties.js:25-29 | the parameters for the first keys of the filter object are exactly the non-empty filters among them, each with its value |
| PropertiesPage.ParamsBeforeOrdered | Frontend/src/pages/Properties.js:25-29 | the parameters for the first keys of the filter object come in key order |
| PropertiesPage.AppendInKeyOrder | Frontend/src/pages/Properties.js:27 | appending a parameter whose key comes after every key already present keeps the key order |
| PropertiesPage.ParamsOf | Frontend/src/pages/Properties.js:25-29 | the query string holds exactly the non-empty filters, each once with its value, in the order type, minPrice, maxPrice, city, status |
| PropertiesPage.BuildParams | Frontend/src/pages/Properties.js:24-29 | the loop over the keys appends exactly the parameters `ParamsOf` describes |
| PropertiesPage.ClearedSendsNothing | Frontend/src/pages/Properties.js:48-56 | after clearing, the request carries no parameters |
| PropertiesPage.NoneBefore | Frontend/src/pages/Properties.js:25-29 | a cleared filter object yields no parameter for any prefix of its keys |
| PropertiesPage.OnlyOneBefore | Frontend/src/pages/Properties.js:25-29 | with one filter set, a prefix of the keys yields that filter's parameter exactly when the prefix reaches its key |
| PropertiesPage.OneFilterSendsOne | Frontend/src/pages/Properties.js:24-29 | one non-empty filter on a clear state sends exactly that parameter |
| PropertiesPage.TypeBadge | Frontend/src/pages/Properties.js:167-174 | no badge exactly for an empty type; otherwise the type with its first letter upper-cased and the rest unchanged, blue exactly for residential, purple exactly for commercial |
| PropertiesPage.CapitalizeKeepsLower | Frontend/src/pages/Properties.js:173 | capitalizing does not change the lower-cased text |
| PropertiesPage.StoredTypesBadged | Frontend/src/pages/Properties.js:167-174 | every stored type gets a badge: land green, residential blue, commercial purple |
| PropertiesPage.PropertiesView.constructor | Frontend/src/pages/Properties.js:9-15 | the page starts with every filter blank |
| PropertiesPage.PropertiesView.FetchProperties | Frontend/src/pages/Properties.js:21-38 | the request carries exactly the parameters of the current filters |
| PropertiesPage.PropertiesView.HandleFilterChange | Frontend/src/pages/Properties.js:40-46 | the filters become the old ones with the named one set |
| PropertiesPage.PropertiesView.ClearFilters | Frontend/src/pages/Properties.js:48-56 | every filter becomes blank |
| PropertiesPage.PropertiesView.ClearThenFetch | Frontend/src/pages/Properties.js:17-56 | clearing and then fetching sends no parameters |
| Dashboard.Recent | Frontend/src/pages/Dashboard.js:27 | `slice(0, 5)`: the first five listings, or all of them when fewer |
| Dashboard.AvailableOnes | Frontend/src/pages/Dashboard.js:31 | exactly the available listings, each as many times as it was given and the others not at all, never more than were given (the order is kept, see AvailableOnesInOrder) |
| Dashboard.AvailableOnesInOrder | Frontend/src/pages/Dashboard.js:31 | filtering keeps the newest-first order |
| Dashboard.StatsOf | Frontend/src/pages/Dashboard.js:30-37 | the total is the number of listings, the available count is that of the available ones and never above the total, and the user count is 0 for an administrator and N/A otherwise |
| Dashboard.InOrderUnique | Backend/routes/properties.js:24 | two newest-first sequences with the same members are equal |
| Dashboard.CatalogueMembers | Backend/routes/properties.js:8-31 | a listing is in the catalogue exactly when it is stored, in range, matches, and carries its owner's summary |
| Dashboard.AvailableAgreesWithStatusQuery | Frontend/src/pages/Dashboard.js:31 | filtering the full listing for available ones gives exactly the answer to `?status=available`, in the same order, so the available count is that answer's length |
| Dashboard.RecentAreNewest | Frontend/src/pages/Dashboard.js:27 | every stored listing left out of the recent five is older than each one shown |
| Dashboard.BeyondRecent | Frontend/src/pages/Dashboard.js:27 | in a sequence in listing order, an entry the first five leave out is older than each of them |
| Dashboard.DashboardView.constructor | Frontend/src/pages/Dashboard.js:9-14 | no listings and zero statistics |
| Dashboard.DashboardView.FetchDashboardData | Frontend/src/pages/Dashboard.js:21-44 | the recent list and the statistics are both computed from the full listing |
| Dashboard.DashboardView.HandleDeleteProperty | Frontend/src/pages/Dashboard.js:46-55 | nothing happens without confirmation; a confirmed delete is sent, and only a successful one removes the listing and refreshes the dashboard from the store; a failed one leaves the dashboard as it was |

## Left out

- HTTP, Express routing, MongoDB connections and React rendering are not modelled. A handler is a method on the store, and a page is a class holding its state.
- The `auth` and `adminAuth` middleware is not part of this model. The admin-only routes require a caller that is an administrator.
- Exceptions other than a failed validation or a malformed id are not modelled: a lost database connection, for example, or a `null` request body. In particular ListingRoutes.ListingStore.List and ListingRoutes.ListingStore.ListByType always answer a listing; the 500 their `catch` blocks send is not modelled.
- The city filter is a MongoDB regular expression with option `i`. The model treats the text as a literal pattern and folds case only for ASCII letters. Regular-expression metacharacters and Unicode case folding are not captured.
- `Number(minPrice)` is not modelled. Price bounds arrive as integers, and an empty bound is absent. A bound that is not a number (`NaN`) is not captured.
- Prices, areas and counts are integers. Fractional numbers and `Date` values are not captured; timestamps are integers.
- JavaScript string length counts UTF-16 code units. The model counts characters, which differs only outside the Basic Multilingual Plane.
- PropertySchema.Merge: its own contract states only that the id is kept; what an update does is stated by PropertySchema.EmptyUpdateKeeps, PropertySchema.FullUpdateReplaces, PropertySchema.PriceOnlyUpdate and PropertySchema.MergeKeepsWellFormed. A body holding a partial `location`, `features` or `contactInfo` object replaces the whole stored object in MongoDB. The model merges leaf by leaf. It also does not model `$unset` or explicit nulls in an update.
- ListingRoutes.ListingStore.Update does not refresh `updatedAt`, because the save hook does not run on `findByIdAndUpdate`. This is faithful to the code, not a weakening.
- `features.amenities` is not a schema path, so Mongoose drops it on save and a fetched listing has none. EditProperty.FromProperty therefore always starts with an empty amenity list.
- Submitting the edit form (`handleSubmit`, an `axios.put`) is not modelled: the request it sends is the update route above. Navigation, loading flags and error messages on that page are not modelled either.
- `URL.createObjectURL` is not modelled. EditProperty.EditForm.HandleImageChange takes the URLs it would produce as a parameter.
- `window.confirm` is not modelled. Dashboard.DashboardView.HandleDeleteProperty takes the user's answer as a parameter. The confirmation on the detail page, which deletes and then navigates, is not modelled.
- The `register` call of the authentication context is not part of this model. Register.RegisterForm.HandleSubmit takes its success as a parameter, and the `error` it exposes is not modelled.
- EditProperty.Changed: `handleChange` on a dotted name whose parent is a plain value would spread that value's own properties. The model spreads it to no fields. No input on the page has such a name.
- PropertyDetail.Gallery does not model resetting the carousel when the listing id changes, because the page does not do that either. The counter text and thumbnail highlighting are not modelled.
- `formatPrice`, date formatting, images in list cards and all styling apart from the badge colours are not modelled.
- The seed script's database I/O (clearing the collections, hashing passwords) is not modelled. ListingScenarios abridges each sample description to its first sentence and keeps one image per listing. Neither field takes part in any query there.
- ListingRoutes.Newer: `.sort({ createdAt: -1 })` has no second key, so MongoDB leaves the order of listings with equal `createdAt` unspecified. The model breaks such ties by ascending id; that order is the model's choice, not the program's. ListingRoutes.SortOrders, the exact order promised by ListingRoutes.Catalogue, and the "same order" of Dashboard.AvailableAgreesWithStatusQuery rely on it.
- `URLSearchParams` percent-encoding is not modelled. PropertiesPage.ParamsOf yields the key/value pairs in order.
- The asynchronous effects that run `fetchProperties` and `fetchDashboardData` are not modelled. The classes expose them as methods that the caller invokes after a change.
