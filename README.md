# Restaurant menu backend: in-memory store, uploads and login checks

This project is a Dafny model of the restaurant menu backend's in-memory servers.
It covers:

- **server-final.js**: the version with image uploads. Three process-wide
  variables hold the categories, the products and the site settings. The admin
  handlers change them in place: `push`, index assignment, reassignment through
  `filter`, and whole-record reassignment of the settings. The public menu, the
  admin product list and the public settings are projections of them.
- **server-perfect.js**: the same store without uploads. It has four settings
  fields and a different availability rule.
- **server-simple.js**: request validators that change nothing. They are the
  `simpleAuth` guard, login, token verification, change-password and the public
  settings mapping.

Each server's state is a `class Store` with `seq` fields for the two lists and a
datatype for the settings. Each handler that reads or changes the store is a
`Store` method. The guarded ones take the `Authorization` header as
`Option<string>` (`None` is a missing header) and return a `Reply<T>` (`Ok`, or
a 400/401/403/404/500 outcome); the unguarded readers (`GetMenu`, `GetSettings`,
`AdminSettings`) return the value itself. A method's `ensures` gives the new
state in terms of the old one, using pure functions. Login and verify are
functions in `Auth`. Lemmas about
those functions state what the handlers promise. The validators of server-simple.js
are functions.

JavaScript semantics that matter here are written out explicitly:

- `x || fallback` tests truthiness; the empty string and `undefined` are falsy
  (`Values.Prefer`).
- `parseInt` may give NaN, which equals nothing. Parsed ids are `Option<int>`
  and `None` matches no record.
- `String.prototype.replace` with a string pattern replaces only the first
  occurrence (`Strings.ReplaceFirst`).
- An unanchored regular expression matches anywhere in the text
  (`Uploads.AllowedType`).
- `Array.prototype.filter` and `findIndex` are modelled (`Arrays`, `Catalog`).

Modules:

- `Values`, `Http`: JavaScript values and handler outcomes.
- `Arrays`, `Strings`: the library operations the handlers use.
- `Catalog`: matching records by id, deletion, and the shared category logic.
- `Uploads`: the upload filter, the size limit and `/uploads/` URLs.
- `Auth`: the bearer check, login and verify.
- `FinalServer`, `PerfectServer`, `SimpleServer`: one module per server file.

Behaviour of the code worth knowing, which the model keeps:

- A wrong-type upload gets 500, not 400. multer's `fileFilter` refuses it with a
  plain `Error`, which is not a `MulterError`, so `handleMulterError` passes it on
  to the catch-all handler (server-final.js:47, 53-63, 364-370). Only the size
  limit gives 400.
- Ids are `length + 1` and repeat after a delete
  (`FinalServer.DeleteThenCreateReusesId`,
  `PerfectServer.DeleteThenCreateReusesId`).
- Deleting an unknown id is not a 404 in either in-memory server; it succeeds and
  changes nothing (`Catalog.WithoutAbsentId`).
- The guards of server-final.js and server-perfect.js answer 401 for every refused
  header and never 403. They accept more than `Bearer <token>`: the bare token is
  accepted, and so is the token with `"Bearer "` inserted anywhere
  (`FinalServer.AcceptedHeaders`).
- In server-simple.js, `simpleAuth` is registered after the admin router
  (server-simple.js:33, 53), so it does not guard the admin routes. The model
  gives the guard's own decision.

## Model

| member | source | states |
|---|---|---|
| Values.Truthy | server-simple.js:95 | JavaScript truthiness of a string field: only `undefined` and `""` are falsy |
| Values.Prefer | server-final.js:173-174 | `v \|\| fallback`: a truthy value is kept, anything else gives the fallback; the result is blank only when both are |
| Values.MergedField | server-final.js:302-312 | one field of a `sent \|\| settings.f` merge: the sent value when truthy, the current value otherwise |
| Values.PreferIdempotent | server-final.js:302-312 | applying the same `\|\|` merge twice equals applying it once |
| Arrays.Filter | server-final.js:203 | `filter` keeps exactly the elements satisfying the test, each from the input |
| Arrays.FilterConcat | server-final.js:273 | filtering a concatenation is the concatenation of the filtered parts, so the survivors keep their order |
| Arrays.FilterMultiplicity | server-perfect.js:124 | each kept value occurs as often as in the input, each dropped value not at all |
| Arrays.FilterKeepsAll | server-perfect.js:175 | when every element passes, `filter` returns the list unchanged |
| Arrays.FindIndex | server-final.js:185 | `findIndex` returns the first index satisfying the test, or none when no element does |
| Strings.ReplaceFirst | server-final.js:153 | `replace` with a string pattern removes the first occurrence only, or returns the text unchanged |
| Strings.ReplaceFirstUndoesInsert | server-final.js:153 | removing the prefix from text where it was inserted gives the text back |
| Strings.ReplaceFirstRemovedOne | server-final.js:153 | a removal result is either the unchanged input or the input minus one occurrence |
| Strings.ToLowerCase | server-final.js:41 | lower-casing keeps the length, maps each character, and leaves no ASCII capital |
| Strings.ToLowerCaseOfLower | server-final.js:41 | lower-casing text without capitals changes nothing |
| Strings.LastIndexOf | server-final.js:28 | the last position of the character, or none when it does not occur |
| Strings.IndexOf | server-final.js:153 | the first position where the pattern occurs, or none exactly when it occurs nowhere |
| Strings.Contains | server-final.js:40-42 | the pattern occurs at some position of the text |
| Strings.MissingCharNotContained | server-final.js:40 | text lacking one character of a word does not contain the word |
| Catalog.Matches | server-final.js:185 | `x.id === parseInt(id)`: the id equals the parsed key; a key that did not parse (NaN) matches nothing |
| Catalog.IndexOfId | server-final.js:185 | `findIndex(x => x.id === parseInt(id))`: the first record carrying the id; none exactly when no record carries it or the id did not parse |
| Catalog.WithoutId | server-final.js:203 | `filter(x => x.id !== parseInt(id))`: every record carrying the id is dropped, every other record stays |
| Catalog.WithoutIdConcat | server-perfect.js:124 | deletion commutes with concatenation, so the survivors keep their order |
| Catalog.WithoutAbsentId | server-final.js:201-205 | deleting an id nobody carries leaves the list as it was and still succeeds |
| Catalog.WithoutUniqueId | server-final.js:271-275 | deleting an id carried once removes exactly that record |
| Catalog.IdReuseAfterDelete | server-final.js:170 | after deleting any id but the last from a list numbered 1..n, the next id created is n, which the last record already has |
| Catalog.SeedCategoriesNumbered | server-final.js:71-76 | the seed categories are numbered 1 to 4 |
| Catalog.NewCategory | server-final.js:169-176 | the new category has the given id, the body's name and description, and a color and icon defaulted when blank, so never blank |
| Catalog.Revise | server-final.js:190-196 | an update keeps id and creation time and takes the body's four fields as sent, without defaults |
| Catalog.CategoryLabel | server-final.js:211 | the first matching category's name, or `"غير مصنف"` when none matches or the name is blank; never blank |
| Catalog.CreatedReachable | server-final.js:170-185 | a newly created category is the one update finds exactly when no older category has its id |
| Catalog.DeletedCategoryLabel | server-final.js:203-211 | after a category is deleted, products pointing at it are labelled `"غير مصنف"` |
| Catalog.RevisedLabel | server-final.js:190-211 | after an update, products pointing at the id show the new name |
| Uploads.UploadUrl | server-final.js:212 | `/uploads/<name>` for a truthy name, `null` otherwise |
| Uploads.UploadedName | server-final.js:331 | reading the stored name back from an `/uploads/` URL |
| Uploads.UploadUrlRoundTrip | server-final.js:341 | reading the name back from its URL gives the stored name |
| Uploads.UploadedNameRoundTrip | server-final.js:212 | every URL the inverse accepts is the URL of the name it returns |
| Uploads.Extname | server-final.js:41 | `path.extname`: a suffix starting with the last dot and holding no other dot; empty exactly when there is no dot after the first character, or for `..` |
| Uploads.ExtnameOfSuffix | server-final.js:28 | a name ending in a dot and dot-free text has that ending as extension |
| Uploads.NotAllowedWithoutKeyLetters | server-final.js:40 | text without j, p, f or w matches none of the five words |
| Uploads.AllowedType | server-final.js:40 | the unanchored test: the text contains one of jpeg, jpg, png, gif, webp |
| Uploads.FileFilter | server-final.js:39-49 | the lower-cased extension and the MIME type as sent must both pass the test |
| Uploads.Receive | server-final.js:34-63 | no file gives no name; a file failing the filter gives 500; one over 20 MB gives 400; otherwise the stored name |
| Uploads.ExeRejected | server-final.js:39-48 | an `.exe` file is refused whatever MIME type it declares |
| Uploads.UpperCaseExtensionAccepted | server-final.js:41 | `.PNG` passes because the extension is lower-cased |
| Uploads.UpperCaseMimetypeRejected | server-final.js:42 | `image/PNG` is refused because the MIME type is not lower-cased |
| Uploads.ContainedWordAccepted | server-final.js:40-42 | `.jpgx` with `application/x-png` passes because the test is unanchored |
| Uploads.OversizedImageRejected | server-final.js:37-59 | a 25 MB PNG image is refused with 400 |
| Uploads.PngAccepted | server-final.js:39-45 | a `.png` file declared `image/png` passes the filter |
| Auth.AcceptedHeaders | server-final.js:153-155 | for a token without `B`, the accepted headers are exactly the bare token and the token with `"Bearer "` inserted at one position |
| Auth.AcceptedHasOneScheme | server-final.js:153-155 | every accepted header is the token or the token with one `"Bearer "` inserted |
| Auth.InsertedSchemeAccepted | server-final.js:153-155 | the token with `"Bearer "` inserted at any position is accepted |
| Auth.NoSchemeNoStripping | server-final.js:153-155 | a header without a capital `B` is accepted exactly when it equals the token |
| Auth.BearerAccepts | server-final.js:153-155 | a missing header fails; otherwise the first `"Bearer "` is removed and the rest must equal the token |
| Auth.ValidCredentials | server-final.js:120 | exactly the pair admin/admin123 |
| Auth.Login | server-final.js:117-133 | success with the token and the admin user exactly for admin/admin123; 401 otherwise |
| Auth.Verify | server-final.js:135-149 | the admin user exactly when the token is the server's; 401 otherwise |
| Auth.IssuedTokenAccepted | server-final.js:124 | the issued token, sent as `Bearer <token>`, passes the guard and verify |
| FinalServer.AuthMiddleware | server-final.js:152-160 | the bearer check with `admin-token-123` |
| FinalServer.AcceptedHeaders | server-final.js:152-160 | the guard accepts exactly `admin-token-123` with or without `"Bearer "` inserted at one position |
| FinalServer.TokenAccepted | server-final.js:153-155 | both `Bearer admin-token-123` and the bare token pass |
| FinalServer.LowerCaseSchemeRejected | server-final.js:153 | `bearer admin-token-123` is refused because the scheme is matched case-sensitively |
| FinalServer.LoginTokenAccepted | server-final.js:124-155 | the login's token opens the guard and verify |
| FinalServer.SeedProductsNumbered | server-final.js:78-99 | the seed products are numbered 1 and 2 |
| FinalServer.Available | server-final.js:229 | only the string `"true"` makes a product available |
| FinalServer.NewProduct | server-final.js:223-232 | the new product takes the body's fields, the upload's name or `null` as image, and is available only for the string `"true"` |
| FinalServer.ReviseProduct | server-final.js:254-262 | an update keeps id and creation time, keeps the image unless a file came, and is available only for `"true"` |
| FinalServer.Listed | server-final.js:328 | the product carries the category's id and is available |
| FinalServer.WithImageUrl | server-final.js:329-332 | a menu product carries its `/uploads/` image URL, or none when it has no image |
| FinalServer.Section | server-final.js:327-332 | a menu section holds exactly the category's available products, in list order, each with its image URL |
| FinalServer.SectionConcat | server-final.js:327-329 | the section of a concatenation is the concatenation of sections, so the product order is kept |
| FinalServer.Menu | server-final.js:324-335 | one section per category in list order; no unavailable or foreign product appears |
| FinalServer.AdminProducts | server-final.js:208-215 | one row per product in list order, with its category label and image URL |
| FinalServer.MergeSettings | server-final.js:301-314 | each of the eleven text fields takes the sent value when it is truthy and keeps the old value otherwise; the logo becomes the upload's name when a file came and stays otherwise; so a filled field is never blanked |
| FinalServer.MergeIdempotent | server-final.js:301-314 | sending the same settings update twice equals sending it once |
| FinalServer.MergeNothing | server-final.js:301-314 | an update with no fields and no file changes nothing |
| FinalServer.MergeSiteNameOnly | server-final.js:302 | an update carrying only `siteName` changes at most the site name |
| FinalServer.MergeSequential | server-final.js:301-314 | two updates in a row equal one update with their field-wise overlay |
| FinalServer.Public | server-final.js:338-343 | the public settings are the settings plus a logo URL, present exactly for a truthy logo, that reads back to it |
| FinalServer.Store.constructor | server-final.js:71-114 | the store starts with the seed categories, products and settings |
| FinalServer.Store.ListCategories | server-final.js:163-165 | the list behind the guard; 401 otherwise |
| FinalServer.Store.CreateCategory | server-final.js:167-179 | behind the guard, appends the new category with id old length plus one; nothing else changes |
| FinalServer.Store.UpdateCategory | server-final.js:181-199 | 404 and no change when no category has the id; otherwise only the first match is revised |
| FinalServer.Store.DeleteCategory | server-final.js:201-205 | drops every category with the id and leaves the products as they are |
| FinalServer.Store.ListProducts | server-final.js:208-215 | the admin product rows behind the guard |
| FinalServer.Store.CreateProduct | server-final.js:217-239 | guard, then upload outcome, then one product appended with id old length plus one |
| FinalServer.Store.UpdateProduct | server-final.js:241-269 | guard, upload, then 404 or a revision of the first product with the id only |
| FinalServer.Store.DeleteProduct | server-final.js:271-275 | drops every product with the id |
| FinalServer.Store.AdminSettings | server-final.js:278-280 | the settings, without the guard |
| FinalServer.Store.UpdateSettings | server-final.js:282-321 | guard, `logo` upload, then the merge; categories and products unchanged |
| FinalServer.Store.GetMenu | server-final.js:324-335 | the menu of the current lists |
| FinalServer.Store.GetSettings | server-final.js:338-343 | the public settings of the current settings |
| FinalServer.DeleteThenCreateReusesId | server-final.js:167-205 | on the seed data, deleting category 2 and creating one gives a second category with id 4 |
| PerfectServer.AuthMiddleware | server-perfect.js:73-81 | the bearer check with `simple-admin-token` |
| PerfectServer.AcceptedHeaders | server-perfect.js:73-81 | the guard accepts exactly `simple-admin-token` with or without `"Bearer "` inserted at one position |
| PerfectServer.TokenAccepted | server-perfect.js:74-76 | both `Bearer simple-admin-token` and the bare token pass |
| PerfectServer.OtherServersTokenRejected | server-perfect.js:76 | the token server-final.js issues does not pass here |
| PerfectServer.LoginTokenAccepted | server-perfect.js:45-76 | the login's token opens the guard and verify |
| PerfectServer.Available | server-perfect.js:145 | every value but the boolean `false` makes a product available |
| PerfectServer.AvailabilityRulesCompared | server-perfect.js:145 | `!== false` accepts everything `=== "true"` accepts, and also a missing value and `true` |
| PerfectServer.SeedProductsNumbered | server-perfect.js:19-28 | the eight seed products are numbered 1 to 8 |
| PerfectServer.NewProduct | server-perfect.js:139-147 | the new product takes the body's fields and is available unless the body says `false` |
| PerfectServer.ReviseProduct | server-perfect.js:161-168 | an update keeps id and creation time and is available unless the body says `false` |
| PerfectServer.Listed | server-perfect.js:200 | the product carries the category's id and is available |
| PerfectServer.Menu | server-perfect.js:196-204 | one section per category in list order, each with exactly its available products from the list |
| PerfectServer.AdminProducts | server-perfect.js:129-135 | one row per product in list order, with its category label |
| PerfectServer.MergeSettings | server-perfect.js:186-191 | each of the four fields takes the sent value when it is truthy and keeps the old value otherwise, so a filled field is never blanked |
| PerfectServer.MergeIdempotent | server-perfect.js:186-191 | the same update twice equals once |
| PerfectServer.MergeNothing | server-perfect.js:186-191 | an empty update changes nothing |
| PerfectServer.MergeAgreesWithFinal | server-perfect.js:186-191 | this merge is server-final.js's merge on the four shared fields |
| PerfectServer.Store.constructor | server-perfect.js:12-35 | the store starts with the seed data |
| PerfectServer.Store.ListCategories | server-perfect.js:84-86 | the list behind the guard; 401 otherwise |
| PerfectServer.Store.CreateCategory | server-perfect.js:88-100 | appends the new category with id old length plus one |
| PerfectServer.Store.UpdateCategory | server-perfect.js:102-120 | 404 and no change, or a revision of the first match only |
| PerfectServer.Store.DeleteCategory | server-perfect.js:122-126 | drops every category with the id |
| PerfectServer.Store.ListProducts | server-perfect.js:129-135 | the admin product rows behind the guard |
| PerfectServer.Store.CreateProduct | server-perfect.js:137-150 | appends the new product with id old length plus one |
| PerfectServer.Store.UpdateProduct | server-perfect.js:152-171 | 404 and no change, or a revision of the first match only |
| PerfectServer.Store.DeleteProduct | server-perfect.js:173-177 | drops every product with the id |
| PerfectServer.Store.AdminSettings | server-perfect.js:180-182 | the settings, without the guard |
| PerfectServer.Store.UpdateSettings | server-perfect.js:184-193 | behind the guard, the settings become the merge |
| PerfectServer.Store.GetMenu | server-perfect.js:196-204 | the menu of the current lists |
| PerfectServer.DeleteThenCreateReusesId | server-perfect.js:137-177 | on the seed data, deleting product 3 and creating one gives a second product with id 8 |
| SimpleServer.SimpleAuth | server-simple.js:36-50 | 401 exactly for a missing or empty header, 403 for any other header than `Bearer simple-admin-token`, the admin user for that one |
| SimpleServer.SimpleAuthStricterThanPerfect | server-simple.js:44 | what this guard accepts, server-perfect.js's guard accepts; the bare token passes there and is refused here |
| SimpleServer.Login | server-simple.js:92-120 | 400 exactly when a field is missing or empty, checked first; success exactly for admin/admin123; 401 for every other pair |
| SimpleServer.LoginComparedWithPerfect | server-simple.js:95-100 | with both fields present the login equals server-perfect.js's; with one missing it is 400 where that one is 401 |
| SimpleServer.LoginTokenAccepted | server-simple.js:107 | the issued token opens `simpleAuth` and verify |
| SimpleServer.Verify | server-simple.js:123-141 | the admin user exactly for `simple-admin-token`; 401 otherwise |
| SimpleServer.ChangePassword | server-simple.js:144-166 | 400 exactly when a field is missing or empty, 401 exactly when the current password is another one, success otherwise |
| SimpleServer.ChangePasswordStoresNothing | server-simple.js:161-165 | after a successful change the new password still fails to log in and `admin123` still succeeds |
| SimpleServer.SettingsResponse | server-simple.js:56-89 | a found row's columns under camelCase names, with the logo URL present exactly for a non-empty `logo_path`; the fixed defaults when there is no row or the query fails |
| SimpleServer.DefaultColorsMatchSeeds | server-simple.js:74-76 | the default colors are the in-memory servers' seed colors |

## Left out

- Express routing, CORS, JSON and form body parsing, static file serving, and
  `app.listen` are not modelled. Handlers receive already-parsed fields and return
  a `Reply`.
- Response bodies are not modelled beyond the data they carry: `success` flags,
  messages and error text are left out. So is the `...spread` of a record into a
  response.
- `parseFloat(price)` is floating point. A price is an `Option<real>` taken as
  given.
- `parseInt` is not modelled; ids arrive already parsed as `Option<int>`.
- `new Date().toISOString()` is a parameter `now`. Each seed record calls
  `new Date()` on its own (server-final.js:72-75, 87, 97); the model gives them
  all the same `now`, a simplification.
- Request body fields other than `is_available` are modelled as strings
  (`Field`), with `None` for a missing field. A JSON body may carry a number,
  boolean, `null` or object there, which the handlers store as sent (a
  `{"color": 5}` category gets color `5`, server-final.js:173); such non-string
  values are not modelled, only their truthiness through `None` and `""`.
- multer's disk storage and its file names built from `Date.now()` and
  `Math.random()` are not modelled. The stored name is part of the `UploadedFile`
  input.
- A multipart field under another name (multer's `LIMIT_UNEXPECTED_FILE`) is not
  modelled. Nor are the request-level `try`/`catch` blocks, whose bodies cannot
  throw in the model.
- Uploads.Extname covers names without `/`. `file.originalname` is a bare file
  name.
- Strings.ToLowerCase lowers ASCII letters only. Non-ASCII letters cannot reach
  the five allowed words.
- SimpleServer.SettingsResponse takes the database lookup's outcome as input. The
  sqlite query itself is I/O.
- Health endpoints, console logging, directory creation and `server-fixed.js` and
  `server.js` (database pass-through and wiring) are not part of this model.
- Requests are modelled one at a time. Interleaving inside Node's event loop
  cannot occur for these synchronous handlers.
