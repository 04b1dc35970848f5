# DreamHome property-listing backend, modelled in Dafny

DreamHome is a FastAPI backend over a MongoDB database. It offers these endpoints:

- register an account, log in, read and edit the account;
- create a property listing, with uploaded images and videos;
- list properties in five ways: the owner's own, all, filtered, the four newest offices, the four newest land plots;
- send an inquiry to a property's owner.

This project models what these endpoints compute and how they change the three collections. The Mongo engine, the disk, the clock and the cryptography are not modelled.

Modules (one file each):

- `Values` (values.dfy): records as `map<string, Value>`, and the two dict idioms the routes are written in.
  - `{**a, **b}` is `Spread`.
  - `d[k] = d.get(k, default)` is `KeepOrDefault`.
  - Key presence is explicit, so a stored null is kept where `dict.get` keeps it.
- `ObjectIds`: store identities. An identity is a counter, printed and parsed as decimal text.
- `Errors`: the Python exceptions the route bodies raise, and the HTTP error a client receives. It separates three cases:
  - an `HTTPException` raised directly;
  - one re-raised by a route's `except Exception as e: raise HTTPException(500, str(e))`;
  - FastAPI's generic 500.
- `Security`: hashing and tokens, carried as functions (`Crypto`), and the token guard the protected routes open with.
- `Database`: the three collections as maps inside a `Store` class, with one identity counter, and the unique-email invariant over accounts.
- `FileUtils`: `normalize_images_field` and `secure_filename`, with the uuid passed in.
- `Listing`: the pure core of the listing loop bodies:
  - the property-type classifier;
  - the family default tables;
  - one pass of the per-record normalisation (`NormalizeListing`), for the three shapes the five endpoints take.
- `PropertyQuery`: the filter parameters and the inert query document `get_filtered_properties` builds from them, statement by statement, in a method.
- `ListingRoutes`: the five listing endpoints as methods. Each runs the loop over the fetched documents and answers the first fault wrapped as that endpoint wraps it.
- `Auth`, `Users`, `Contact`: the account, profile and inquiry routes, as methods on the `Store`.
- `Uploads`: the nested image loop and the video loop of `create_property`, as methods.
  - They build the per-category path lists and the cleanup list `file_paths`.
  - They stop at the first file over its size cap.
- `PropertyCreate`: the whole of `create_property`.
  - `CreateOutcome` gives the route in closed form; the `CreateProperty` method is proved against it.
  - It also holds the record assembly, and the proof that a created record passes every listing loop shape without error, with its fields shown as stored.

`create_property` has two kinds of 500:
- A refusal raised before `file_paths = []` (the token guard, the account lookup, an undecodable form) finds `file_paths` unassigned in the handler. The handler then fails itself, so the client gets FastAPI's generic 500 and nothing is removed.
- A refusal after that point (a file over its cap, a malformed form section) is re-raised as a 500 carrying the original error's text. Every file saved so far is removed first.

Points where the code's behaviour may be unexpected, all modelled as the code has them:
- An oversize file, a bad price bound and a missing property are raised as 400 or 404 inside a route's own `except Exception` handler. The client therefore gets a 500 whose text is "400: ..." or "404: ...".
- There are nine media categories, and the contact number is stored as given, with no check that it is digits.
- The residential property types are exactly Flat, Apartment, Villa, House and Farm House.

## Model

| member | source | states |
|---|---|---|
| Values.Spread | routes/property.py:217-230 | `{**under, **over}` has the keys of both; the right side wins on shared keys, and the left side's value stays elsewhere |
| Values.Get | routes/property.py:209-210 | `d.get(k, default)`: the stored value, null included, when k is present; its behaviour in the routes is stated by `KeepOrDefault` and `Listing.ListedScalars` |
| Values.KeepOrDefault | routes/property.py:210 | `d[k] = d.get(k, default)` writes the default only when k is absent; a present value, null included, is kept, and no other key changes |
| ObjectIds.DecimalText | routes/property.py:207 | `str(_id)` is a non-empty digit text without leading zeros; `ParseIdText` gives it back its identity |
| ObjectIds.ParseId | routes/user.py:30 | `ObjectId(text)` succeeds exactly on texts `DecimalText` produces; otherwise it raises (here `None`) |
| ObjectIds.ParseIdText | routes/auth.py:35 | the identity text written into a token parses back to the same identity |
| ObjectIds.DecimalTextInjective | routes/property.py:189 | distinct identities print as distinct texts |
| Security.TokenSubject | routes/user.py:26-29 | a token that does not decode, or decodes to empty claims, is refused with 401 "Invalid token"; otherwise the subject is the `sub` claim, or absent |
| Database.FindByEmail | routes/auth.py:20 | the lookup finds an account with the email exactly when one exists |
| Database.InsertKeepsUnique | routes/auth.py:20-27 | adding an account under a fresh identity, with an email no one has, keeps emails unique |
| Database.RewriteKeepsUnique | routes/user.py:44-47 | rewriting one account keeps emails unique when the new email is its own or no one's |
| Database.Store.InsertUser | database.py:12 | `insert_one` on accounts adds exactly one account under a fresh identity; the other collections are unchanged |
| Database.Store.UpdateUser | routes/user.py:47 | `update_one` replaces that one account only |
| Database.Store.InsertProperty | routes/property.py:188 | `insert_one` on properties adds exactly one record under a fresh identity |
| Database.Store.InsertInquiry | routes/contact.py:30 | `insert_one` on inquiries adds exactly one inquiry under a fresh identity |
| Auth.LoginClaims | routes/auth.py:35 | a token's claims are exactly `sub` (the identity as text) and `email` |
| Auth.Register | routes/auth.py:18-28 | a taken email gets 400 "User already exists" and leaves the store as it was; otherwise exactly one account is added, holding the password's hash; unique emails are preserved |
| Auth.Login | routes/auth.py:30-36 | an unknown email and a wrong password get the same 401 "Invalid credentials"; a success is a bearer token issued for the claims of the account found; with unique emails, it succeeds exactly when the password verifies, and the token names the only account holding the email; the store is not touched |
| Users.Authenticate | routes/user.py:26-32 | 401 for a token the guard refuses; 404 when no account has the subject, an absent subject included; a subject that is not an identity escapes as the generic 500; otherwise the account's identity |
| Users.LoginTokenAuthenticates | routes/user.py:26-32 | a token `login` issued resolves to the account that logged in, whenever decoding it yields claims whose `sub` is that account's identity |
| Users.GetUser | routes/user.py:24-33 | a refusal is the one `Authenticate` gives; otherwise only the name and email of that account are answered, never the password |
| Users.UpdateUser | routes/user.py:35-48 | moving to an email another account uses gets 400 "Email already in use" and changes nothing; keeping one's own email is allowed; otherwise only this account's name and email change and its password is kept; unique emails are preserved; nothing is inserted, so the identity counter is unchanged |
| Users.ChangePassword | routes/user.py:50-63 | a wrong current password gets 400 "Current password is incorrect" and changes nothing; otherwise only this account's password becomes the new password's hash; the identity counter is unchanged |
| Contact.ContactNoOf | routes/contact.py:25 | an absent or empty contact number is stored as "", any other as given |
| Contact.InquiryOf | routes/contact.py:23-29 | the inquiry holds the request's name, message and property id verbatim, the contact number as above, and the time passed in |
| Contact.ContactOwner | routes/contact.py:15-33 | a property id that is not an identity, or names no property, stores nothing and leaves the identity counter unchanged; its error is re-raised by the handler as a 500 ("404: Property not found" for the missing property); otherwise exactly one inquiry is added and the other collections are unchanged |
| FileUtils.DefaultImagesShape | utils/file_utils.py:48-58 | the default media map has exactly the nine categories, all empty |
| FileUtils.NormalizeImages | utils/file_utils.py:47-64 | a list becomes "others" beside eight empty categories; a mapping keeps all its keys and values, and the missing categories are empty; anything else gives the nine empty categories |
| FileUtils.NormalizeImagesIdempotent | utils/file_utils.py:47-64 | normalising a normalised media map changes nothing |
| FileUtils.ExtensionOf | utils/file_utils.py:21 | the extension is the suffix after the last dot, contains no dot, and is empty when the name has no dot |
| FileUtils.SecureFilename | utils/file_utils.py:20-22 | the saved name is the uuid, followed by "." and the extension exactly when the extension is non-empty (so "a." gives the bare uuid) |
| FileUtils.SecureFilenameIgnoresBaseName | utils/file_utils.py:21-22 | names with the same extension are saved under the same name: no other part of the uploaded name reaches it |
| Listing.Classify | routes/property.py:203-204 | a type in the five residential texts is Residential, a type in the three land texts is Land, and anything else is Office, an absent or non-text type included |
| Listing.MergeField | routes/property.py:236-242 | `{**defaults, **d.get(k, {})}` raises TypeError exactly when the stored value is not a mapping; otherwise the defaults lie under the stored map |
| Listing.StatusDefaults | routes/property.py:213-215 | the three scalar defaults are written only where absent, and no other key changes |
| Listing.LegacyLocation | routes/property.py:288-289 | a text `location` is rewritten as `{"city": text, "state": ""}`; what the public listings show is stated by `ListedLocationAndDescription` |
| Listing.NormalizeListing | routes/property.py:206-276 | one pass of a listing endpoint's loop body over a stored document; what it raises is stated by `NormalizeListingSucceeds`, what it answers by the `Listed*` lemmas and `ListingKeepsOtherFields` |
| Listing.NormalizeListingSucceeds | routes/property.py:206-276 | one pass of the loop body raises exactly when `createdAt` is missing or not a datetime, or when a family map it spreads or reads is not a mapping |
| Listing.ListedFamilyMaps | routes/property.py:212-274 | the output `amenities` and `propertyFeatures` are the family's: residential amenities rebuilt around `propertyFeatures`, which is kept; land and office maps laid over their defaults; filtered land `amenities` left as stored |
| Listing.StoredValuesSurvive | routes/property.py:217-274 | every key a stored family map holds keeps its stored value, except the five residential amenities re-sourced from `propertyFeatures` |
| Listing.DefaultsFillGaps | routes/property.py:236-274 | every default key of the family is present, holding the default when the stored map lacks it |
| Listing.ResidentialResourcing | routes/property.py:216-229 | for residential records the five re-sourced amenities equal `propertyFeatures[k]`, or "N/A" when it lacks k, whatever `amenities` held |
| Listing.ListedScalars | routes/property.py:210-215 | `negotiable`, `listedBy`, `bhk`, `availabilityStatus` and `propertyStatus` take their family default only when absent; present values, null included, are kept |
| Listing.ListedLocationAndDescription | routes/property.py:288-290 | outside the owner's listing, a text `location` becomes `{"city": text, "state": ""}`, any other is kept, and `description` defaults to ""; the owner's listing keeps both as stored |
| Listing.ListedIdentityAndImages | routes/property.py:207-209 | `id` is the identity's text, `createdAt` the datetime's ISO text, and `images` the normalised media map |
| Listing.ListingKeepsOtherFields | routes/property.py:206-276 | no stored field is dropped, only the listed keys are written, and every other field passes through unchanged |
| Listing.SharedStepsLocation | routes/property.py:432-434 | the location and description steps of the filtered listing, as above |
| ListingRoutes.NormalizeAll | routes/property.py:285-360 | the loop succeeds exactly when every document is listable, and then answers each reshaped in order; otherwise it fails with the first document's fault |
| ListingRoutes.AnswersUnique | routes/property.py:279-362 | an endpoint's answer is determined by the documents it fetched |
| ListingRoutes.Limit | routes/property.py:507 | `.limit(4)` keeps the first four documents, in order, and all of them when there are at most four |
| ListingRoutes.GetUserProperties | routes/property.py:196-277 | 401 for a refused token; otherwise the owner's documents through the owner-shaped loop, with a fault escaping as the generic 500 |
| ListingRoutes.GetProperties | routes/property.py:279-362 | every document through the public loop; a fault is re-raised as a 500 carrying it |
| ListingRoutes.GetOfficeProperties | routes/property.py:501-584 | the first four office documents, newest first, through the public loop; at most four answered |
| ListingRoutes.GetLandProperties | routes/property.py:586-669 | the first four land documents, newest first, through the public loop; at most four answered |
| ListingRoutes.GetFilteredProperties | routes/property.py:364-499 | an unreadable price bound gives "400: Invalid price format" as a 500, before any query; otherwise the query the parameters describe, through the filtered loop |
| PropertyQuery.BuildQuery | routes/property.py:384-424 | an unreadable price bound is refused with 400; otherwise each supplied parameter adds exactly its own clause under its field path, and nothing else is added |
| PropertyQuery.ExpectedClauses | routes/property.py:384-424 | the query holds a clause exactly at each supplied path, and each path holds its own clause |
| PropertyQuery.ExpectedEmpty | routes/property.py:384-424 | with no parameters, or only empty ones, the query is empty |
| Uploads.SaveImages | routes/property.py:66-83 | it stops exactly when some image is over 10 MiB, and an image of exactly 10 MiB is accepted; `file_paths` holds the paths of the images before the first oversize one, in order; without a refusal each category gets its own files' paths, in upload order |
| Uploads.SaveCategory | routes/property.py:76-83 | one category's inner loop extends its list and `file_paths` by its files' paths, or stops at its first oversize image |
| Uploads.TooLargeImage | routes/property.py:77-78 | an oversize image stops the loop with `file_paths` holding every image saved before it |
| Uploads.SaveVideos | routes/property.py:85-93 | it stops exactly when some video is over 50 MiB; `video_urls` holds the videos before the first oversize one, and `file_paths` is the image paths followed by them |
| Uploads.FitsEach | routes/property.py:76-93 | the files pass their cap exactly when every size is at most the cap |
| Uploads.AcceptedAll | routes/property.py:76-78 | the loop saves every file exactly when all of them pass the cap |
| Uploads.AcceptedStops | routes/property.py:76-78 | the files saved are all within the cap, and the one the loop stops at is over it |
| Uploads.SavedPathsAt | routes/property.py:79-80 | the k-th saved path is the directory joined with the name drawn for the k-th file |
| Uploads.CategoryPathsAt | routes/property.py:71-82 | each category's list holds the paths of that category's files, numbered after every earlier category's |
| Uploads.CategoryPathsConcat | routes/property.py:82-83 | the category lists, laid end to end, are exactly the image part of `file_paths` |
| PropertyCreate.Creator | routes/property.py:54-60 | the route gets past its opening lines exactly when `Authenticate` accepts the token, and the subject it keeps names that account |
| PropertyCreate.ImageRecord | routes/property.py:66-69 | `image_urls` has exactly the nine category keys, each holding its list |
| PropertyCreate.FamilyPart | routes/property.py:122-186 | residential records store the two statuses and `bhk` from the form, null when absent, the 13 amenities as `features.get(k, default)` and `propertyFeatures` verbatim; land and office records store exactly their listed keys, each `features.get(k, default)` |
| PropertyCreate.LocationOf | routes/property.py:107-114 | the stored `location` has exactly the six keys, each `location.get(k)`, null when the form lacks it |
| PropertyCreate.ResidentialPart | routes/property.py:122-143 | the residential update holds the two statuses from `propertyDetails` and `bhk` from `propertyFeatures`, each null when absent, the 13 picked amenities and `propertyFeatures` verbatim |
| PropertyCreate.BaseRecord | routes/property.py:102-120 | the ten shared fields of a new record: `title`, `propertyType`, `price` and `negotiable` as the form gave them (null when absent), the location, image and video values, the creation time, the token's subject as `listedBy`, and `personalDetails` |
| PropertyCreate.NewRecord | routes/property.py:102-186 | `property_data`: the shared fields, then the family's; its shape is stated by `NewRecordAssembled` and `NewRecordForm` |
| PropertyCreate.NewRecordForm | routes/property.py:102-143 | a new record holds `title`, `price`, `negotiable`, the six location values, the video paths and `personalDetails` as the form gave them; a residential one holds the statuses and `bhk` from the form, null when absent; the other families have none of the three |
| PropertyCreate.Assemble | routes/property.py:95-186 | assembly fails exactly when the decoded form, its `propertyDetails`, `locationDetails` or `propertyFeatures` has no `.get`, with AttributeError on the first of these in that order |
| PropertyCreate.CreateOutcome | routes/property.py:38-194 | the route in closed form: a generic 500 with nothing removed for a refusal before `file_paths` exists, a re-raised 500 with the saved paths removed after it, or the record to store; every refusal has status 500, and `CreateProperty` is proved against it |
| PropertyCreate.CreateProperty | routes/property.py:38-194 | the route does what `CreateOutcome` describes: a refusal answers its error, removes its files and stores nothing; otherwise exactly one record is stored under a fresh identity and its text is answered |
| PropertyCreate.RemovedWereSaved | routes/property.py:190-194 | a refused request removes only files it saved: a prefix of the images-then-videos paths of a full upload |
| PropertyCreate.SavedPathsDistinct | routes/property.py:79-93 | with distinct 36-character uuids, all the paths one request saves are pairwise distinct, so no upload overwrites another |
| PropertyCreate.StoredImages | routes/property.py:115 | the stored `images` are the category lists the image loop built |
| PropertyCreate.NewRecordAssembled | routes/property.py:102-186 | a new record has the stamps, the family and the family maps the form chose |
| PropertyCreate.AssembledListable | routes/property.py:206-276 | a created record passes every listing loop shape (owner, public, filtered) without error, in its own family |
| PropertyCreate.ResidentialPickedListed | routes/property.py:127-141 | the residential amenities the listing rebuilds from a created record are the ones stored |
| PropertyCreate.AssembledMapsListed | routes/property.py:212-274 | listing a created record shows its `amenities` and `propertyFeatures` exactly as stored |
| PropertyCreate.AssembledStampsListed | routes/property.py:207-276 | listing a created record shows its identity, its creation time as text, its images, its lister and `negotiable` as stored |
| PropertyCreate.StoredRecordListed | routes/property.py:38-277 | what `create_property` stores passes every listing loop shape without error, showing its identity, creation time, lister, images, amenities and features as stored |
| PropertyCreate.FormFieldsListed | routes/property.py:206-290 | a created record's `title`, `price`, `negotiable`, `location`, `videos` and `personalDetails` pass every listing loop shape as stored; a residential record's statuses and `bhk` are shown as stored, null included; the other families show "N/A" |
| PropertyCreate.StoredFormListed | routes/property.py:38-290 | end to end: what a successful request stores is shown by every listing loop shape with the form's fields as the form gave them; a null status or `bhk` of a residential form stays null |

## Left out

- Disk and S3: `save_file`, `save_file_to_s3`, `os.makedirs`, the `os.path.exists`/`os.remove` cleanup and the static mount are I/O. The model keeps only the list of paths the handler removes; whether a file exists is not modelled.
- Mongo query evaluation: regex matching, `find`, `sort("createdAt", -1)` and the cursor order are left to the store. Each is a function parameter returning the documents in their order; the query is an inert datatype.
- ObjectId format: identities are counters printed as decimal text, not 24-digit hexadecimal. On an absent subject, `ObjectId(None)` draws a fresh identity; the model reads this as an identity no account has.
- `float()` for the price bounds is a partial parse function passed in, so floating point is not modelled.
- `datetime.now()`, `.isoformat()` and `uuid.uuid4()` are parameters: `now`, the `iso` text of a stored datetime, and `uuids`.
- `hash_password`, `verify_password`, `create_access_token` and `decode_access_token` are uninterpreted functions in `Crypto`.
- `json.loads` is the caller's: the form arrives decoded, with `None` for text that is not JSON.
- FastAPI and pydantic are not modelled: request validation, `EmailStr`, response-model validation of the listing answers, and dict key order.
- The messages `str(e)` gives for Python's built-in exceptions are not modelled; a fault names its kind and the field involved.
- `UploadFile.size` is a natural number; an unknown (None) size is not modelled.
- Concurrency is not modelled: the store is sequential, so the check-then-insert race on emails is out.
- Users.UpdateUser: it replaces the account whole with the same password, where the code sets only `name` and `email`. An account here has no other fields, so the two agree.
- PropertyCreate.CreateOutcome: its own ensures only fixes the status of a refusal at 500; what it computes is stated by `CreateProperty`, `RemovedWereSaved`, `StoredImages` and `StoredRecordListed`.
