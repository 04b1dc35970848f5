/** routes/property.py, `create_property` (lines 38-194): the form's JSON is
    decoded, the uploads are saved, and one property record is assembled and
    stored. The whole body runs inside `except Exception`. A refusal once the
    uploads have begun is re-raised as a 500 whose text is the original error's,
    after every file saved so far is removed. A refusal before that (the token
    guard, the account lookup, the form's JSON) finds `file_paths` not yet
    assigned in the handler, which then fails itself: the client gets FastAPI's
    generic 500. */
module PropertyCreate {
  import opened Values
  import opened ObjectIds
  import opened Errors
  import opened Security
  import opened Database
  import Listing
  import FileUtils
  import Uploads
  import Users

  /** The body answered once the record is stored. */
  datatype Created = Created(status: string, propertyId: string)

  /** The token's subject when the route's opening lines get through: the same
      accounts as on the other token-protected routes. */
  function Creator(users: map<ObjectId, Account>, crypto: Crypto, token: string): (r: Option<string>)
    ensures r.Some? <==> Users.Authenticate(users, crypto, token).Ok?
    ensures r.Some? ==> ParseId(r.value) == Some(Users.Authenticate(users, crypto, token).value)
  {
    match TokenSubject(crypto, token)
    case Err(_) => None
    case Ok(None) => None
    case Ok(Some(sub)) =>
      match ParseId(sub)
      case None => None
      case Some(id) => if id in users then Some(sub) else None
  }

  /** `secure_filename` drawing the `k`-th uuid for the `k`-th saved file. */
  function UuidNames(uuids: nat -> string): (string, nat) -> string
  {
    (name: string, k: nat) => FileUtils.SecureFilename(name, uuids(k))
  }

  /** A list of saved paths as stored. */
  function StrList(paths: seq<string>): (v: Value)
    ensures v.List? && |v.items| == |paths|
    ensures forall i :: 0 <= i < |paths| ==> v.items[i] == Str(paths[i])
  {
    List(seq(|paths|, i requires 0 <= i < |paths| => Str(paths[i])))
  }

  /** `image_urls`: one list per category, in the order of the form's fields. */
  function ImageRecord(lists: seq<seq<string>>): (r: Record)
    requires |lists| == |FileUtils.Categories|
    ensures r.Keys == FileUtils.CategorySet
    ensures forall i :: 0 <= i < |lists| ==> r[FileUtils.Categories[i]] == StrList(lists[i])
  {
    map["exterior_view" := StrList(lists[0]), "living_room" := StrList(lists[1]),
        "bedrooms" := StrList(lists[2]), "bathrooms" := StrList(lists[3]),
        "kitchen" := StrList(lists[4]), "floor_plan" := StrList(lists[5]),
        "master_plan" := StrList(lists[6]), "location_map" := StrList(lists[7]),
        "others" := StrList(lists[8])]
  }

  /** `data.get(k, {})`. */
  function Section(d: Record, k: string): Value
  {
    Get(d, k, Obj(map[]))
  }

  /** `{k: features.get(k, default) ...}` over a table of defaults. */
  function Pick(features: Record, defaults: Record): (r: Record)
    ensures r.Keys == defaults.Keys
    ensures forall k :: k in defaults ==> r[k] == Get(features, k, defaults[k])
  {
    map k | k in defaults :: Get(features, k, defaults[k])
  }

  /** The thirteen residential amenities written on creation. */
  const ResidentialCreateDefaults: Record :=
    map["parking" := Listing.No, "lift" := Listing.No, "security" := Listing.No,
        "powerBackup" := Listing.No, "waterSupply" := Listing.No, "boundaryWall" := Listing.No,
        "gatedCommunity" := Listing.No, "bathrooms" := Str("1"),
        "totalFloors" := Listing.NA, "floorNo" := Listing.NA, "furnishing" := Listing.NA,
        "builtupArea" := Listing.NA, "carpetArea" := Listing.NA]

  /** The creation table is the listing's residential defaults plus the five
      re-sourced keys, each defaulting to "N/A". */
  lemma ResidentialCreateTable()
    ensures ResidentialCreateDefaults.Keys == Listing.ResidentialAmenityDefaults.Keys + Listing.ResourcedKeys
    ensures forall k :: k in Listing.ResourcedKeys ==> ResidentialCreateDefaults[k] == Listing.NA
    ensures forall k :: k in Listing.ResidentialAmenityDefaults ==>
      ResidentialCreateDefaults[k] == Listing.ResidentialAmenityDefaults[k]
  {
  }

  /** The six `location` fields, each `location.get(k)`. */
  function LocationOf(loc: Record): (r: Record)
    ensures r.Keys == {"state", "city", "locality", "address", "pinCode", "landmarks"}
    ensures forall k :: k in r ==> r[k] == Get(loc, k, Null)
  {
    map["state" := Get(loc, "state", Null), "city" := Get(loc, "city", Null),
        "locality" := Get(loc, "locality", Null), "address" := Get(loc, "address", Null),
        "pinCode" := Get(loc, "pinCode", Null), "landmarks" := Get(loc, "landmarks", Null)]
  }

  /** The residential `property_data.update`: the two statuses from
      `propertyDetails` and `bhk` from `propertyFeatures`, each null when absent,
      the 13 amenities picked from `propertyFeatures`, and `propertyFeatures` itself. */
  function ResidentialPart(info: Record, features: Record): (r: Record)
    ensures r.Keys == Listing.FamilyKeys
    ensures r["availabilityStatus"] == Get(info, "availabilityStatus", Null)
    ensures r["propertyStatus"] == Get(info, "propertyStatus", Null)
    ensures r["bhk"] == Get(features, "bhk", Null)
    ensures r["amenities"] == Obj(Pick(features, ResidentialCreateDefaults))
    ensures r["propertyFeatures"] == Obj(features)
  {
    map["availabilityStatus" := Get(info, "availabilityStatus", Null),
        "propertyStatus" := Get(info, "propertyStatus", Null),
        "bhk" := Get(features, "bhk", Null),
        "amenities" := Obj(Pick(features, ResidentialCreateDefaults)),
        "propertyFeatures" := Obj(features)]
  }

  /** The land and office `property_data.update`: the two maps only. */
  function MapsPart(amenities: Record, features: Record): (r: Record)
    ensures r.Keys == {"amenities", "propertyFeatures"}
    ensures r["amenities"] == Obj(amenities) && r["propertyFeatures"] == Obj(features)
  {
    map["amenities" := Obj(amenities), "propertyFeatures" := Obj(features)]
  }

  /** The fields the family branch adds with `property_data.update`. */
  function FamilyPart(family: Listing.Family, info: Record, features: Record): (r: Record)
    ensures family == Listing.Residential ==> r.Keys == Listing.FamilyKeys
    ensures family != Listing.Residential ==> r.Keys == {"amenities", "propertyFeatures"}
    ensures "amenities" in r && "propertyFeatures" in r
    ensures r["amenities"].Obj? && r["propertyFeatures"].Obj?
    ensures family == Listing.Residential ==>
      && r["availabilityStatus"] == Get(info, "availabilityStatus", Null)
      && r["propertyStatus"] == Get(info, "propertyStatus", Null)
      && r["bhk"] == Get(features, "bhk", Null)
      && r["amenities"] == Obj(Pick(features, ResidentialCreateDefaults))
      && r["propertyFeatures"] == Obj(features)
    ensures family == Listing.Land ==>
      && r["amenities"] == Obj(Pick(features, Listing.LandAmenityDefaults))
      && r["propertyFeatures"] == Obj(Pick(features, Listing.LandFeatureDefaults))
    ensures family == Listing.Office ==>
      && r["amenities"] == Obj(Pick(features, Listing.OfficeAmenityDefaults))
      && r["propertyFeatures"] == Obj(Pick(features, Listing.OfficeFeatureDefaults))
  {
    match family
    case Residential => ResidentialPart(info, features)
    case Land => MapsPart(Pick(features, Listing.LandAmenityDefaults), Pick(features, Listing.LandFeatureDefaults))
    case Office => MapsPart(Pick(features, Listing.OfficeAmenityDefaults), Pick(features, Listing.OfficeFeatureDefaults))
  }

  /** The form passes every `.get` the route makes on it. */
  predicate FormShaped(data: Value)
  {
    && data.Obj?
    && Section(data.fields, "propertyDetails").Obj?
    && Section(data.fields, "locationDetails").Obj?
    && Section(data.fields, "propertyFeatures").Obj?
  }

  /** The family the form's `propertyType` selects. */
  function FormFamily(data: Value): Listing.Family
    requires FormShaped(data)
  {
    Listing.Classify(Get(Section(data.fields, "propertyDetails").fields, "propertyType", Null))
  }

  /** The fields every new record has. */
  const BaseKeys: set<string> :=
    {"title", "propertyType", "price", "negotiable", "location", "images", "videos",
     "createdAt", "listedBy", "personalDetails"}

  lemma KeysApart()
    ensures BaseKeys !! Listing.FamilyKeys
  {
  }

  /** The dict literal `property_data` starts as, the location, image and video
      values built already. */
  function BaseRecord(d: Record, info: Record, location: Value, images: Value, videos: Value,
                      now: string, sub: string): (r: Record)
    ensures r.Keys == BaseKeys
    ensures r["title"] == Get(info, "title", Null)
    ensures r["propertyType"] == Get(info, "propertyType", Null)
    ensures r["price"] == Get(info, "price", Null)
    ensures r["negotiable"] == Get(info, "negotiable", Null)
    ensures r["location"] == location
    ensures r["images"] == images
    ensures r["videos"] == videos
    ensures r["personalDetails"] == Section(d, "personalDetails")
    ensures r["createdAt"] == Time(now)
    ensures r["listedBy"] == Str(sub)
  {
    map[
      "title" := Get(info, "title", Null),
      "propertyType" := Get(info, "propertyType", Null),
      "price" := Get(info, "price", Null),
      "negotiable" := Get(info, "negotiable", Null),
      "location" := location,
      "images" := images,
      "videos" := videos,
      "createdAt" := Time(now),
      "listedBy" := Str(sub),
      "personalDetails" := Section(d, "personalDetails")]
  }

  /** `property_data`: the shared fields, then the family's. `sub` is the token's
      subject, stored as `listedBy`. */
  function NewRecord(data: Value, imageLists: seq<seq<string>>, videoUrls: seq<string>, now: string, sub: string): Record
    requires FormShaped(data) && |imageLists| == |FileUtils.Categories|
  {
    var d := data.fields;
    var info := Section(d, "propertyDetails").fields;
    var base := BaseRecord(d, info, Obj(LocationOf(Section(d, "locationDetails").fields)),
                           Obj(ImageRecord(imageLists)), StrList(videoUrls), now, sub);
    Spread(base, FamilyPart(FormFamily(data), info, Section(d, "propertyFeatures").fields))
  }

  /** The record assembly raises AttributeError on the first `.get` made on
      something other than a mapping: the decoded form, its `propertyDetails`, its
      `locationDetails`, then its `propertyFeatures`; absent sections read as `{}`. */
  function Assemble(data: Value, imageLists: seq<seq<string>>, videoUrls: seq<string>, now: string, sub: string): (r: Result<Record, Fault>)
    requires |imageLists| == |FileUtils.Categories|
    ensures r.Ok? <==> FormShaped(data)
    ensures !data.Obj? ==> r == Err(AttributeError("formData"))
    ensures data.Obj? ==>
      var d := data.fields;
      && (!Section(d, "propertyDetails").Obj? ==> r == Err(AttributeError("propertyDetails")))
      && (Section(d, "propertyDetails").Obj? && !Section(d, "locationDetails").Obj? ==>
            r == Err(AttributeError("locationDetails")))
      && (Section(d, "propertyDetails").Obj? && Section(d, "locationDetails").Obj? && !Section(d, "propertyFeatures").Obj? ==>
            r == Err(AttributeError("propertyFeatures")))
  {
    if !data.Obj? then Err(AttributeError("formData"))
    else if !Section(data.fields, "propertyDetails").Obj? then Err(AttributeError("propertyDetails"))
    else if !Section(data.fields, "locationDetails").Obj? then Err(AttributeError("locationDetails"))
    else if !Section(data.fields, "propertyFeatures").Obj? then Err(AttributeError("propertyFeatures"))
    else Ok(NewRecord(data, imageLists, videoUrls, now, sub))
  }

  /** What one request amounts to: refused with an error after removing the files
      it saved, or a record to store. */
  datatype Outcome = Refused(error: HttpError, removed: seq<string>) | Stored(record: Record)

  /** The route in closed form. `formData` is the decoded form, `None` when it is
      not JSON; `groups` are the nine image fields in the form's order; `rename`
      names the saved files; `now` is `datetime.now()`. */
  function CreateOutcome(users: map<ObjectId, Account>, crypto: Crypto, token: string, formData: Option<Value>,
                         groups: seq<seq<Uploads.Upload>>, videos: seq<Uploads.Upload>,
                         rename: (string, nat) -> string, now: string): (o: Outcome)
    requires |groups| == |FileUtils.Categories|
    ensures o.Refused? ==> o.error.status == 500
  {
    match Creator(users, crypto, token)
    case None => Refused(InternalServerError, [])
    case Some(sub) =>
      if formData.None? then Refused(InternalServerError, [])
      else
        var all := Uploads.Flatten(groups);
        if !Uploads.Fits(all, Uploads.ImageLimit) then
          Refused(Rewrapped(400, "Image too large (max 10MB)"),
                  Uploads.SavedPaths(Uploads.ImageDir, all[..Uploads.Accepted(all, Uploads.ImageLimit)], rename, 0))
        else
          var images := Uploads.SavedPaths(Uploads.ImageDir, all, rename, 0);
          if !Uploads.Fits(videos, Uploads.VideoLimit) then
            Refused(Rewrapped(400, "Video too large (max 50MB)"),
                    images + Uploads.SavedPaths(Uploads.VideoDir, videos[..Uploads.Accepted(videos, Uploads.VideoLimit)], rename, |all|))
          else
            var videoUrls := Uploads.SavedPaths(Uploads.VideoDir, videos, rename, |all|);
            match Assemble(formData.value, Uploads.CategoryPaths(groups, rename), videoUrls, now, sub)
            case Err(f) => Refused(RewrappedFault(f), images + videoUrls)
            case Ok(record) => Stored(record)
  }

  /** A refused request only ever removes files it saved: the paths removed are the
      first ones of the images-then-videos sequence a full upload saves. */
  lemma RemovedWereSaved(users: map<ObjectId, Account>, crypto: Crypto, token: string, formData: Option<Value>,
                         groups: seq<seq<Uploads.Upload>>, videos: seq<Uploads.Upload>,
                         rename: (string, nat) -> string, now: string)
    requires |groups| == |FileUtils.Categories|
    requires CreateOutcome(users, crypto, token, formData, groups, videos, rename, now).Refused?
    ensures
      var all := Uploads.Flatten(groups);
      var everything := Uploads.SavedPaths(Uploads.ImageDir, all, rename, 0)
                      + Uploads.SavedPaths(Uploads.VideoDir, videos, rename, |all|);
      CreateOutcome(users, crypto, token, formData, groups, videos, rename, now).removed <= everything
  {
    var all := Uploads.Flatten(groups);
    var images := Uploads.SavedPaths(Uploads.ImageDir, all, rename, 0);
    var videoUrls := Uploads.SavedPaths(Uploads.VideoDir, videos, rename, |all|);
    RefusedRemoves(users, crypto, token, formData, groups, videos, rename, now);
    Uploads.SavedPathsPrefix(Uploads.ImageDir, all, Uploads.Accepted(all, Uploads.ImageLimit), rename, 0);
    Uploads.SavedPathsPrefix(Uploads.VideoDir, videos, Uploads.Accepted(videos, Uploads.VideoLimit), rename, |all|);
  }

  /** The files a refusal removes, case by case. */
  lemma RefusedRemoves(users: map<ObjectId, Account>, crypto: Crypto, token: string, formData: Option<Value>,
                       groups: seq<seq<Uploads.Upload>>, videos: seq<Uploads.Upload>,
                       rename: (string, nat) -> string, now: string)
    requires |groups| == |FileUtils.Categories|
    requires CreateOutcome(users, crypto, token, formData, groups, videos, rename, now).Refused?
    ensures
      var removed := CreateOutcome(users, crypto, token, formData, groups, videos, rename, now).removed;
      var all := Uploads.Flatten(groups);
      var images := Uploads.SavedPaths(Uploads.ImageDir, all, rename, 0);
      || removed == []
      || removed == Uploads.SavedPaths(Uploads.ImageDir, all[..Uploads.Accepted(all, Uploads.ImageLimit)], rename, 0)
      || removed == images + Uploads.SavedPaths(Uploads.VideoDir, videos[..Uploads.Accepted(videos, Uploads.VideoLimit)], rename, |all|)
      || removed == images + Uploads.SavedPaths(Uploads.VideoDir, videos, rename, |all|)
  {
  }

  /** `create_property`, with the uuids it draws passed in as `uuids` and
      `datetime.now()` as `now`. `removed` lists the files the handler deletes. */
  method CreateProperty(store: Store, crypto: Crypto, token: string, formData: Option<Value>,
                        groups: seq<seq<Uploads.Upload>>, videos: seq<Uploads.Upload>,
                        uuids: nat -> string, now: string)
    returns (r: Result<Created, HttpError>, removed: seq<string>)
    requires store.Valid() && |groups| == |FileUtils.Categories|
    modifies store
    ensures store.Valid()
    ensures store.users == old(store.users) && store.inquiries == old(store.inquiries)
    ensures
      var outcome := CreateOutcome(old(store.users), crypto, token, formData, groups, videos, UuidNames(uuids), now);
      && (outcome.Refused? ==>
            && r == Err(outcome.error) && removed == outcome.removed
            && store.properties == old(store.properties) && store.nextId == old(store.nextId))
      && (outcome.Stored? ==>
            && r == Ok(Created("success", DecimalText(old(store.nextId)))) && removed == []
            && old(store.nextId) !in old(store.properties)
            && store.properties == old(store.properties)[old(store.nextId) := outcome.record])
  {
    var rename := UuidNames(uuids);
    var user := Creator(store.users, crypto, token);
    if user.None? || formData.None? {
      return Err(InternalServerError), [];
    }
    var imageUrls, filePaths, imageTooLarge := Uploads.SaveImages(groups, rename);
    if imageTooLarge {
      return Err(Rewrapped(400, "Image too large (max 10MB)")), filePaths;
    }
    ghost var all := Uploads.Flatten(groups);
    Uploads.AcceptedAll(all, Uploads.ImageLimit);
    assert all[..|all|] == all;
    var videoUrls, allPaths, videoTooLarge := Uploads.SaveVideos(videos, rename, filePaths);
    if videoTooLarge {
      return Err(Rewrapped(400, "Video too large (max 50MB)")), allPaths;
    }
    Uploads.AcceptedAll(videos, Uploads.VideoLimit);
    assert videos[..|videos|] == videos;
    var property := Assemble(formData.value, imageUrls, videoUrls, now, user.value);
    if property.Err? {
      return Err(RewrappedFault(property.error)), allPaths;
    }
    var id := store.InsertProperty(property.value);
    return Ok(Created("success", DecimalText(id))), [];
  }

  // ---------------------------------------------------------------------
  // What a created record looks like to the listing endpoints.

  /** What listing looks at in a record `create_property` stored: its stamps, its
      family, and the family maps it picked from the form's `propertyFeatures`. */
  predicate Assembled(rec: Record, family: Listing.Family, features: Record, images: Record, now: string, sub: string)
  {
    && "createdAt" in rec && rec["createdAt"] == Time(now)
    && "listedBy" in rec && rec["listedBy"] == Str(sub)
    && "images" in rec && rec["images"] == Obj(images)
    && "negotiable" in rec
    && Listing.Classify(Get(rec, "propertyType", Null)) == family
    && "amenities" in rec && "propertyFeatures" in rec
    && match family
       case Residential =>
         rec["amenities"] == Obj(Pick(features, ResidentialCreateDefaults)) && rec["propertyFeatures"] == Obj(features)
       case Land =>
         && rec["amenities"] == Obj(Pick(features, Listing.LandAmenityDefaults))
         && rec["propertyFeatures"] == Obj(Pick(features, Listing.LandFeatureDefaults))
       case Office =>
         && rec["amenities"] == Obj(Pick(features, Listing.OfficeAmenityDefaults))
         && rec["propertyFeatures"] == Obj(Pick(features, Listing.OfficeFeatureDefaults))
  }

  /** A new record has that shape, in the family its form chose. */
  lemma NewRecordAssembled(data: Value, imageLists: seq<seq<string>>, videoUrls: seq<string>, now: string, sub: string)
    requires FormShaped(data) && |imageLists| == |FileUtils.Categories|
    ensures
      var rec := NewRecord(data, imageLists, videoUrls, now, sub);
      && Assembled(rec, FormFamily(data), Section(data.fields, "propertyFeatures").fields, ImageRecord(imageLists), now, sub)
      && rec["negotiable"] == Get(Section(data.fields, "propertyDetails").fields, "negotiable", Null)
  {
    var d := data.fields;
    var info := Section(d, "propertyDetails").fields;
    var base := BaseRecord(d, info, Obj(LocationOf(Section(d, "locationDetails").fields)),
                           Obj(ImageRecord(imageLists)), StrList(videoUrls), now, sub);
    var part := FamilyPart(FormFamily(data), info, Section(d, "propertyFeatures").fields);
    SpreadParts(base, part);
    assert "createdAt" in base && "listedBy" in base && "images" in base;
    assert "negotiable" in base && "propertyType" in base;
  }

  /** A created record lists under every endpoint, in its own family. */
  lemma AssembledListable(shape: Listing.Shape, id: ObjectId, rec: Record, family: Listing.Family,
                          features: Record, images: Record, now: string, sub: string)
    requires Assembled(rec, family, features, images, now, sub)
    ensures Listing.FamilyOf(Doc(id, rec)) == family
    ensures Listing.Listable(shape, Doc(id, rec))
    ensures Listing.NormalizeListing(shape, Doc(id, rec)).Ok?
  {
    Listing.NormalizeListingSucceeds(shape, Doc(id, rec));
  }

  /** Laying a table's defaults under values already picked from it changes nothing. */
  lemma SpreadPicked(features: Record, defaults: Record)
    ensures Spread(defaults, Pick(features, defaults)) == Pick(features, defaults)
  {
  }

  /** The residential amenities the listing rebuilds from a created record are the
      ones it stored. */
  lemma ResidentialPickedListed(features: Record)
    ensures Listing.ResidentialAmenities(Pick(features, ResidentialCreateDefaults), features)
            == Pick(features, ResidentialCreateDefaults)
  {
    ResidentialCreateTable();
    var picked := Pick(features, ResidentialCreateDefaults);
    var out := Listing.ResidentialAmenities(picked, features);
    assert out.Keys == picked.Keys;
    forall k | k in out
      ensures out[k] == picked[k]
    {
      if k in Listing.ResourcedKeys {
        assert out[k] == Get(features, k, Listing.NA);
      }
    }
  }

  /** Listing a created record shows its `amenities` and `propertyFeatures` exactly as
      stored: every default the listing would add is already there. */
  lemma AssembledMapsListed(shape: Listing.Shape, id: ObjectId, rec: Record, family: Listing.Family,
                            features: Record, images: Record, now: string, sub: string)
    requires Assembled(rec, family, features, images, now, sub)
    ensures Listing.NormalizeListing(shape, Doc(id, rec)).Ok?
    ensures
      var out := Listing.NormalizeListing(shape, Doc(id, rec)).value;
      && "amenities" in out && out["amenities"] == rec["amenities"]
      && "propertyFeatures" in out && out["propertyFeatures"] == rec["propertyFeatures"]
  {
    var doc := Doc(id, rec);
    AssembledListable(shape, id, rec, family, features, images, now, sub);
    Listing.ListedFamilyMaps(shape, doc);
    match family
    case Residential =>
      ResidentialPickedListed(features);
    case Land =>
      SpreadPicked(features, Listing.LandAmenityDefaults);
      SpreadPicked(features, Listing.LandFeatureDefaults);
    case Office =>
      SpreadPicked(features, Listing.OfficeAmenityDefaults);
      SpreadPicked(features, Listing.OfficeFeatureDefaults);
  }

  /** Normalising media that already has exactly the nine categories changes nothing. */
  lemma CategoryRecordNormal(images: Record)
    requires images.Keys == FileUtils.CategorySet
    ensures FileUtils.NormalizeImages(Obj(images)) == images
  {
    var out := FileUtils.NormalizeImages(Obj(images));
    assert out.Keys == images.Keys;
  }

  /** Listing a created record shows its identity, its creation time as text, its
      images, its lister and its `negotiable` as stored. */
  lemma AssembledStampsListed(shape: Listing.Shape, id: ObjectId, rec: Record, family: Listing.Family,
                              features: Record, images: Record, now: string, sub: string)
    requires Assembled(rec, family, features, images, now, sub)
    requires images.Keys == FileUtils.CategorySet
    ensures Listing.NormalizeListing(shape, Doc(id, rec)).Ok?
    ensures
      var out := Listing.NormalizeListing(shape, Doc(id, rec)).value;
      && "id" in out && out["id"] == Str(DecimalText(id))
      && "createdAt" in out && out["createdAt"] == Str(now)
      && "images" in out && out["images"] == rec["images"]
      && "listedBy" in out && out["listedBy"] == Str(sub)
      && "negotiable" in out && out["negotiable"] == rec["negotiable"]
  {
    var doc := Doc(id, rec);
    AssembledListable(shape, id, rec, family, features, images, now, sub);
    Listing.ListedIdentityAndImages(shape, doc);
    Listing.ListedScalars(shape, doc);
    CategoryRecordNormal(images);
  }

  /** The record a successful request stores. */
  lemma StoredRecord(users: map<ObjectId, Account>, crypto: Crypto, token: string, formData: Option<Value>,
                     groups: seq<seq<Uploads.Upload>>, videos: seq<Uploads.Upload>,
                     rename: (string, nat) -> string, now: string)
    requires |groups| == |FileUtils.Categories|
    requires CreateOutcome(users, crypto, token, formData, groups, videos, rename, now).Stored?
    ensures Creator(users, crypto, token).Some? && formData.Some? && FormShaped(formData.value)
    ensures Uploads.Fits(Uploads.Flatten(groups), Uploads.ImageLimit) && Uploads.Fits(videos, Uploads.VideoLimit)
    ensures CreateOutcome(users, crypto, token, formData, groups, videos, rename, now).record
      == NewRecord(formData.value, Uploads.CategoryPaths(groups, rename),
                   Uploads.SavedPaths(Uploads.VideoDir, videos, rename, |Uploads.Flatten(groups)|),
                   now, Creator(users, crypto, token).value)
  {
  }

  /** What `create_property` stores is what every listing endpoint shows back: the
      record lists without error, with the identity it was stored under, its
      creation time, the token's subject as lister, and the images, amenities and
      features exactly as stored. */
  lemma StoredRecordListed(users: map<ObjectId, Account>, crypto: Crypto, token: string, formData: Option<Value>,
                           groups: seq<seq<Uploads.Upload>>, videos: seq<Uploads.Upload>,
                           rename: (string, nat) -> string, now: string, shape: Listing.Shape, id: ObjectId)
    requires |groups| == |FileUtils.Categories|
    requires CreateOutcome(users, crypto, token, formData, groups, videos, rename, now).Stored?
    ensures
      var rec := CreateOutcome(users, crypto, token, formData, groups, videos, rename, now).record;
      && Listing.NormalizeListing(shape, Doc(id, rec)).Ok?
      && var out := Listing.NormalizeListing(shape, Doc(id, rec)).value;
      && "id" in out && out["id"] == Str(DecimalText(id))
      && "createdAt" in out && out["createdAt"] == Str(now)
      && "listedBy" in out && out["listedBy"] == Str(Creator(users, crypto, token).value)
      && "images" in rec && "images" in out && out["images"] == rec["images"]
      && "amenities" in rec && "amenities" in out && out["amenities"] == rec["amenities"]
      && "propertyFeatures" in rec && "propertyFeatures" in out && out["propertyFeatures"] == rec["propertyFeatures"]
  {
    StoredRecord(users, crypto, token, formData, groups, videos, rename, now);
    var data := formData.value;
    var lists := Uploads.CategoryPaths(groups, rename);
    var videoUrls := Uploads.SavedPaths(Uploads.VideoDir, videos, rename, |Uploads.Flatten(groups)|);
    var sub := Creator(users, crypto, token).value;
    var rec := NewRecord(data, lists, videoUrls, now, sub);
    var features := Section(data.fields, "propertyFeatures").fields;
    NewRecordAssembled(data, lists, videoUrls, now, sub);
    AssembledMapsListed(shape, id, rec, FormFamily(data), features, ImageRecord(lists), now, sub);
    AssembledStampsListed(shape, id, rec, FormFamily(data), features, ImageRecord(lists), now, sub);
  }

  /** The fields of a new record taken from the form as given: `title`, `price`,
      `negotiable`, the six location values, the video paths, `personalDetails`,
      and for a residential record the two statuses and `bhk`, each null when the
      form lacks it; the other families have no statuses and no `bhk`. */
  predicate FormFields(rec: Record, family: Listing.Family, info: Record, loc: Record, features: Record,
                       videos: seq<string>, personal: Value)
  {
    && "title" in rec && rec["title"] == Get(info, "title", Null)
    && "price" in rec && rec["price"] == Get(info, "price", Null)
    && "negotiable" in rec && rec["negotiable"] == Get(info, "negotiable", Null)
    && "location" in rec && rec["location"] == Obj(LocationOf(loc))
    && "videos" in rec && rec["videos"] == StrList(videos)
    && "personalDetails" in rec && rec["personalDetails"] == personal
    && (family == Listing.Residential ==>
          && "availabilityStatus" in rec && rec["availabilityStatus"] == Get(info, "availabilityStatus", Null)
          && "propertyStatus" in rec && rec["propertyStatus"] == Get(info, "propertyStatus", Null)
          && "bhk" in rec && rec["bhk"] == Get(features, "bhk", Null))
    && (family != Listing.Residential ==>
          "availabilityStatus" !in rec && "propertyStatus" !in rec && "bhk" !in rec)
  }

  /** A new record holds the form's fields as given. */
  lemma NewRecordForm(data: Value, imageLists: seq<seq<string>>, videoUrls: seq<string>, now: string, sub: string)
    requires FormShaped(data) && |imageLists| == |FileUtils.Categories|
    ensures
      var d := data.fields;
      FormFields(NewRecord(data, imageLists, videoUrls, now, sub), FormFamily(data),
                 Section(d, "propertyDetails").fields, Section(d, "locationDetails").fields,
                 Section(d, "propertyFeatures").fields, videoUrls, Section(d, "personalDetails"))
  {
    var d := data.fields;
    var info := Section(d, "propertyDetails").fields;
    var loc := Section(d, "locationDetails").fields;
    var features := Section(d, "propertyFeatures").fields;
    var base := BaseRecord(d, info, Obj(LocationOf(loc)), Obj(ImageRecord(imageLists)), StrList(videoUrls), now, sub);
    var part := FamilyPart(FormFamily(data), info, features);
    SpreadParts(base, part);
    FormFieldsOf(Spread(base, part), base, part, FormFamily(data), info, loc, features, videoUrls, Section(d, "personalDetails"));
  }

  /** The record keeps every base field and every family field: the two key sets are apart. */
  lemma SpreadParts(base: Record, part: Record)
    requires base.Keys == BaseKeys && part.Keys <= Listing.FamilyKeys
    ensures forall k :: k in base ==> k in Spread(base, part) && Spread(base, part)[k] == base[k]
    ensures forall k :: k in part ==> k in Spread(base, part) && Spread(base, part)[k] == part[k]
    ensures forall k :: k in Spread(base, part) <==> k in base || k in part
  {
    KeysApart();
  }

  lemma FormFieldsOf(rec: Record, base: Record, part: Record, family: Listing.Family, info: Record, loc: Record,
                     features: Record, videos: seq<string>, personal: Value)
    requires base.Keys == BaseKeys
    requires base["title"] == Get(info, "title", Null) && base["price"] == Get(info, "price", Null)
    requires base["negotiable"] == Get(info, "negotiable", Null) && base["location"] == Obj(LocationOf(loc))
    requires base["videos"] == StrList(videos) && base["personalDetails"] == personal
    requires family == Listing.Residential ==> part.Keys == Listing.FamilyKeys
    requires family != Listing.Residential ==> part.Keys == {"amenities", "propertyFeatures"}
    requires family == Listing.Residential ==>
      && part["availabilityStatus"] == Get(info, "availabilityStatus", Null)
      && part["propertyStatus"] == Get(info, "propertyStatus", Null)
      && part["bhk"] == Get(features, "bhk", Null)
    requires forall k :: k in base ==> k in rec && rec[k] == base[k]
    requires forall k :: k in part ==> k in rec && rec[k] == part[k]
    requires forall k :: k in rec <==> k in base || k in part
    ensures FormFields(rec, family, info, loc, features, videos, personal)
  {
    assert "title" in base && "price" in base && "negotiable" in base;
    assert "location" in base && "videos" in base && "personalDetails" in base;
    if family == Listing.Residential {
      assert "availabilityStatus" in part && "propertyStatus" in part && "bhk" in part;
    } else {
      assert "availabilityStatus" !in base && "propertyStatus" !in base && "bhk" !in base;
    }
  }

  /** What listing shows of the form's fields: `title`, `price`, `negotiable`,
      `location`, `videos` and `personalDetails` as the form gave them; the two
      statuses and `bhk` as the form gave them for a residential record, null
      included, and "N/A" for the other families. */
  predicate ListedAsForm(out: Record, family: Listing.Family, info: Record, loc: Record, features: Record,
                         videos: seq<string>, personal: Value)
  {
    && "title" in out && out["title"] == Get(info, "title", Null)
    && "price" in out && out["price"] == Get(info, "price", Null)
    && "negotiable" in out && out["negotiable"] == Get(info, "negotiable", Null)
    && "location" in out && out["location"] == Obj(LocationOf(loc))
    && "videos" in out && out["videos"] == StrList(videos)
    && "personalDetails" in out && out["personalDetails"] == personal
    && "availabilityStatus" in out
    && out["availabilityStatus"] == (if family == Listing.Residential then Get(info, "availabilityStatus", Null) else Listing.NA)
    && "propertyStatus" in out
    && out["propertyStatus"] == (if family == Listing.Residential then Get(info, "propertyStatus", Null) else Listing.NA)
    && "bhk" in out
    && out["bhk"] == (if family == Listing.Residential then Get(features, "bhk", Null) else Listing.NA)
  }

  /** The form's fields of a created record come back through every listing
      loop shape as the form gave them; the listing defaults apply only to the
      statuses and `bhk` of a non-residential record, which has none. */
  lemma FormFieldsListed(shape: Listing.Shape, id: ObjectId, rec: Record, family: Listing.Family,
                         info: Record, loc: Record, features: Record, videos: seq<string>, personal: Value,
                         images: Record, now: string, sub: string)
    requires Assembled(rec, family, features, images, now, sub)
    requires FormFields(rec, family, info, loc, features, videos, personal)
    ensures Listing.NormalizeListing(shape, Doc(id, rec)).Ok?
    ensures ListedAsForm(Listing.NormalizeListing(shape, Doc(id, rec)).value, family, info, loc, features, videos, personal)
  {
    var doc := Doc(id, rec);
    AssembledListable(shape, id, rec, family, features, images, now, sub);
    Listing.ListingKeepsOtherFields(shape, doc);
    Listing.ListedScalars(shape, doc);
    Listing.ListedLocationAndDescription(shape, doc);
    TitleFieldsUntouched();
  }

  /** The form's pass-through fields are none the listing loop writes. */
  lemma TitleFieldsUntouched()
    ensures "title" !in Listing.Touched && "price" !in Listing.Touched
    ensures "videos" !in Listing.Touched && "personalDetails" !in Listing.Touched
  {
  }

  /** End to end: what a successful request stores lists, under every loop shape,
      with the form's fields as the form gave them; a residential record's
      statuses and `bhk` keep a null the form left, the listing default does not
      replace it. */
  lemma StoredFormListed(users: map<ObjectId, Account>, crypto: Crypto, token: string, formData: Option<Value>,
                         groups: seq<seq<Uploads.Upload>>, videos: seq<Uploads.Upload>,
                         rename: (string, nat) -> string, now: string, shape: Listing.Shape, id: ObjectId)
    requires |groups| == |FileUtils.Categories|
    requires CreateOutcome(users, crypto, token, formData, groups, videos, rename, now).Stored?
    ensures formData.Some? && FormShaped(formData.value)
    ensures
      var rec := CreateOutcome(users, crypto, token, formData, groups, videos, rename, now).record;
      var d := formData.value.fields;
      && Listing.NormalizeListing(shape, Doc(id, rec)).Ok?
      && ListedAsForm(Listing.NormalizeListing(shape, Doc(id, rec)).value, FormFamily(formData.value),
                      Section(d, "propertyDetails").fields, Section(d, "locationDetails").fields,
                      Section(d, "propertyFeatures").fields,
                      Uploads.SavedPaths(Uploads.VideoDir, videos, rename, |Uploads.Flatten(groups)|),
                      Section(d, "personalDetails"))
  {
    StoredRecord(users, crypto, token, formData, groups, videos, rename, now);
    var data := formData.value;
    var d := data.fields;
    var lists := Uploads.CategoryPaths(groups, rename);
    var videoUrls := Uploads.SavedPaths(Uploads.VideoDir, videos, rename, |Uploads.Flatten(groups)|);
    var sub := Creator(users, crypto, token).value;
    var rec := NewRecord(data, lists, videoUrls, now, sub);
    var features := Section(d, "propertyFeatures").fields;
    NewRecordAssembled(data, lists, videoUrls, now, sub);
    NewRecordForm(data, lists, videoUrls, now, sub);
    FormFieldsListed(shape, id, rec, FormFamily(data), Section(d, "propertyDetails").fields,
                     Section(d, "locationDetails").fields, features, videoUrls, Section(d, "personalDetails"),
                     ImageRecord(lists), now, sub);
  }

  // ---------------------------------------------------------------------
  // The saved files.

  /** A stored record's media holds the category lists the image loop built. */
  lemma StoredImages(users: map<ObjectId, Account>, crypto: Crypto, token: string, formData: Option<Value>,
                     groups: seq<seq<Uploads.Upload>>, videos: seq<Uploads.Upload>,
                     rename: (string, nat) -> string, now: string)
    requires |groups| == |FileUtils.Categories|
    requires CreateOutcome(users, crypto, token, formData, groups, videos, rename, now).Stored?
    ensures
      var rec := CreateOutcome(users, crypto, token, formData, groups, videos, rename, now).record;
      "images" in rec && rec["images"] == Obj(ImageRecord(Uploads.CategoryPaths(groups, rename)))
  {
    StoredRecord(users, crypto, token, formData, groups, videos, rename, now);
    var lists := Uploads.CategoryPaths(groups, rename);
    var videoUrls := Uploads.SavedPaths(Uploads.VideoDir, videos, rename, |Uploads.Flatten(groups)|);
    NewRecordAssembled(formData.value, lists, videoUrls, now, Creator(users, crypto, token).value);
  }

  /** uuid4 text is 36 characters long. */
  const UuidLength := 36

  /** The path of the `k`-th saved file begins with its directory and the `k`-th uuid. */
  lemma SavedPathPrefix(dir: string, file: Uploads.Upload, uuids: nat -> string, k: nat)
    requires |uuids(k)| == UuidLength
    ensures
      var path := Uploads.SavedPath(dir, file, UuidNames(uuids), k);
      |path| >= |dir| + UuidLength && path[..|dir| + UuidLength] == dir + uuids(k)
  {
    var name := FileUtils.SecureFilename(file.filename, uuids(k));
    assert Uploads.SavedPath(dir, file, UuidNames(uuids), k) == dir + name;
    assert (dir + name)[..|dir| + UuidLength] == dir + name[..UuidLength];
  }

  /** With distinct uuids, no two files a request saves share a path, the images
      and the videos together: no upload overwrites another. */
  lemma SavedPathsDistinct(images: seq<Uploads.Upload>, videos: seq<Uploads.Upload>, uuids: nat -> string)
    requires forall k :: |uuids(k)| == UuidLength
    requires forall k, l :: k != l ==> uuids(k) != uuids(l)
    ensures
      var paths := Uploads.SavedPaths(Uploads.ImageDir, images, UuidNames(uuids), 0)
                 + Uploads.SavedPaths(Uploads.VideoDir, videos, UuidNames(uuids), |images|);
      forall i, j :: 0 <= i < j < |paths| ==> paths[i] != paths[j]
  {
    var rename := UuidNames(uuids);
    var paths := Uploads.SavedPaths(Uploads.ImageDir, images, rename, 0)
               + Uploads.SavedPaths(Uploads.VideoDir, videos, rename, |images|);
    forall i, j | 0 <= i < j < |paths|
      ensures paths[i] != paths[j]
    {
      var di, fi := PathAt(images, videos, uuids, i);
      var dj, fj := PathAt(images, videos, uuids, j);
      SavedPathPrefix(di, fi, uuids, i);
      SavedPathPrefix(dj, fj, uuids, j);
      assert paths[i][..|di| + UuidLength] == di + uuids(i);
      assert paths[j][..|dj| + UuidLength] == dj + uuids(j);
      assert (di + uuids(i))[|di|..] == uuids(i);
      assert (dj + uuids(j))[|dj|..] == uuids(j);
    }
  }

  /** The directory and the upload behind the `k`-th saved path. */
  lemma PathAt(images: seq<Uploads.Upload>, videos: seq<Uploads.Upload>, uuids: nat -> string, k: nat)
    returns (dir: string, file: Uploads.Upload)
    requires k < |images| + |videos|
    ensures |dir| == |Uploads.ImageDir|
    ensures
      var paths := Uploads.SavedPaths(Uploads.ImageDir, images, UuidNames(uuids), 0)
                 + Uploads.SavedPaths(Uploads.VideoDir, videos, UuidNames(uuids), |images|);
      paths[k] == Uploads.SavedPath(dir, file, UuidNames(uuids), k)
  {
    var rename := UuidNames(uuids);
    if k < |images| {
      Uploads.SavedPathsAt(Uploads.ImageDir, images, rename, 0, k);
      dir, file := Uploads.ImageDir, images[k];
    } else {
      Uploads.SavedPathsAt(Uploads.VideoDir, videos, rename, |images|, k - |images|);
      dir, file := Uploads.VideoDir, videos[k - |images|];
    }
  }
}
