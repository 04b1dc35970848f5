/** routes/property.py, listing side: the property-type classifier, the family
    default tables, and the normalisation every listing endpoint applies to each
    stored record before answering. */
module Listing {
  import opened Values
  import opened ObjectIds
  import opened Errors
  import opened Security
  import FileUtils

  datatype Family = Residential | Land | Office

  const ResidentialTypes: seq<string> := ["Flat", "Apartment", "Villa", "House", "Farm House"]
  const LandTypes: seq<string> := ["Residential Land", "Commercial Land", "Agriculture Land"]

  /** The if/elif/else dispatch on `propertyType`: membership in the two literal
      lists, and Office for everything else, a missing or non-text type included. */
  function Classify(propertyType: Value): (f: Family)
    ensures f == Residential <==> propertyType.Str? && propertyType.s in ResidentialTypes
    ensures f == Land <==> propertyType.Str? && propertyType.s in LandTypes
    ensures f == Office <==> !(propertyType.Str? && (propertyType.s in ResidentialTypes || propertyType.s in LandTypes))
  {
    if propertyType.Str? && propertyType.s in ResidentialTypes then Residential
    else if propertyType.Str? && propertyType.s in LandTypes then Land
    else Office
  }

  const No := Str("No")
  const NA := Str("N/A")
  const NotAvailable := Str("Not Available")

  const ResidentialAmenityDefaults: Record :=
    map["parking" := No, "lift" := No, "security" := No, "powerBackup" := No,
        "waterSupply" := No, "boundaryWall" := No, "gatedCommunity" := No, "bathrooms" := Str("1")]

  /** The residential amenities that are always taken from `propertyFeatures`. */
  const ResourcedKeys: set<string> := {"totalFloors", "floorNo", "furnishing", "builtupArea", "carpetArea"}

  const LandAmenityDefaults: Record :=
    map["parking" := No, "security" := No, "powerBackup" := No,
        "waterSupply" := No, "boundaryWall" := No, "gatedCommunity" := No]

  const LandFeatureDefaults: Record :=
    map["areaUnit" := NA, "areaValue" := NA, "anyConstructionDone" := No,
        "plotFacing" := NA, "transactionType" := NA, "roadAccessType" := NA]

  const OfficeAmenityDefaults: Record :=
    map["parking" := No, "security" := No, "powerBackup" := No,
        "waterSupply" := No, "boundaryWall" := No, "gatedCommunity" := No,
        "lift" := No, "internet" := No, "publicTransport" := No,
        "pantry" := NotAvailable, "washroom" := NotAvailable]

  const OfficeFeatureDefaults: Record :=
    map["carpetArea" := NA, "floorNo" := NA, "furnishing" := NA,
        "cabins" := NA, "workstations" := NA, "roadAccessType" := NA]

  /** The stored map under `k`, `{}` when the key is absent. */
  function StoredMap(fields: Record, k: string): Record
  {
    if k in fields && fields[k].Obj? then fields[k].fields else map[]
  }

  /** An absent key reads as `{}`; a present one must hold a mapping. */
  predicate MapShaped(fields: Record, k: string)
  {
    k !in fields || fields[k].Obj?
  }

  /** `a` and `b` agree on `k`: both lack it, or both hold the same value. */
  predicate SameEntry(a: Record, b: Record, k: string)
  {
    (k in a <==> k in b) && (k in b ==> a[k] == b[k])
  }

  /** The five re-sourced amenities, each `features.get(k, "N/A")`. */
  function Resourced(features: Record): (r: Record)
    ensures r.Keys == ResourcedKeys
    ensures forall k :: k in ResourcedKeys ==> r[k] == Get(features, k, NA)
  {
    map k | k in ResourcedKeys :: Get(features, k, NA)
  }

  /** The default amenity keys and the re-sourced ones are disjoint. */
  lemma DefaultsNotResourced()
    ensures forall k :: k in ResidentialAmenityDefaults ==> k !in ResourcedKeys
  {
  }

  /** The residential amenities: defaults, then the stored amenities, then the
      five keys re-sourced from `propertyFeatures`, which beat both. */
  function ResidentialAmenities(stored: Record, features: Record): (r: Record)
    ensures r.Keys == ResidentialAmenityDefaults.Keys + stored.Keys + ResourcedKeys
    ensures forall k :: k in ResourcedKeys ==> r[k] == Get(features, k, NA)
    ensures forall k :: k in stored && k !in ResourcedKeys ==> r[k] == stored[k]
    ensures forall k :: k in ResidentialAmenityDefaults && k !in stored ==> r[k] == ResidentialAmenityDefaults[k]
  {
    DefaultsNotResourced();
    Spread(Spread(ResidentialAmenityDefaults, stored), Resourced(features))
  }

  /** The five listing endpoints fall into three shapes: the owner's listing does
      not touch `location` or `description`, and the filtered listing leaves a
      Land record's `amenities` as stored. */
  datatype Shape = Owner | Public | Filtered

  /** `d[k] = {**defaults, **d.get(k, {})}`; the spread raises TypeError when the
      stored value is not a mapping. */
  function MergeField(p: Record, k: string, defaults: Record): (r: Result<Record, Fault>)
    ensures r.Err? <==> k in p && !p[k].Obj?
    ensures r.Err? ==> r.error == TypeError(k)
    ensures r.Ok? ==>
      var stored := if k in p then p[k].fields else map[];
      r.value == p[k := Obj(Spread(defaults, stored))]
  {
    match Get(p, k, Obj(map[]))
    case Obj(stored) => Ok(p[k := Obj(Spread(defaults, stored))])
    case _ => Err(TypeError(k))
  }

  /** The three scalar defaults every family branch writes. */
  function StatusDefaults(p: Record, availability: Value, status: Value): (r: Record)
    ensures r.Keys == p.Keys + {"availabilityStatus", "propertyStatus", "bhk"}
    ensures r["availabilityStatus"] == Get(p, "availabilityStatus", availability)
    ensures r["propertyStatus"] == Get(p, "propertyStatus", status)
    ensures r["bhk"] == Get(p, "bhk", NA)
    ensures forall k :: k != "availabilityStatus" && k != "propertyStatus" && k != "bhk" ==> SameEntry(r, p, k)
  {
    KeepOrDefault(KeepOrDefault(KeepOrDefault(p, "availabilityStatus", availability),
                                "propertyStatus", status),
                  "bhk", NA)
  }

  /** The keys a family branch writes. */
  const FamilyKeys: set<string> := {"availabilityStatus", "propertyStatus", "bhk", "amenities", "propertyFeatures"}

  /** The map-valued family keys are not among the scalar ones. */
  lemma MapKeysNotScalar()
    ensures "amenities" != "availabilityStatus" && "amenities" != "propertyStatus" && "amenities" != "bhk"
    ensures "propertyFeatures" != "availabilityStatus" && "propertyFeatures" != "propertyStatus" && "propertyFeatures" != "bhk"
    ensures "propertyFeatures" != "amenities"
  {
  }

  /** The residential branch: scalar defaults, then `amenities` rebuilt around
      `propertyFeatures`, which itself is left alone. Both are read before the
      scalar defaults are written, which touch neither. */
  function ResidentialBranch(p: Record): (r: Result<Record, Fault>)
    ensures r.Ok? <==> MapShaped(p, "amenities") && MapShaped(p, "propertyFeatures")
    ensures r.Ok? ==> r.value.Keys == p.Keys + {"availabilityStatus", "propertyStatus", "bhk", "amenities"}
  {
    if !MapShaped(p, "amenities") then Err(TypeError("amenities"))
    else if !MapShaped(p, "propertyFeatures") then Err(AttributeError("propertyFeatures"))
    else
      var amenities := ResidentialAmenities(StoredMap(p, "amenities"), StoredMap(p, "propertyFeatures"));
      Ok(StatusDefaults(p, Str("Ready to Move"), Str("New Project"))["amenities" := Obj(amenities)])
  }

  lemma ResidentialBranchKeeps(p: Record, k: string)
    requires ResidentialBranch(p).Ok?
    requires k !in FamilyKeys
    ensures SameEntry(ResidentialBranch(p).value, p, k)
  {
    var s := StatusDefaults(p, Str("Ready to Move"), Str("New Project"));
    assert SameEntry(s, p, k);
  }

  lemma ResidentialBranchFields(p: Record)
    requires ResidentialBranch(p).Ok?
    ensures
      var q := ResidentialBranch(p).value;
      && q["availabilityStatus"] == Get(p, "availabilityStatus", Str("Ready to Move"))
      && q["propertyStatus"] == Get(p, "propertyStatus", Str("New Project"))
      && q["bhk"] == Get(p, "bhk", NA)
      && q["amenities"] == Obj(ResidentialAmenities(StoredMap(p, "amenities"), StoredMap(p, "propertyFeatures")))
      && SameEntry(q, p, "propertyFeatures")
  {
    MapKeysNotScalar();
    var s := StatusDefaults(p, Str("Ready to Move"), Str("New Project"));
    assert SameEntry(s, p, "propertyFeatures");
  }

  /** The land and office branches: scalar defaults "N/A", then `amenities` (unless
      `mergeAmenities` is false) and `propertyFeatures` laid over their defaults. */
  function MapsBranch(p: Record, mergeAmenities: bool, amenityDefaults: Record, featureDefaults: Record): (r: Result<Record, Fault>)
    ensures r.Ok? <==> (mergeAmenities ==> MapShaped(p, "amenities")) && MapShaped(p, "propertyFeatures")
    ensures r.Err? ==> r.error == TypeError(if mergeAmenities && !MapShaped(p, "amenities") then "amenities" else "propertyFeatures")
    ensures r.Ok? ==> p.Keys + {"availabilityStatus", "propertyStatus", "bhk", "propertyFeatures"} <= r.value.Keys <= p.Keys + FamilyKeys
  {
    MapKeysNotScalar();
    var p' := StatusDefaults(p, NA, NA);
    assert SameEntry(p', p, "amenities") && SameEntry(p', p, "propertyFeatures");
    var withAmenities := if mergeAmenities then MergeField(p', "amenities", amenityDefaults) else Ok(p');
    match withAmenities
    case Err(f) => Err(f)
    case Ok(q) =>
      assert SameEntry(q, p, "propertyFeatures");
      MergeField(q, "propertyFeatures", featureDefaults)
  }

  lemma MapsBranchFields(p: Record, mergeAmenities: bool, amenityDefaults: Record, featureDefaults: Record)
    requires MapsBranch(p, mergeAmenities, amenityDefaults, featureDefaults).Ok?
    ensures
      var q := MapsBranch(p, mergeAmenities, amenityDefaults, featureDefaults).value;
      && q["availabilityStatus"] == Get(p, "availabilityStatus", NA)
      && q["propertyStatus"] == Get(p, "propertyStatus", NA)
      && q["bhk"] == Get(p, "bhk", NA)
      && q["propertyFeatures"] == Obj(Spread(featureDefaults, StoredMap(p, "propertyFeatures")))
      && (mergeAmenities ==> "amenities" in q && q["amenities"] == Obj(Spread(amenityDefaults, StoredMap(p, "amenities"))))
      && (!mergeAmenities ==> SameEntry(q, p, "amenities"))
  {
    MapKeysNotScalar();
    var p' := StatusDefaults(p, NA, NA);
    assert SameEntry(p', p, "amenities") && SameEntry(p', p, "propertyFeatures");
    var q1 := if mergeAmenities then MergeField(p', "amenities", amenityDefaults).value else p';
    assert SameEntry(q1, p, "propertyFeatures");
  }

  lemma MapsBranchKeeps(p: Record, mergeAmenities: bool, amenityDefaults: Record, featureDefaults: Record, k: string)
    requires MapsBranch(p, mergeAmenities, amenityDefaults, featureDefaults).Ok?
    requires k !in FamilyKeys
    ensures SameEntry(MapsBranch(p, mergeAmenities, amenityDefaults, featureDefaults).value, p, k)
  {
    var p' := StatusDefaults(p, NA, NA);
    assert SameEntry(p', p, k);
  }

  /** What a family branch demands of the stored maps before it can succeed. */
  predicate FamilyShaped(shape: Shape, family: Family, p: Record)
  {
    match family
    case Residential => MapShaped(p, "amenities") && MapShaped(p, "propertyFeatures")
    case Land => (shape != Filtered ==> MapShaped(p, "amenities")) && MapShaped(p, "propertyFeatures")
    case Office => MapShaped(p, "amenities") && MapShaped(p, "propertyFeatures")
  }

  /** The if/elif/else on the family; the filtered listing's Land branch does not
      merge `amenities`. */
  function FamilyFields(shape: Shape, family: Family, p: Record): (r: Result<Record, Fault>)
    ensures r.Ok? <==> FamilyShaped(shape, family, p)
    ensures r.Ok? ==> p.Keys <= r.value.Keys <= p.Keys + FamilyKeys
  {
    match family
    case Residential => ResidentialBranch(p)
    case Land => MapsBranch(p, shape != Filtered, LandAmenityDefaults, LandFeatureDefaults)
    case Office => MapsBranch(p, true, OfficeAmenityDefaults, OfficeFeatureDefaults)
  }

  lemma FamilyFieldsKeeps(shape: Shape, family: Family, p: Record, k: string)
    requires FamilyFields(shape, family, p).Ok?
    requires k !in FamilyKeys
    ensures SameEntry(FamilyFields(shape, family, p).value, p, k)
  {
    match family
    case Residential => ResidentialBranchKeeps(p, k);
    case Land => MapsBranchKeeps(p, shape != Filtered, LandAmenityDefaults, LandFeatureDefaults, k);
    case Office => MapsBranchKeeps(p, true, OfficeAmenityDefaults, OfficeFeatureDefaults, k);
  }

  /** The default for `availabilityStatus` (i == 0) or `propertyStatus` (i == 1). */
  function StatusDefault(family: Family, i: nat): Value
  {
    if family != Residential then NA
    else if i == 0 then Str("Ready to Move") else Str("New Project")
  }

  lemma FamilyFieldsScalars(shape: Shape, family: Family, p: Record)
    requires FamilyFields(shape, family, p).Ok?
    ensures
      var q := FamilyFields(shape, family, p).value;
      && "availabilityStatus" in q && q["availabilityStatus"] == Get(p, "availabilityStatus", StatusDefault(family, 0))
      && "propertyStatus" in q && q["propertyStatus"] == Get(p, "propertyStatus", StatusDefault(family, 1))
      && "bhk" in q && q["bhk"] == Get(p, "bhk", NA)
  {
    match family
    case Residential => ResidentialBranchFields(p);
    case Land => MapsBranchFields(p, shape != Filtered, LandAmenityDefaults, LandFeatureDefaults);
    case Office => MapsBranchFields(p, true, OfficeAmenityDefaults, OfficeFeatureDefaults);
  }

  /** The family maps, in terms of the record the branch receives. */
  predicate FamilyMapsAs(shape: Shape, family: Family, p: Record, out: Record)
  {
    var amenities := StoredMap(p, "amenities");
    var features := StoredMap(p, "propertyFeatures");
    match family
    case Residential =>
      && "amenities" in out
      && out["amenities"] == Obj(ResidentialAmenities(amenities, features))
      && SameEntry(out, p, "propertyFeatures")
    case Land =>
      && "propertyFeatures" in out
      && out["propertyFeatures"] == Obj(Spread(LandFeatureDefaults, features))
      && (shape != Filtered ==> "amenities" in out && out["amenities"] == Obj(Spread(LandAmenityDefaults, amenities)))
      && (shape == Filtered ==> SameEntry(out, p, "amenities"))
    case Office =>
      && "amenities" in out && "propertyFeatures" in out
      && out["amenities"] == Obj(Spread(OfficeAmenityDefaults, amenities))
      && out["propertyFeatures"] == Obj(Spread(OfficeFeatureDefaults, features))
  }

  lemma FamilyFieldsMaps(shape: Shape, family: Family, p: Record)
    requires FamilyFields(shape, family, p).Ok?
    ensures FamilyMapsAs(shape, family, p, FamilyFields(shape, family, p).value)
  {
    match family
    case Residential => ResidentialBranchFields(p);
    case Land => MapsBranchFields(p, shape != Filtered, LandAmenityDefaults, LandFeatureDefaults);
    case Office => MapsBranchFields(p, true, OfficeAmenityDefaults, OfficeFeatureDefaults);
  }

  /** A legacy text `location` becomes `{"city": text, "state": ""}`. */
  function LegacyLocation(p: Record): Record
  {
    if "location" in p && p["location"].Str? then p["location" := Obj(map["city" := p["location"], "state" := Str("")])]
    else p
  }

  /** `prop["id"] = str(prop["_id"])`, then `prop["createdAt"] = prop["createdAt"].isoformat()`. */
  function StampSteps(doc: Doc): (p: Record)
    requires "createdAt" in doc.fields && doc.fields["createdAt"].Time?
    ensures p.Keys == doc.fields.Keys + {"id", "createdAt"}
    ensures p["id"] == Str(DecimalText(doc.id))
    ensures p["createdAt"] == Str(doc.fields["createdAt"].iso)
    ensures forall k :: k != "id" && k != "createdAt" ==> SameEntry(p, doc.fields, k)
  {
    var p := doc.fields["id" := Str(DecimalText(doc.id))];
    p["createdAt" := Str(p["createdAt"].iso)]
  }

  /** The legacy-location conversion and the `description` default, which the
      owner's listing does not have. */
  function LocationSteps(owner: bool, p: Record): (r: Record)
    ensures owner ==> r == p
    ensures !owner ==>
      && r.Keys == p.Keys + {"description"}
      && r["description"] == Get(p, "description", Str(""))
      && ("location" in p && p["location"].Str? ==>
            "location" in r && r["location"] == Obj(map["city" := p["location"], "state" := Str("")]))
      && (!("location" in p && p["location"].Str?) ==> SameEntry(r, p, "location"))
    ensures forall k :: k != "location" && k != "description" ==> SameEntry(r, p, k)
  {
    if owner then p else KeepOrDefault(LegacyLocation(p), "description", Str(""))
  }

  /** `images` normalised, then the `negotiable` default. */
  function MediaSteps(p: Record): (r: Record)
    ensures r.Keys == p.Keys + {"images", "negotiable"}
    ensures r["images"] == Obj(FileUtils.NormalizeImages(Get(p, "images", List([]))))
    ensures r["negotiable"] == Get(p, "negotiable", No)
    ensures forall k :: k != "images" && k != "negotiable" ==> SameEntry(r, p, k)
  {
    var p' := p["images" := Obj(FileUtils.NormalizeImages(Get(p, "images", List([]))))];
    KeepOrDefault(p', "negotiable", No)
  }

  /** The keys the steps before the family branch may write. */
  const SharedKeys: set<string> := {"id", "createdAt", "location", "description", "images", "negotiable"}

  /** The steps of the loop body before the family branch, once `createdAt` is
      known to be a datetime. */
  function SharedSteps(shape: Shape, doc: Doc): (p: Record)
    requires "createdAt" in doc.fields && doc.fields["createdAt"].Time?
    ensures doc.fields.Keys + {"id", "createdAt", "images", "negotiable"} <= p.Keys <= doc.fields.Keys + SharedKeys
  {
    MediaSteps(LocationSteps(shape == Owner, StampSteps(doc)))
  }

  lemma SharedStepsKeeps(shape: Shape, doc: Doc, k: string)
    requires "createdAt" in doc.fields && doc.fields["createdAt"].Time?
    requires k !in SharedKeys
    ensures SameEntry(SharedSteps(shape, doc), doc.fields, k)
  {
    var p1 := StampSteps(doc);
    var p2 := LocationSteps(shape == Owner, p1);
    assert SameEntry(p1, doc.fields, k);
    assert SameEntry(p2, p1, k);
    assert SameEntry(MediaSteps(p2), p2, k);
  }

  lemma SharedStepsStamps(shape: Shape, doc: Doc)
    requires "createdAt" in doc.fields && doc.fields["createdAt"].Time?
    ensures
      var p := SharedSteps(shape, doc);
      && p["id"] == Str(DecimalText(doc.id))
      && p["createdAt"] == Str(doc.fields["createdAt"].iso)
      && p["images"] == Obj(FileUtils.NormalizeImages(Get(doc.fields, "images", List([]))))
      && p["negotiable"] == Get(doc.fields, "negotiable", No)
  {
    var p1 := StampSteps(doc);
    var p2 := LocationSteps(shape == Owner, p1);
    assert SameEntry(p1, doc.fields, "images") && SameEntry(p1, doc.fields, "negotiable");
    assert SameEntry(p2, p1, "images") && SameEntry(p2, p1, "negotiable");
    assert SameEntry(p2, p1, "id") && SameEntry(p2, p1, "createdAt");
    assert SameEntry(MediaSteps(p2), p2, "id") && SameEntry(MediaSteps(p2), p2, "createdAt");
  }

  lemma SharedStepsLocation(shape: Shape, doc: Doc)
    requires "createdAt" in doc.fields && doc.fields["createdAt"].Time?
    ensures
      var p := SharedSteps(shape, doc);
      var f := doc.fields;
      && (shape == Owner ==> SameEntry(p, f, "location") && SameEntry(p, f, "description"))
      && (shape != Owner ==>
            && "description" in p && p["description"] == Get(f, "description", Str(""))
            && ("location" in f && f["location"].Str? ==>
                  "location" in p && p["location"] == Obj(map["city" := f["location"], "state" := Str("")]))
            && (!("location" in f && f["location"].Str?) ==> SameEntry(p, f, "location")))
  {
    var p1 := StampSteps(doc);
    var p2 := LocationSteps(shape == Owner, p1);
    assert SameEntry(p1, doc.fields, "location") && SameEntry(p1, doc.fields, "description");
    assert SameEntry(MediaSteps(p2), p2, "location") && SameEntry(MediaSteps(p2), p2, "description");
  }

  /** The rest of the loop body, from the family dispatch on. */
  function Finish(shape: Shape, p: Record): Result<Record, Fault>
  {
    match FamilyFields(shape, Classify(Get(p, "propertyType", Null)), p)
    case Err(f) => Err(f)
    case Ok(q) => Ok(KeepOrDefault(q, "listedBy", Str("Unknown")))
  }

  /** One pass of an endpoint's loop body over a stored document `prop`. */
  function NormalizeListing(shape: Shape, doc: Doc): Result<Record, Fault>
  {
    if "createdAt" !in doc.fields then Err(KeyError("createdAt"))
    else if !doc.fields["createdAt"].Time? then Err(AttributeError("createdAt"))
    else Finish(shape, SharedSteps(shape, doc))
  }

  lemma FamilyShapedAgree(shape: Shape, family: Family, p: Record, f: Record)
    requires SameEntry(p, f, "amenities") && SameEntry(p, f, "propertyFeatures")
    ensures FamilyShaped(shape, family, p) == FamilyShaped(shape, family, f)
  {
  }

  // ---------------------------------------------------------------------
  // What a listed record looks like, stated against the stored document.

  function FamilyOf(doc: Doc): Family
  {
    Classify(Get(doc.fields, "propertyType", Null))
  }

  /** The stored documents the loop body gets through without raising. */
  predicate Listable(shape: Shape, doc: Doc)
  {
    && "createdAt" in doc.fields
    && doc.fields["createdAt"].Time?
    && FamilyShaped(shape, FamilyOf(doc), doc.fields)
  }

  /** The keys any endpoint's loop body may write. */
  const Touched: set<string> := SharedKeys + FamilyKeys + {"listedBy"}

  /** The fields the family branch reads or writes are none of the shared steps'. */
  lemma KeyNamesApart()
    ensures "propertyType" !in SharedKeys && "listedBy" !in SharedKeys
    ensures "amenities" !in SharedKeys && "propertyFeatures" !in SharedKeys
    ensures "availabilityStatus" !in SharedKeys && "propertyStatus" !in SharedKeys && "bhk" !in SharedKeys
    ensures "listedBy" !in FamilyKeys && "negotiable" !in FamilyKeys && "id" !in FamilyKeys
    ensures "createdAt" !in FamilyKeys && "images" !in FamilyKeys
    ensures "location" !in FamilyKeys && "description" !in FamilyKeys
  {
  }

  /** The shared steps leave every field the family branch looks at as stored. */
  lemma SharedStepsFeedFamily(shape: Shape, doc: Doc)
    requires "createdAt" in doc.fields && doc.fields["createdAt"].Time?
    ensures
      var p := SharedSteps(shape, doc);
      && Classify(Get(p, "propertyType", Null)) == FamilyOf(doc)
      && SameEntry(p, doc.fields, "amenities") && SameEntry(p, doc.fields, "propertyFeatures")
      && SameEntry(p, doc.fields, "availabilityStatus") && SameEntry(p, doc.fields, "propertyStatus")
      && SameEntry(p, doc.fields, "bhk") && SameEntry(p, doc.fields, "listedBy")
  {
    KeyNamesApart();
    SharedStepsKeeps(shape, doc, "propertyType");
    SharedStepsKeeps(shape, doc, "amenities");
    SharedStepsKeeps(shape, doc, "propertyFeatures");
    SharedStepsKeeps(shape, doc, "availabilityStatus");
    SharedStepsKeeps(shape, doc, "propertyStatus");
    SharedStepsKeeps(shape, doc, "bhk");
    SharedStepsKeeps(shape, doc, "listedBy");
  }

  /** The loop body raises exactly on a missing or non-datetime `createdAt`, or on a
      stored `amenities`/`propertyFeatures` that its family branch spreads or reads
      with `.get` and that is not a mapping. */
  lemma NormalizeListingSucceeds(shape: Shape, doc: Doc)
    ensures NormalizeListing(shape, doc).Ok? <==> Listable(shape, doc)
  {
    if "createdAt" in doc.fields && doc.fields["createdAt"].Time? {
      var p := SharedSteps(shape, doc);
      SharedStepsFeedFamily(shape, doc);
      FamilyShapedAgree(shape, FamilyOf(doc), p, doc.fields);
    }
  }

  /** The stored `amenities` and `propertyFeatures` as the family branch reshapes them. */
  lemma ListedFamilyMaps(shape: Shape, doc: Doc)
    requires NormalizeListing(shape, doc).Ok?
    ensures FamilyMapsAs(shape, FamilyOf(doc), doc.fields, NormalizeListing(shape, doc).value)
  {
    var p := SharedSteps(shape, doc);
    SharedStepsFeedFamily(shape, doc);
    var family := FamilyOf(doc);
    var q := FamilyFields(shape, family, p).value;
    FamilyFieldsMaps(shape, family, p);
    KeyNamesApart();
    var out := KeepOrDefault(q, "listedBy", Str("Unknown"));
    assert SameEntry(out, q, "amenities") && SameEntry(out, q, "propertyFeatures");
    FamilyMapsTransfer(shape, family, p, doc.fields, q, out);
  }

  /** `FamilyMapsAs` only looks at the two family maps on either side. */
  lemma FamilyMapsTransfer(shape: Shape, family: Family, p: Record, f: Record, q: Record, out: Record)
    requires SameEntry(p, f, "amenities") && SameEntry(p, f, "propertyFeatures")
    requires SameEntry(out, q, "amenities") && SameEntry(out, q, "propertyFeatures")
    requires FamilyMapsAs(shape, family, p, q)
    ensures FamilyMapsAs(shape, family, f, out)
  {
    assert StoredMap(p, "amenities") == StoredMap(f, "amenities");
    assert StoredMap(p, "propertyFeatures") == StoredMap(f, "propertyFeatures");
  }

  /** After the family branch only `listedBy` is written. */
  lemma ListedEntry(shape: Shape, doc: Doc, k: string)
    requires NormalizeListing(shape, doc).Ok?
    requires k !in FamilyKeys && k != "listedBy"
    ensures SameEntry(NormalizeListing(shape, doc).value, SharedSteps(shape, doc), k)
  {
    var p := SharedSteps(shape, doc);
    SharedStepsFeedFamily(shape, doc);
    FamilyFieldsKeeps(shape, FamilyOf(doc), p, k);
  }

  /** Defaults never overwrite stored data: a key the stored map holds keeps its
      value, except the five residential amenities re-sourced from `propertyFeatures`. */
  lemma StoredValuesSurvive(shape: Shape, doc: Doc, field: string, k: string)
    requires NormalizeListing(shape, doc).Ok?
    requires field == "amenities" || field == "propertyFeatures"
    requires k in StoredMap(doc.fields, field)
    requires !(FamilyOf(doc) == Residential && field == "amenities" && k in ResourcedKeys)
    ensures
      var out := NormalizeListing(shape, doc).value;
      field in out && out[field].Obj? && k in out[field].fields
      && out[field].fields[k] == StoredMap(doc.fields, field)[k]
  {
    ListedFamilyMaps(shape, doc);
  }

  /** The defaults the family branch of `shape` lays under the stored map `field`
      (for Residential amenities, the five re-sourced keys are not defaults: they
      are overwritten). */
  function FamilyDefaults(shape: Shape, family: Family, field: string): Record
  {
    match family
    case Residential => if field == "amenities" then ResidentialAmenityDefaults else map[]
    case Land =>
      if field == "amenities" then (if shape == Filtered then map[] else LandAmenityDefaults)
      else if field == "propertyFeatures" then LandFeatureDefaults
      else map[]
    case Office =>
      if field == "amenities" then OfficeAmenityDefaults
      else if field == "propertyFeatures" then OfficeFeatureDefaults
      else map[]
  }

  /** Every default key of the family is present: with the default when the stored
      map lacks it. */
  lemma DefaultsFillGaps(shape: Shape, doc: Doc, field: string, k: string)
    requires NormalizeListing(shape, doc).Ok?
    requires k in FamilyDefaults(shape, FamilyOf(doc), field)
    requires k !in StoredMap(doc.fields, field)
    ensures
      var out := NormalizeListing(shape, doc).value;
      field in out && out[field].Obj? && k in out[field].fields
      && out[field].fields[k] == FamilyDefaults(shape, FamilyOf(doc), field)[k]
  {
    ListedFamilyMaps(shape, doc);
    var stored := StoredMap(doc.fields, field);
    var defaults := FamilyDefaults(shape, FamilyOf(doc), field);
    match FamilyOf(doc)
    case Residential =>
      assert field == "amenities" && defaults == ResidentialAmenityDefaults;
    case Land =>
      if field == "amenities" {
        assert defaults == LandAmenityDefaults && shape != Filtered;
      } else {
        assert field == "propertyFeatures" && defaults == LandFeatureDefaults;
      }
    case Office =>
      if field == "amenities" {
        assert defaults == OfficeAmenityDefaults;
      } else {
        assert field == "propertyFeatures" && defaults == OfficeFeatureDefaults;
      }
  }

  /** For Residential records the five re-sourced amenities always come from
      `propertyFeatures` ("N/A" when it lacks them), whatever `amenities` held. */
  lemma ResidentialResourcing(shape: Shape, doc: Doc, k: string)
    requires NormalizeListing(shape, doc).Ok?
    requires FamilyOf(doc) == Residential
    requires k in ResourcedKeys
    ensures
      var out := NormalizeListing(shape, doc).value;
      "amenities" in out && out["amenities"].Obj? && k in out["amenities"].fields
      && out["amenities"].fields[k] == Get(StoredMap(doc.fields, "propertyFeatures"), k, NA)
  {
    ListedFamilyMaps(shape, doc);
  }

  /** The scalar defaults apply only to absent keys; a present value, null
      included, is kept. */
  lemma ListedScalars(shape: Shape, doc: Doc)
    requires NormalizeListing(shape, doc).Ok?
    ensures
      var out := NormalizeListing(shape, doc).value;
      var f := doc.fields;
      && "negotiable" in out && out["negotiable"] == Get(f, "negotiable", No)
      && "listedBy" in out && out["listedBy"] == Get(f, "listedBy", Str("Unknown"))
      && "bhk" in out && out["bhk"] == Get(f, "bhk", NA)
      && "availabilityStatus" in out
      && out["availabilityStatus"] == Get(f, "availabilityStatus", StatusDefault(FamilyOf(doc), 0))
      && "propertyStatus" in out
      && out["propertyStatus"] == Get(f, "propertyStatus", StatusDefault(FamilyOf(doc), 1))
  {
    var p := SharedSteps(shape, doc);
    SharedStepsFeedFamily(shape, doc);
    SharedStepsStamps(shape, doc);
    KeyNamesApart();
    var family := FamilyOf(doc);
    FamilyFieldsScalars(shape, family, p);
    FamilyFieldsKeeps(shape, family, p, "negotiable");
    FamilyFieldsKeeps(shape, family, p, "listedBy");
  }

  /** Outside the owner's listing a text `location` becomes a map and `description`
      defaults to ""; the owner's listing leaves both as stored. */
  lemma ListedLocationAndDescription(shape: Shape, doc: Doc)
    requires NormalizeListing(shape, doc).Ok?
    ensures
      var out := NormalizeListing(shape, doc).value;
      var f := doc.fields;
      && (shape == Owner ==> SameEntry(out, f, "location") && SameEntry(out, f, "description"))
      && (shape != Owner ==>
            && "description" in out && out["description"] == Get(f, "description", Str(""))
            && ("location" in f && f["location"].Str? ==>
                  "location" in out && out["location"] == Obj(map["city" := f["location"], "state" := Str("")]))
            && (!("location" in f && f["location"].Str?) ==> SameEntry(out, f, "location")))
  {
    KeyNamesApart();
    SharedStepsLocation(shape, doc);
    ListedEntry(shape, doc, "location");
    ListedEntry(shape, doc, "description");
  }

  /** The identity and timestamp become text, and `images` always has the canonical shape. */
  lemma ListedIdentityAndImages(shape: Shape, doc: Doc)
    requires NormalizeListing(shape, doc).Ok?
    ensures
      var out := NormalizeListing(shape, doc).value;
      && "id" in out && out["id"] == Str(DecimalText(doc.id))
      && "createdAt" in out && out["createdAt"] == Str(doc.fields["createdAt"].iso)
      && "images" in out
      && out["images"] == Obj(FileUtils.NormalizeImages(Get(doc.fields, "images", List([]))))
  {
    KeyNamesApart();
    SharedStepsStamps(shape, doc);
    ListedEntry(shape, doc, "id");
    ListedEntry(shape, doc, "createdAt");
    ListedEntry(shape, doc, "images");
  }

  /** Every other stored field passes through unchanged, and nothing is dropped. */
  lemma ListingKeepsOtherFields(shape: Shape, doc: Doc)
    requires NormalizeListing(shape, doc).Ok?
    ensures
      var out := NormalizeListing(shape, doc).value;
      && doc.fields.Keys <= out.Keys
      && out.Keys <= doc.fields.Keys + Touched
      && forall k :: k in doc.fields && k !in Touched ==> out[k] == doc.fields[k]
  {
    var p := SharedSteps(shape, doc);
    SharedStepsFeedFamily(shape, doc);
    forall k | k in doc.fields && k !in Touched
      ensures NormalizeListing(shape, doc).value[k] == doc.fields[k]
    {
      SharedStepsKeeps(shape, doc, k);
      ListedEntry(shape, doc, k);
    }
  }
}
