/** utils/file_utils.py: the canonical shape of a property's media field, and
    the name an uploaded file is saved under. */
module FileUtils {
  import opened Values

  /** The nine media categories, in the order the upload form lists them. */
  const Categories: seq<string> :=
    ["exterior_view", "living_room", "bedrooms", "bathrooms", "kitchen",
     "floor_plan", "master_plan", "location_map", "others"]

  const CategorySet: set<string> := set c | c in Categories

  /** Every category, with no media. */
  const DefaultImages: Record :=
    map["exterior_view" := List([]), "living_room" := List([]), "bedrooms" := List([]),
        "bathrooms" := List([]), "kitchen" := List([]), "floor_plan" := List([]),
        "master_plan" := List([]), "location_map" := List([]), "others" := List([])]

  lemma DefaultImagesShape()
    ensures DefaultImages.Keys == CategorySet
    ensures forall c :: c in DefaultImages ==> DefaultImages[c] == List([])
  {
  }

  /** `normalize_images_field`: a legacy list becomes the "others" category, a
      mapping is laid over the empty categories, and anything else is replaced
      by the empty categories. */
  function NormalizeImages(images: Value): (r: Record)
    ensures CategorySet <= r.Keys
    ensures images.List? ==>
      && r.Keys == CategorySet
      && r["others"] == images
      && forall c :: c in CategorySet && c != "others" ==> r[c] == List([])
    ensures images.Obj? ==>
      && r.Keys == CategorySet + images.fields.Keys
      && (forall k :: k in images.fields ==> r[k] == images.fields[k])
      && (forall c :: c in CategorySet && c !in images.fields ==> r[c] == List([]))
    ensures !images.List? && !images.Obj? ==>
      && r.Keys == CategorySet
      && forall c :: c in r ==> r[c] == List([])
  {
    DefaultImagesShape();
    match images
    case List(_) => Spread(DefaultImages, map["others" := images])
    case Obj(fields) => Spread(DefaultImages, fields)
    case _ => DefaultImages
  }

  /** Normalising twice changes nothing: every result already holds all categories. */
  lemma NormalizeImagesIdempotent(images: Value)
    ensures NormalizeImages(Obj(NormalizeImages(images))) == NormalizeImages(images)
  {
    var once := NormalizeImages(images);
    var twice := NormalizeImages(Obj(once));
    assert twice.Keys == once.Keys;
    assert forall k :: k in once ==> twice[k] == once[k];
  }

  /** `filename.rsplit('.', 1)[-1] if '.' in filename else ''`: the text after
      the last dot, or nothing when there is no dot. */
  function ExtensionOf(name: string): (ext: string)
    ensures '.' !in ext
    ensures |ext| <= |name| && name[|name| - |ext|..] == ext
    ensures '.' in name ==> |ext| < |name| && name[|name| - |ext| - 1] == '.'
    ensures '.' !in name ==> ext == ""
    decreases |name|
  {
    if '.' !in name then ""
    else if name[|name| - 1] == '.' then ""
    else
      var init := name[..|name| - 1];
      assert '.' in init by {
        var i :| 0 <= i < |name| && name[i] == '.';
        assert init[i] == '.';
      }
      ExtensionOf(init) + [name[|name| - 1]]
  }

  /** `secure_filename`, with the `uuid4()` it draws passed in as `uuid`. */
  function SecureFilename(name: string, uuid: string): (r: string)
    ensures |r| >= |uuid| && r[..|uuid|] == uuid
    ensures |r| == |uuid| <==> ('.' !in name || name[|name| - 1] == '.')
    ensures |r| > |uuid| ==>
      var ext := r[|uuid| + 1..];
      && r[|uuid|] == '.'
      && ext != ""
      && '.' !in ext
      && |ext| < |name|
      && name[|name| - |ext|..] == ext
      && name[|name| - |ext| - 1] == '.'
  {
    var ext := ExtensionOf(name);
    if ext != "" then uuid + "." + ext else uuid
  }

  /** The saved name is built from the uuid and the extension only: the rest of
      the uploaded name never reaches it. */
  lemma SecureFilenameIgnoresBaseName(a: string, b: string, uuid: string)
    requires ExtensionOf(a) == ExtensionOf(b)
    ensures SecureFilename(a, uuid) == SecureFilename(b, uuid)
  {
  }
}
