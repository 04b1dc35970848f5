/** routes/property.py, `create_property`, lines 66-93: the uploaded images, nine
    categories of them, and then the videos, are saved one by one under a fresh
    name; every saved path is remembered in `file_paths` so that a later failure
    can remove them. An upload over its size limit stops the loop before it is
    saved. `rename(filename, k)` is the name `secure_filename` gives the `k`-th
    saved file, the `k`-th uuid drawn. */
module Uploads {
  import opened Values

  /** An uploaded file: the name the client gave and its size in bytes. */
  datatype Upload = Upload(filename: string, size: nat)

  const ImageLimit: nat := 10 * 1024 * 1024
  const VideoLimit: nat := 50 * 1024 * 1024

  const ImageDir := "uploads/images/"
  const VideoDir := "uploads/videos/"

  /** The groups of uploads one after another. */
  function Flatten(groups: seq<seq<Upload>>): seq<Upload>
  {
    if groups == [] then [] else Flatten(groups[..|groups| - 1]) + groups[|groups| - 1]
  }

  lemma {:induction false} FlattenAppend(a: seq<seq<Upload>>, b: seq<seq<Upload>>)
    ensures Flatten(a + b) == Flatten(a) + Flatten(b)
    decreases |b|
  {
    if b == [] {
      assert a + b == a;
    } else {
      var b' := b[..|b| - 1];
      assert (a + b)[..|a + b| - 1] == a + b';
      FlattenAppend(a, b');
    }
  }

  /** The groups up to `c`, and the next one. */
  lemma FlattenNext(groups: seq<seq<Upload>>, c: nat)
    requires c < |groups|
    ensures Flatten(groups[..c + 1]) == Flatten(groups[..c]) + groups[c]
  {
    assert groups[..c + 1][..c] == groups[..c];
  }

  lemma AppendNext(done: seq<Upload>, files: seq<Upload>, j: nat)
    requires j < |files|
    ensures files[..j + 1] == files[..j] + [files[j]]
    ensures done + files[..j + 1] == (done + files[..j]) + [files[j]]
  {
    assert files[..j + 1] == files[..j] + [files[j]];
  }

  /** `f"{dir}{safe_name}"` for the `k`-th saved file. */
  function SavedPath(dir: string, file: Upload, rename: (string, nat) -> string, k: nat): string
  {
    dir + rename(file.filename, k)
  }

  /** The paths `save_file` writes `files` to, the first being the `start`-th file saved. */
  function SavedPaths(dir: string, files: seq<Upload>, rename: (string, nat) -> string, start: nat): (r: seq<string>)
    ensures |r| == |files|
  {
    if files == [] then []
    else SavedPaths(dir, files[..|files| - 1], rename, start) + [SavedPath(dir, files[|files| - 1], rename, start + |files| - 1)]
  }

  /** One more upload saved: one more path, named as the next file. */
  lemma SavedPathsSnoc(dir: string, files: seq<Upload>, file: Upload, rename: (string, nat) -> string, start: nat)
    ensures SavedPaths(dir, files + [file], rename, start) == SavedPaths(dir, files, rename, start) + [SavedPath(dir, file, rename, start + |files|)]
  {
    assert (files + [file])[..|files|] == files;
  }

  /** Each saved path names its own upload, numbered from `start`. */
  lemma {:induction false} SavedPathsAt(dir: string, files: seq<Upload>, rename: (string, nat) -> string, start: nat, i: nat)
    requires i < |files|
    ensures SavedPaths(dir, files, rename, start)[i] == SavedPath(dir, files[i], rename, start + i)
    decreases |files|
  {
    if i < |files| - 1 {
      SavedPathsAt(dir, files[..|files| - 1], rename, start, i);
    }
  }

  /** The paths of the first `n` files begin the paths of them all. */
  lemma SavedPathsPrefix(dir: string, files: seq<Upload>, n: nat, rename: (string, nat) -> string, start: nat)
    requires n <= |files|
    ensures SavedPaths(dir, files[..n], rename, start) <= SavedPaths(dir, files, rename, start)
  {
    assert files == files[..n] + files[n..];
    SavedPathsAppend(dir, files[..n], files[n..], rename, start);
  }

  /** Every upload is within `limit`. */
  predicate Fits(files: seq<Upload>, limit: nat)
  {
    files == [] || (Fits(files[..|files| - 1], limit) && files[|files| - 1].size <= limit)
  }

  lemma {:induction false} FitsEach(files: seq<Upload>, limit: nat)
    ensures Fits(files, limit) <==> forall i :: 0 <= i < |files| ==> files[i].size <= limit
    decreases |files|
  {
    if files != [] {
      var init := files[..|files| - 1];
      FitsEach(init, limit);
      assert forall i :: 0 <= i < |init| ==> init[i] == files[i];
    }
  }

  lemma FitsSnoc(files: seq<Upload>, file: Upload, limit: nat)
    requires Fits(files, limit) && file.size <= limit
    ensures Fits(files + [file], limit)
  {
    assert (files + [file])[..|files|] == files;
  }

  /** How many leading uploads are within `limit`: the ones saved before the loop stops. */
  function Accepted(files: seq<Upload>, limit: nat): (n: nat)
    ensures n <= |files|
  {
    if files == [] then 0
    else if files[0].size > limit then 0
    else 1 + Accepted(files[1..], limit)
  }

  /** The accepted uploads are within the limit, and the one after them is not. */
  lemma {:induction false} AcceptedStops(files: seq<Upload>, limit: nat)
    ensures forall i :: 0 <= i < Accepted(files, limit) ==> files[i].size <= limit
    ensures Accepted(files, limit) < |files| ==> files[Accepted(files, limit)].size > limit
    decreases |files|
  {
    if files != [] && files[0].size <= limit {
      AcceptedStops(files[1..], limit);
    }
  }

  /** The prefix before the first upload over `limit` is what `Accepted` counts. */
  lemma AcceptedAt(files: seq<Upload>, n: nat, limit: nat)
    requires n <= |files| && Fits(files[..n], limit)
    requires n < |files| ==> files[n].size > limit
    ensures Accepted(files, limit) == n
  {
    FitsEach(files[..n], limit);
    AcceptedStops(files, limit);
  }

  /** Everything is accepted exactly when everything fits. */
  lemma AcceptedAll(files: seq<Upload>, limit: nat)
    ensures Accepted(files, limit) == |files| <==> Fits(files, limit)
  {
    FitsEach(files, limit);
    AcceptedStops(files, limit);
    if Fits(files, limit) {
      assert files[..|files|] == files;
      AcceptedAt(files, |files|, limit);
    }
  }

  /** The lists `image_urls` holds per category once every group is saved: each
      group's paths, numbered after the groups before it. */
  function CategoryPaths(groups: seq<seq<Upload>>, rename: (string, nat) -> string): (r: seq<seq<string>>)
    ensures |r| == |groups|
  {
    if groups == [] then []
    else
      var init := groups[..|groups| - 1];
      CategoryPaths(init, rename) + [SavedPaths(ImageDir, groups[|groups| - 1], rename, |Flatten(init)|)]
  }

  /** Category `c` lists its own uploads, numbered after those of the categories before it. */
  lemma {:induction false} CategoryPathsAt(groups: seq<seq<Upload>>, rename: (string, nat) -> string, c: nat)
    requires c < |groups|
    ensures CategoryPaths(groups, rename)[c] == SavedPaths(ImageDir, groups[c], rename, |Flatten(groups[..c])|)
    decreases |groups|
  {
    var init := groups[..|groups| - 1];
    if c < |groups| - 1 {
      CategoryPathsAt(init, rename, c);
      assert init[..c] == groups[..c];
    }
  }

  /** The lists laid end to end. */
  function Concat(lists: seq<seq<string>>): seq<string>
  {
    if lists == [] then [] else Concat(lists[..|lists| - 1]) + lists[|lists| - 1]
  }

  /** `file_paths` after the image loop is the category lists one after another. */
  lemma {:induction false} CategoryPathsConcat(groups: seq<seq<Upload>>, rename: (string, nat) -> string)
    ensures Concat(CategoryPaths(groups, rename)) == SavedPaths(ImageDir, Flatten(groups), rename, 0)
    decreases |groups|
  {
    if groups != [] {
      var init := groups[..|groups| - 1];
      var last := groups[|groups| - 1];
      CategoryPathsConcat(init, rename);
      var lists := CategoryPaths(groups, rename);
      assert lists[..|lists| - 1] == CategoryPaths(init, rename);
      SavedPathsAppend(ImageDir, Flatten(init), last, rename, 0);
    }
  }

  lemma {:induction false} SavedPathsAppend(dir: string, a: seq<Upload>, b: seq<Upload>, rename: (string, nat) -> string, start: nat)
    ensures SavedPaths(dir, a + b, rename, start) == SavedPaths(dir, a, rename, start) + SavedPaths(dir, b, rename, start + |a|)
    decreases |b|
  {
    if b == [] {
      assert a + b == a;
    } else {
      var b' := b[..|b| - 1];
      assert (a + b)[..|a + b| - 1] == a + b';
      SavedPathsAppend(dir, a, b', rename, start);
    }
  }

  /** `image_urls` in the middle of category `c`: the categories before it done,
      its own first `j` files, and the ones after it still empty. */
  function Partial(groups: seq<seq<Upload>>, rename: (string, nat) -> string, c: nat, j: nat): (r: seq<seq<string>>)
    requires c < |groups| && j <= |groups[c]|
    ensures |r| == |groups|
  {
    CategoryPaths(groups[..c], rename)
      + [SavedPaths(ImageDir, groups[c][..j], rename, |Flatten(groups[..c])|)]
      + seq(|groups| - c - 1, _ => [])
  }

  /** Filling in category `c`'s list. */
  lemma PartialFill(groups: seq<seq<Upload>>, rename: (string, nat) -> string, c: nat)
    requires c < |groups|
    ensures
      var before := Partial(groups, rename, c, 0);
      before[c := SavedPaths(ImageDir, groups[c], rename, |Flatten(groups[..c])|)] == Partial(groups, rename, c, |groups[c]|)
  {
    assert groups[c][..|groups[c]|] == groups[c];
  }

  /** Category `c` finished is the same as category `c + 1` not yet begun. */
  lemma PartialNext(groups: seq<seq<Upload>>, rename: (string, nat) -> string, c: nat)
    requires c + 1 < |groups|
    ensures Partial(groups, rename, c, |groups[c]|) == Partial(groups, rename, c + 1, 0)
  {
    assert groups[c][..|groups[c]|] == groups[c];
    assert groups[..c + 1][..c] == groups[..c];
    FlattenNext(groups, c);
    assert CategoryPaths(groups[..c + 1], rename) == CategoryPaths(groups[..c], rename) + [SavedPaths(ImageDir, groups[c], rename, |Flatten(groups[..c])|)];
  }

  /** Category `c` finished when it is the last one. */
  lemma PartialLast(groups: seq<seq<Upload>>, rename: (string, nat) -> string)
    requires |groups| > 0
    ensures Partial(groups, rename, |groups| - 1, |groups[|groups| - 1]|) == CategoryPaths(groups, rename)
  {
    var c := |groups| - 1;
    assert groups[c][..|groups[c]|] == groups[c];
    assert groups[..c] == groups[..|groups| - 1];
  }

  /** The image loop: for each category, in order, each file is checked against the
      10 MB limit, saved, and its path appended both to the category's list and to
      `file_paths`. `tooLarge` tells whether it stopped at an oversized image, in
      which case only the images before it were saved. */
  method SaveImages(groups: seq<seq<Upload>>, rename: (string, nat) -> string)
    returns (imageUrls: seq<seq<string>>, filePaths: seq<string>, tooLarge: bool)
    ensures tooLarge <==> !Fits(Flatten(groups), ImageLimit)
    ensures filePaths == SavedPaths(ImageDir, Flatten(groups)[..Accepted(Flatten(groups), ImageLimit)], rename, 0)
    ensures !tooLarge ==> imageUrls == CategoryPaths(groups, rename)
  {
    imageUrls := seq(|groups|, _ => []);
    filePaths := [];
    if groups == [] {
      AcceptedAll([], ImageLimit);
      return imageUrls, filePaths, false;
    }
    assert imageUrls == Partial(groups, rename, 0, 0);
    for c := 0 to |groups|
      invariant c < |groups| ==> imageUrls == Partial(groups, rename, c, 0)
      invariant c == |groups| ==> imageUrls == CategoryPaths(groups, rename)
      invariant filePaths == SavedPaths(ImageDir, Flatten(groups[..c]), rename, 0)
      invariant Fits(Flatten(groups[..c]), ImageLimit)
    {
      var before := imageUrls;
      imageUrls, filePaths, tooLarge := SaveCategory(groups, rename, c, imageUrls, filePaths);
      if tooLarge {
        return;
      }
      SavedAll(groups, rename, c, before, imageUrls, filePaths);
      PartialFill(groups, rename, c);
      if c + 1 < |groups| {
        PartialNext(groups, rename, c);
      } else {
        PartialLast(groups, rename);
      }
    }
    assert groups[..|groups|] == groups;
    AcceptedAll(Flatten(groups), ImageLimit);
    assert Flatten(groups)[..|Flatten(groups)|] == Flatten(groups);
    return imageUrls, filePaths, false;
  }

  /** The image loop stopped at the first oversized image, having saved those before it. */
  predicate StoppedAt(groups: seq<seq<Upload>>, rename: (string, nat) -> string, filePaths: seq<string>)
  {
    && !Fits(Flatten(groups), ImageLimit)
    && filePaths == SavedPaths(ImageDir, Flatten(groups)[..Accepted(Flatten(groups), ImageLimit)], rename, 0)
  }

  /** One pass of the inner loop: the images of category `c`, after those of the
      categories before it. */
  method SaveCategory(groups: seq<seq<Upload>>, rename: (string, nat) -> string, c: nat,
                      imageUrls0: seq<seq<string>>, filePaths0: seq<string>)
    returns (imageUrls: seq<seq<string>>, filePaths: seq<string>, tooLarge: bool)
    requires c < |groups| && c < |imageUrls0|
    requires filePaths0 == SavedPaths(ImageDir, Flatten(groups[..c]), rename, 0)
    requires Fits(Flatten(groups[..c]), ImageLimit)
    ensures tooLarge ==> StoppedAt(groups, rename, filePaths)
    ensures !tooLarge ==> SavedUpTo(groups, rename, c, |groups[c]|, imageUrls0, imageUrls, filePaths)
  {
    imageUrls, filePaths := imageUrls0[c := []], filePaths0;
    SavedNone(groups, rename, c, imageUrls0, filePaths0);
    for j := 0 to |groups[c]|
      invariant SavedUpTo(groups, rename, c, j, imageUrls0, imageUrls, filePaths)
    {
      var img := groups[c][j];
      if img.size > ImageLimit {
        TooLargeImage(groups, rename, c, j, imageUrls0, imageUrls, filePaths);
        return imageUrls, filePaths, true;
      }
      var filePath := SavedPath(ImageDir, img, rename, |filePaths|);
      SavedNext(groups, rename, c, j, imageUrls0, imageUrls, filePaths);
      imageUrls := imageUrls[c := imageUrls[c] + [filePath]];
      filePaths := filePaths + [filePath];
    }
    return imageUrls, filePaths, false;
  }

  /** Midway through category `c`: its first `j` images are saved, after all of the
      categories before it. */
  predicate SavedUpTo(groups: seq<seq<Upload>>, rename: (string, nat) -> string, c: nat, j: nat,
                      imageUrls0: seq<seq<string>>, imageUrls: seq<seq<string>>, filePaths: seq<string>)
    requires c < |groups| && c < |imageUrls0| && j <= |groups[c]|
  {
    var done := Flatten(groups[..c]);
    && imageUrls == imageUrls0[c := SavedPaths(ImageDir, groups[c][..j], rename, |done|)]
    && filePaths == SavedPaths(ImageDir, done + groups[c][..j], rename, 0)
    && Fits(done + groups[c][..j], ImageLimit)
  }

  lemma SavedNone(groups: seq<seq<Upload>>, rename: (string, nat) -> string, c: nat,
                  imageUrls0: seq<seq<string>>, filePaths0: seq<string>)
    requires c < |groups| && c < |imageUrls0|
    requires filePaths0 == SavedPaths(ImageDir, Flatten(groups[..c]), rename, 0)
    requires Fits(Flatten(groups[..c]), ImageLimit)
    ensures SavedUpTo(groups, rename, c, 0, imageUrls0, imageUrls0[c := []], filePaths0)
  {
    assert Flatten(groups[..c]) + groups[c][..0] == Flatten(groups[..c]);
  }

  lemma SavedNext(groups: seq<seq<Upload>>, rename: (string, nat) -> string, c: nat, j: nat,
                  imageUrls0: seq<seq<string>>, imageUrls: seq<seq<string>>, filePaths: seq<string>)
    requires c < |groups| && c < |imageUrls0| && j < |groups[c]|
    requires groups[c][j].size <= ImageLimit
    requires SavedUpTo(groups, rename, c, j, imageUrls0, imageUrls, filePaths)
    ensures
      var path := SavedPath(ImageDir, groups[c][j], rename, |filePaths|);
      SavedUpTo(groups, rename, c, j + 1, imageUrls0, imageUrls[c := imageUrls[c] + [path]], filePaths + [path])
  {
    var done := Flatten(groups[..c]);
    var files := groups[c];
    var img := files[j];
    AppendNext(done, files, j);
    SavedPathsSnoc(ImageDir, done + files[..j], img, rename, 0);
    FitsSnoc(done + files[..j], img, ImageLimit);
    SavedPathsSnoc(ImageDir, files[..j], img, rename, |done|);
  }

  /** Category `c` saved whole. */
  lemma SavedAll(groups: seq<seq<Upload>>, rename: (string, nat) -> string, c: nat,
                 imageUrls0: seq<seq<string>>, imageUrls: seq<seq<string>>, filePaths: seq<string>)
    requires c < |groups| && c < |imageUrls0|
    requires SavedUpTo(groups, rename, c, |groups[c]|, imageUrls0, imageUrls, filePaths)
    ensures imageUrls == imageUrls0[c := SavedPaths(ImageDir, groups[c], rename, |Flatten(groups[..c])|)]
    ensures filePaths == SavedPaths(ImageDir, Flatten(groups[..c + 1]), rename, 0)
    ensures Fits(Flatten(groups[..c + 1]), ImageLimit)
  {
    assert groups[c][..|groups[c]|] == groups[c];
    FlattenNext(groups, c);
  }

  /** Image `j` of category `c` is the first oversized one: the saved images are
      exactly those before it. */
  lemma TooLargeImage(groups: seq<seq<Upload>>, rename: (string, nat) -> string, c: nat, j: nat,
                      imageUrls0: seq<seq<string>>, imageUrls: seq<seq<string>>, filePaths: seq<string>)
    requires c < |groups| && c < |imageUrls0| && j < |groups[c]|
    requires groups[c][j].size > ImageLimit
    requires SavedUpTo(groups, rename, c, j, imageUrls0, imageUrls, filePaths)
    ensures StoppedAt(groups, rename, filePaths)
  {
    var done := Flatten(groups[..c]);
    var files := groups[c];
    var before := done + files[..j];
    var rest := Flatten(groups[c + 1..]);
    assert groups == groups[..c + 1] + groups[c + 1..];
    FlattenAppend(groups[..c + 1], groups[c + 1..]);
    FlattenNext(groups, c);
    var all := Flatten(groups);
    assert all == done + files + rest;
    assert files == files[..j] + files[j..];
    assert all == before + (files[j..] + rest);
    assert all[|before|] == files[j];
    assert all[..|before|] == before;
    AcceptedAt(all, |before|, ImageLimit);
    AcceptedAll(all, ImageLimit);
  }

  /** The video loop: the same with the 50 MB limit, appending to the videos' list
      and to `file_paths`, the numbering continuing after the images. */
  method SaveVideos(videos: seq<Upload>, rename: (string, nat) -> string, savedImages: seq<string>)
    returns (videoUrls: seq<string>, filePaths: seq<string>, tooLarge: bool)
    ensures tooLarge <==> !Fits(videos, VideoLimit)
    ensures videoUrls == SavedPaths(VideoDir, videos[..Accepted(videos, VideoLimit)], rename, |savedImages|)
    ensures filePaths == savedImages + videoUrls
  {
    videoUrls := [];
    filePaths := savedImages;
    for j := 0 to |videos|
      invariant videoUrls == SavedPaths(VideoDir, videos[..j], rename, |savedImages|)
      invariant filePaths == savedImages + videoUrls
      invariant Fits(videos[..j], VideoLimit)
    {
      var video := videos[j];
      if video.size > VideoLimit {
        AcceptedAt(videos, j, VideoLimit);
        AcceptedAll(videos, VideoLimit);
        return videoUrls, filePaths, true;
      }
      var filePath := SavedPath(VideoDir, video, rename, |filePaths|);
      assert videos[..j + 1] == videos[..j] + [video];
      SavedPathsSnoc(VideoDir, videos[..j], video, rename, |savedImages|);
      FitsSnoc(videos[..j], video, VideoLimit);
      videoUrls := videoUrls + [filePath];
      filePaths := filePaths + [filePath];
    }
    assert videos[..|videos|] == videos;
    AcceptedAll(videos, VideoLimit);
    return videoUrls, filePaths, false;
  }
}
