/** The face-recognition plugin: a gallery of known face encodings built from
    a directory of per-person folders, and per frame one name per detected face
    (the closest known face within tolerance, else "Unknown"), its log line and
    its drawing. Face detection, encoding and the distance measure are inputs. */
module FacePlugin {
  import opened Common

  /** A face encoding, left abstract. */
  type Encoding = seq<real>

  const Unknown: string := "Unknown"
  /** The distance at or below which `compare_faces` reports a match (its default). */
  const Tolerance: real := 0.6
  /** Detection runs on the frame shrunk by this factor; boxes are scaled back up by it. */
  const Scale: int := 4
  const Green: Color := Color(0, 255, 0)
  const Red: Color := Color(0, 0, 255)
  const White: Color := Color(255, 255, 255)

  // ------------------------------------------------------------ gallery

  /** What loading an image and encoding it gives: the encodings of the faces
      found (possibly none), or an error. */
  datatype ImageLoad = Encoded(encodings: seq<Encoding>) | LoadError(message: string)

  datatype ImageFile = ImageFile(name: string, load: ImageLoad)

  /** One entry of the gallery directory: a person's folder and its files, or a plain file. */
  datatype GalleryEntry = GalleryEntry(name: string, isDir: bool, files: seq<ImageFile>)

  /** `img_name.lower().endswith(('.jpg', '.jpeg', '.png'))`. */
  predicate IsImageFile(name: string) {
    var l := Lower(name);
    EndsWith(l, ".jpg") || EndsWith(l, ".jpeg") || EndsWith(l, ".png")
  }

  /** The extension test ignores letter case. */
  lemma IsImageFileExamples()
    ensures IsImageFile("me.JPG") && IsImageFile("a.Png")
    ensures !IsImageFile("notes.txt") && !IsImageFile("jpg")
  {
    assert Lower("me.JPG") == "me.jpg";
    assert Lower("a.Png") == "a.png";
    assert Lower("notes.txt") == "notes.txt";
    assert Lower("jpg") == "jpg";
  }

  /** A name is an image file exactly when its last four characters, in lower
      case, are ".jpg" or ".png", or its last five are ".jpeg". */
  lemma IsImageFileBySuffix(name: string)
    ensures IsImageFile(name) <==>
      (|name| >= 4 && Lower(name[|name| - 4..]) in {".jpg", ".png"}) ||
      (|name| >= 5 && Lower(name[|name| - 5..]) == ".jpeg")
  {
    if |name| >= 4 {
      assert Lower(name)[|name| - 4..] == Lower(name[|name| - 4..]);
    }
    if |name| >= 5 {
      assert Lower(name)[|name| - 5..] == Lower(name[|name| - 5..]);
    }
  }

  /** Any name ending in one of the three extensions, in any letter case, is an image file. */
  lemma IsImageFileAnyCase(stem: string, ext: string)
    requires Lower(ext) in {".jpg", ".jpeg", ".png"}
    ensures IsImageFile(stem + ext)
  {
    var n := stem + ext;
    assert n[|n| - |ext|..] == ext;
    IsImageFileBySuffix(n);
    assert Lower(n)[|n| - |ext|..] == Lower(ext);
  }

  /** Whether a file adds an encoding: an image whose load found at least one face. */
  predicate Contributes(f: ImageFile) {
    IsImageFile(f.name) && f.load.Encoded? && |f.load.encodings| > 0
  }

  /** The encodings one person's folder contributes, in listing order: the
      first face of each image file in which a face was found. */
  function FolderEncodings(files: seq<ImageFile>): seq<Encoding>
    decreases |files|
  {
    if files == [] then []
    else
      var f := files[|files| - 1];
      FolderEncodings(files[..|files| - 1]) + (if Contributes(f) then [f.load.encodings[0]] else [])
  }

  /** The (encoding, name) pairs the whole gallery contributes, in listing order;
      plain files at the top level are skipped. */
  function GalleryEncodings(entries: seq<GalleryEntry>): seq<Encoding>
    decreases |entries|
  {
    if entries == [] then []
    else
      var e := entries[|entries| - 1];
      GalleryEncodings(entries[..|entries| - 1]) + (if e.isDir then FolderEncodings(e.files) else [])
  }

  function Repeat(name: string, n: nat): (r: seq<string>)
    ensures |r| == n && forall i :: 0 <= i < n ==> r[i] == name
  {
    seq(n, _ => name)
  }

  function GalleryNames(entries: seq<GalleryEntry>): seq<string>
    decreases |entries|
  {
    if entries == [] then []
    else
      var e := entries[|entries| - 1];
      GalleryNames(entries[..|entries| - 1]) + (if e.isDir then Repeat(e.name, |FolderEncodings(e.files)|) else [])
  }

  /** The positions, in the folder listing, of the files that contribute. */
  function ContributingFiles(files: seq<ImageFile>): seq<nat>
    decreases |files|
  {
    if files == [] then []
    else
      ContributingFiles(files[..|files| - 1]) + (if Contributes(files[|files| - 1]) then [|files| - 1] else [])
  }

  /** Every encoding a folder contributes is the first face of an image file
      with a face, one per such file, in listing order. */
  lemma {:induction false} FolderEncodingsFromImages(files: seq<ImageFile>)
    ensures |ContributingFiles(files)| == |FolderEncodings(files)|
    ensures forall k :: 0 <= k < |ContributingFiles(files)| ==>
      ContributingFiles(files)[k] < |files| && Contributes(files[ContributingFiles(files)[k]]) &&
      FolderEncodings(files)[k] == files[ContributingFiles(files)[k]].load.encodings[0]
    ensures forall k1, k2 :: 0 <= k1 < k2 < |ContributingFiles(files)| ==> ContributingFiles(files)[k1] < ContributingFiles(files)[k2]
    decreases |files|
  {
    if files != [] {
      var init := files[..|files| - 1];
      FolderEncodingsFromImages(init);
      var c, c0 := ContributingFiles(files), ContributingFiles(init);
      var e, e0 := FolderEncodings(files), FolderEncodings(init);
      forall k | 0 <= k < |c0| ensures c[k] == c0[k] && e[k] == e0[k] && files[c0[k]] == init[c0[k]] { }
    }
  }

  /** For each gallery encoding, the position in the listing of the folder it came from. */
  function GallerySources(entries: seq<GalleryEntry>): seq<nat>
    decreases |entries|
  {
    if entries == [] then []
    else
      var e := entries[|entries| - 1];
      GallerySources(entries[..|entries| - 1]) + (if e.isDir then seq(|FolderEncodings(e.files)|, _ => |entries| - 1) else [])
  }

  /** The two lists stay in step: equally long, and the `i`-th name is that of
      the folder the `i`-th encoding was loaded from. */
  lemma {:induction false} GalleryInStep(entries: seq<GalleryEntry>)
    ensures |GalleryEncodings(entries)| == |GalleryNames(entries)| == |GallerySources(entries)|
    ensures forall i :: 0 <= i < |GallerySources(entries)| ==>
      var k := GallerySources(entries)[i];
      k < |entries| && entries[k].isDir && entries[k].name == GalleryNames(entries)[i] &&
      GalleryEncodings(entries)[i] in FolderEncodings(entries[k].files)
    decreases |entries|
  {
    if entries != [] {
      var init := entries[..|entries| - 1];
      var e := entries[|entries| - 1];
      GalleryInStep(init);
      var n0 := |GallerySources(init)|;
      var src, names, encs := GallerySources(entries), GalleryNames(entries), GalleryEncodings(entries);
      forall i | 0 <= i < |src|
        ensures src[i] < |entries| && entries[src[i]].isDir && entries[src[i]].name == names[i] &&
          encs[i] in FolderEncodings(entries[src[i]].files)
      {
        if i < n0 {
          assert src[i] == GallerySources(init)[i] && names[i] == GalleryNames(init)[i] && encs[i] == GalleryEncodings(init)[i];
          assert entries[src[i]] == init[src[i]];
        } else {
          assert src[i] == |entries| - 1 && names[i] == e.name;
          assert encs[i] == FolderEncodings(e.files)[i - n0];
        }
      }
    }
  }

  /** A folder with no image files, or whose images hold no face, adds nothing. */
  lemma {:induction false} FolderWithoutImages(files: seq<ImageFile>)
    requires forall j :: 0 <= j < |files| ==> !Contributes(files[j])
    ensures FolderEncodings(files) == []
    decreases |files|
  {
    if files != [] {
      FolderWithoutImages(files[..|files| - 1]);
    }
  }

  // ---------------------------------------------------------- recognition

  /** `face_distance`: the distance of `e` to each known encoding, in order. */
  function Distances(known: seq<Encoding>, e: Encoding, distance: (Encoding, Encoding) -> real): seq<real> {
    seq(|known|, i requires 0 <= i < |known| => distance(known[i], e))
  }

  /** `np.argmin`: the first index of the smallest value. */
  function ArgMin(ds: seq<real>): (r: nat)
    requires ds != []
    ensures r < |ds|
    ensures forall j :: 0 <= j < |ds| ==> ds[r] <= ds[j]
    ensures forall j :: 0 <= j < r ==> ds[j] > ds[r]
    decreases |ds|
  {
    if |ds| == 1 then 0
    else
      var k := ArgMin(ds[..|ds| - 1]);
      if ds[|ds| - 1] < ds[k] then |ds| - 1 else k
  }

  /** `k` is the first index of a known encoding at the smallest distance from `e`. */
  ghost predicate FirstClosest(known: seq<Encoding>, e: Encoding, distance: (Encoding, Encoding) -> real, k: int) {
    0 <= k < |known| &&
    (forall j :: 0 <= j < |known| ==> distance(known[k], e) <= distance(known[j], e)) &&
    (forall j :: 0 <= j < k ==> distance(known[k], e) < distance(known[j], e))
  }

  /** At most one index is the first closest. */
  lemma FirstClosestUnique(known: seq<Encoding>, e: Encoding, distance: (Encoding, Encoding) -> real, k1: int, k2: int)
    requires FirstClosest(known, e, distance, k1) && FirstClosest(known, e, distance, k2)
    ensures k1 == k2
  {
    assert distance(known[k1], e) <= distance(known[k2], e);
    assert distance(known[k2], e) <= distance(known[k1], e);
  }

  /** `np.argmin(face_distance(known, e))`: the index of the closest known encoding. */
  function ClosestIndex(known: seq<Encoding>, e: Encoding, distance: (Encoding, Encoding) -> real): (r: nat)
    requires known != []
    ensures FirstClosest(known, e, distance, r)
  {
    var ds := Distances(known, e, distance);
    var k := ArgMin(ds);
    assert forall j :: 0 <= j < |known| ==> ds[j] == distance(known[j], e);
    k
  }

  /** The name given to a face with encoding `e`: the name of the closest known
      face when `compare_faces` matches it, else "Unknown". */
  function NameFor(known: seq<Encoding>, names: seq<string>, e: Encoding, distance: (Encoding, Encoding) -> real): string
    requires |known| == |names|
  {
    if |known| == 0 then Unknown
    else
      var best := ClosestIndex(known, e, distance);
      if distance(known[best], e) <= Tolerance then names[best] else Unknown
  }

  /** The naming rule: a face gets a known name exactly when some known face is
      within tolerance, and then it is the name of the first closest one; with
      no known faces every face is "Unknown". */
  lemma NameRule(known: seq<Encoding>, names: seq<string>, e: Encoding, distance: (Encoding, Encoding) -> real)
    requires |known| == |names|
    ensures known == [] ==> NameFor(known, names, e, distance) == Unknown
    ensures (exists i :: 0 <= i < |known| && distance(known[i], e) <= Tolerance) ==>
      known != [] && forall k :: FirstClosest(known, e, distance, k) ==> NameFor(known, names, e, distance) == names[k]
    ensures (forall i :: 0 <= i < |known| ==> distance(known[i], e) > Tolerance) ==>
      NameFor(known, names, e, distance) == Unknown
  {
    if exists i :: 0 <= i < |known| && distance(known[i], e) <= Tolerance {
      var i :| 0 <= i < |known| && distance(known[i], e) <= Tolerance;
      var best := ClosestIndex(known, e, distance);
      assert distance(known[best], e) <= distance(known[i], e);
      forall k | FirstClosest(known, e, distance, k)
        ensures NameFor(known, names, e, distance) == names[k]
      {
        FirstClosestUnique(known, e, distance, k, best);
      }
    }
  }

  /** A detected face on the shrunk frame: its box and its encoding. */
  datatype Location = Location(top: int, right: int, bottom: int, left: int)
  datatype DetectedFace = DetectedFace(location: Location, encoding: Encoding)

  function FaceNames(known: seq<Encoding>, names: seq<string>, faces: seq<DetectedFace>, distance: (Encoding, Encoding) -> real): (r: seq<string>)
    requires |known| == |names|
    ensures |r| == |faces|
    decreases |faces|
  {
    if faces == [] then []
    else FaceNames(known, names, faces[..|faces| - 1], distance) + [NameFor(known, names, faces[|faces| - 1].encoding, distance)]
  }

  /** One name per face, in detection order. */
  lemma {:induction false} FaceNamesAt(known: seq<Encoding>, names: seq<string>, faces: seq<DetectedFace>, distance: (Encoding, Encoding) -> real)
    requires |known| == |names|
    ensures forall i :: 0 <= i < |faces| ==> FaceNames(known, names, faces, distance)[i] == NameFor(known, names, faces[i].encoding, distance)
    decreases |faces|
  {
    if faces != [] {
      FaceNamesAt(known, names, faces[..|faces| - 1], distance);
    }
  }

  /** The log lines for a run of names: `Identified: <name>` for each known one. */
  function IdentifiedLogs(faceNames: seq<string>): seq<string>
    decreases |faceNames|
  {
    if faceNames == [] then []
    else
      var n := faceNames[|faceNames| - 1];
      IdentifiedLogs(faceNames[..|faceNames| - 1]) + (if n != Unknown then ["Identified: " + n] else [])
  }

  /** There is one log line per face not named "Unknown", and none for the others. */
  lemma {:induction false} IdentifiedLogsCount(faceNames: seq<string>)
    ensures |IdentifiedLogs(faceNames)| == |faceNames| - multiset(faceNames)[Unknown]
    decreases |faceNames|
  {
    if faceNames != [] {
      var init := faceNames[..|faceNames| - 1];
      IdentifiedLogsCount(init);
      assert faceNames == init + [faceNames[|faceNames| - 1]];
    }
  }

  /** Each log line names a face that was identified. */
  lemma {:induction false} IdentifiedLogsNames(faceNames: seq<string>)
    ensures forall k :: 0 <= k < |IdentifiedLogs(faceNames)| ==>
      exists i :: 0 <= i < |faceNames| && faceNames[i] != Unknown && IdentifiedLogs(faceNames)[k] == "Identified: " + faceNames[i]
    decreases |faceNames|
  {
    if faceNames != [] {
      var init := faceNames[..|faceNames| - 1];
      IdentifiedLogsNames(init);
      var last := faceNames[|faceNames| - 1];
      assert IdentifiedLogs(faceNames) == IdentifiedLogs(init) + (if last != Unknown then ["Identified: " + last] else []);
      forall k | 0 <= k < |IdentifiedLogs(faceNames)|
        ensures exists i :: 0 <= i < |faceNames| && faceNames[i] != Unknown && IdentifiedLogs(faceNames)[k] == "Identified: " + faceNames[i]
      {
        if k < |IdentifiedLogs(init)| {
          var i :| 0 <= i < |init| && init[i] != Unknown && IdentifiedLogs(init)[k] == "Identified: " + init[i];
          assert faceNames[i] == init[i];
          assert IdentifiedLogs(faceNames)[k] == IdentifiedLogs(init)[k];
        } else {
          var i := |faceNames| - 1;
          assert faceNames[i] != Unknown && IdentifiedLogs(faceNames)[k] == "Identified: " + faceNames[i];
        }
      }
    } else {
      assert |IdentifiedLogs(faceNames)| == 0;
    }
  }

  /** The three drawing calls for one face, with its box scaled back up. */
  function FaceDrawings(loc: Location, name: string): (r: seq<Drawing>)
    ensures |r| == 3
  {
    var top, right, bottom, left := loc.top * Scale, loc.right * Scale, loc.bottom * Scale, loc.left * Scale;
    var color := if name != Unknown then Green else Red;
    [Rect(left, top, right, bottom, color), FilledRect(left, bottom - 35, right, bottom, color), Label(name, left + 6, bottom - 6, White)]
  }

  /** The box outline of each face encloses the original box scaled by 4, is
      green exactly for identified faces, and the name sits inside the filled
      strip at the bottom of the box. */
  lemma FaceDrawingsShape(loc: Location, name: string)
    ensures var d := FaceDrawings(loc, name);
      d[0] == Rect(Scale * loc.left, Scale * loc.top, Scale * loc.right, Scale * loc.bottom, d[0].color) &&
      (d[0].color == Green <==> name != Unknown) && d[1].color == d[0].color &&
      d[1].y2 == d[0].y2 && d[1].y1 == d[0].y2 - 35 && d[1].x1 == d[0].x1 && d[1].x2 == d[0].x2 &&
      d[2] == Label(name, d[0].x1 + 6, d[0].y2 - 6, White)
  {
  }

  function AllDrawings(faces: seq<DetectedFace>, faceNames: seq<string>): seq<Drawing>
    requires |faces| == |faceNames|
    decreases |faces|
  {
    if faces == [] then []
    else
      var n := |faces| - 1;
      AllDrawings(faces[..n], faceNames[..n]) + FaceDrawings(faces[n].location, faceNames[n])
  }

  /** Three drawing calls per face, in detection order. */
  lemma {:induction false} AllDrawingsAt(faces: seq<DetectedFace>, faceNames: seq<string>)
    requires |faces| == |faceNames|
    ensures |AllDrawings(faces, faceNames)| == 3 * |faces|
    ensures forall i :: 0 <= i < |faces| ==>
      AllDrawings(faces, faceNames)[3 * i..3 * i + 3] == FaceDrawings(faces[i].location, faceNames[i])
    decreases |faces|
  {
    if faces != [] {
      var n := |faces| - 1;
      AllDrawingsAt(faces[..n], faceNames[..n]);
      var prev := AllDrawings(faces[..n], faceNames[..n]);
      forall i | 0 <= i < |faces|
        ensures AllDrawings(faces, faceNames)[3 * i..3 * i + 3] == FaceDrawings(faces[i].location, faceNames[i])
      {
        if i < n {
          assert AllDrawings(faces, faceNames)[3 * i..3 * i + 3] == prev[3 * i..3 * i + 3];
        }
      }
    }
  }

  /** One more face: its name is appended, and its log line when identified. */
  lemma NamesStep(known: seq<Encoding>, names: seq<string>, faces: seq<DetectedFace>, i: nat, distance: (Encoding, Encoding) -> real)
    requires |known| == |names| && i < |faces|
    ensures var n := NameFor(known, names, faces[i].encoding, distance);
      FaceNames(known, names, faces[..i + 1], distance) == FaceNames(known, names, faces[..i], distance) + [n] &&
      IdentifiedLogs(FaceNames(known, names, faces[..i + 1], distance))
        == IdentifiedLogs(FaceNames(known, names, faces[..i], distance)) + (if n != Unknown then ["Identified: " + n] else [])
  {
    assert faces[..i + 1][..i] == faces[..i];
    var ns := FaceNames(known, names, faces[..i + 1], distance);
    assert ns[..|ns| - 1] == FaceNames(known, names, faces[..i], distance);
  }

  /** One more face drawn: its three drawing calls are appended. */
  lemma DrawingsStep(faces: seq<DetectedFace>, faceNames: seq<string>, k: nat)
    requires |faces| == |faceNames| && k < |faces|
    ensures AllDrawings(faces[..k + 1], faceNames[..k + 1])
      == AllDrawings(faces[..k], faceNames[..k]) + FaceDrawings(faces[k].location, faceNames[k])
  {
    assert faces[..k + 1][..k] == faces[..k] && faceNames[..k + 1][..k] == faceNames[..k];
  }

  /** One more gallery entry taken from the listing: a folder appends its
      encodings and as many copies of its name; a plain file appends nothing. */
  lemma GalleryStep(entries: seq<GalleryEntry>, i: nat, e0: seq<Encoding>, n0: seq<string>, e: seq<Encoding>, n: seq<string>)
    requires i < |entries|
    requires e == e0 + GalleryEncodings(entries[..i]) && n == n0 + GalleryNames(entries[..i])
    ensures entries[i].isDir ==>
      e + FolderEncodings(entries[i].files) == e0 + GalleryEncodings(entries[..i + 1]) &&
      n + Repeat(entries[i].name, |FolderEncodings(entries[i].files)|) == n0 + GalleryNames(entries[..i + 1])
    ensures !entries[i].isDir ==> e == e0 + GalleryEncodings(entries[..i + 1]) && n == n0 + GalleryNames(entries[..i + 1])
  {
    assert entries[..i + 1][..i] == entries[..i];
  }

  class Recognizer {
    var knownEncodings: seq<Encoding>
    var knownNames: seq<string>
    /** Whether `load_faces` had to create the gallery directory. */
    var createdDir: bool

    ghost predicate Valid()
      reads this
    {
      |knownEncodings| == |knownNames|
    }

    constructor ()
      ensures Valid() && knownEncodings == [] && knownNames == [] && !createdDir
    {
      knownEncodings, knownNames, createdDir := [], [], false;
    }

    /** `load_faces`: a missing gallery directory is created and nothing is
        loaded; otherwise each person folder's encodings are appended with the
        folder name beside each. */
    method LoadFaces(dirExists: bool, entries: seq<GalleryEntry>)
      requires Valid()
      modifies this`knownEncodings, this`knownNames, this`createdDir
      ensures Valid()
      ensures !dirExists ==> createdDir && knownEncodings == old(knownEncodings) && knownNames == old(knownNames)
      ensures dirExists ==> createdDir == old(createdDir)
      ensures dirExists ==> knownEncodings == old(knownEncodings) + GalleryEncodings(entries)
      ensures dirExists ==> knownNames == old(knownNames) + GalleryNames(entries)
    {
      if !dirExists {
        createdDir := true;
        return;
      }
      LoadGallery(entries);
      GalleryInStep(entries);
    }

    /** The loop over the gallery's entries; plain files are skipped. */
    method LoadGallery(entries: seq<GalleryEntry>)
      modifies this`knownEncodings, this`knownNames
      ensures knownEncodings == old(knownEncodings) + GalleryEncodings(entries)
      ensures knownNames == old(knownNames) + GalleryNames(entries)
    {
      var i := 0;
      while i < |entries|
        invariant 0 <= i <= |entries|
        invariant knownEncodings == old(knownEncodings) + GalleryEncodings(entries[..i])
        invariant knownNames == old(knownNames) + GalleryNames(entries[..i])
      {
        GalleryStep(entries, i, old(knownEncodings), old(knownNames), knownEncodings, knownNames);
        var entry := entries[i];
        if entry.isDir {
          LoadFolder(entry.name, entry.files);
        }
        i := i + 1;
      }
      assert entries[..|entries|] == entries;
    }

    /** The inner loop over one person's files. */
    method LoadFolder(person: string, files: seq<ImageFile>)
      modifies this`knownEncodings, this`knownNames
      ensures knownEncodings == old(knownEncodings) + FolderEncodings(files)
      ensures knownNames == old(knownNames) + Repeat(person, |FolderEncodings(files)|)
    {
      var j := 0;
      while j < |files|
        invariant 0 <= j <= |files|
        invariant knownEncodings == old(knownEncodings) + FolderEncodings(files[..j])
        invariant knownNames == old(knownNames) + Repeat(person, |FolderEncodings(files[..j])|)
      {
        assert files[..j + 1][..j] == files[..j];
        var f := files[j];
        if IsImageFile(f.name) {
          match f.load {
            case Encoded(enc) =>
              if |enc| > 0 {
                knownEncodings := knownEncodings + [enc[0]];
                knownNames := knownNames + [person];
              }
            case LoadError(_) =>
          }
        }
        j := j + 1;
      }
      assert files[..|files|] == files;
    }

    /** The first loop of `process_frame`: one name per face, in order, and a
        log line for each identified one. */
    method NameFaces(faces: seq<DetectedFace>, distance: (Encoding, Encoding) -> real)
      returns (faceNames: seq<string>, logs: seq<string>)
      requires Valid()
      ensures faceNames == FaceNames(knownEncodings, knownNames, faces, distance)
      ensures logs == IdentifiedLogs(faceNames)
    {
      logs := [];
      faceNames := [];
      var i := 0;
      while i < |faces|
        invariant 0 <= i <= |faces|
        invariant faceNames == FaceNames(knownEncodings, knownNames, faces[..i], distance)
        invariant logs == IdentifiedLogs(faceNames)
      {
        NamesStep(knownEncodings, knownNames, faces, i, distance);
        var name := Unknown;
        var ds := Distances(knownEncodings, faces[i].encoding, distance);
        if |ds| > 0 {
          var best := ArgMin(ds);
          if ds[best] <= Tolerance {
            name := knownNames[best];
          }
        }
        assert name == NameFor(knownEncodings, knownNames, faces[i].encoding, distance);
        faceNames := faceNames + [name];
        if name != Unknown {
          logs := logs + ["Identified: " + name];
        }
        i := i + 1;
      }
      assert faces[..|faces|] == faces;
    }

    /** `process_frame`: one name per detected face, the log lines for the
        identified ones, and the face boxes drawn on the frame. */
    method ProcessFrame(frame: Option<Frame>, faces: seq<DetectedFace>, distance: (Encoding, Encoding) -> real)
      returns (out: Option<Frame>, logs: seq<string>)
      requires Valid()
      ensures frame.None? ==> out.None? && logs == []
      ensures frame.Some? ==>
        var faceNames := FaceNames(knownEncodings, knownNames, faces, distance);
        logs == IdentifiedLogs(faceNames) &&
        out == Some(frame.value.(drawings := frame.value.drawings + AllDrawings(faces, faceNames)))
    {
      if frame.None? {
        return None, [];
      }
      var faceNames;
      faceNames, logs := NameFaces(faces, distance);
      var f := DrawFaces(frame.value, faces, faceNames);
      out := Some(f);
    }
  }

  /** The second loop of `process_frame`: each face's box, scaled back up,
      drawn with its name. */
  method DrawFaces(frame: Frame, faces: seq<DetectedFace>, faceNames: seq<string>) returns (f: Frame)
    requires |faces| == |faceNames|
    ensures f == frame.(drawings := frame.drawings + AllDrawings(faces, faceNames))
  {
    f := frame;
    var k := 0;
    while k < |faces|
      invariant 0 <= k <= |faces|
      invariant f == frame.(drawings := frame.drawings + AllDrawings(faces[..k], faceNames[..k]))
    {
      DrawingsStep(faces, faceNames, k);
      var loc := faces[k].location;
      var name := faceNames[k];
      var top, right, bottom, left := loc.top, loc.right, loc.bottom, loc.left;
      top := top * Scale;
      right := right * Scale;
      bottom := bottom * Scale;
      left := left * Scale;
      var color := if name != Unknown then Green else Red;
      f := Draw(f, Rect(left, top, right, bottom, color));
      f := Draw(f, FilledRect(left, bottom - 35, right, bottom, color));
      f := Draw(f, Label(name, left + 6, bottom - 6, White));
      k := k + 1;
    }
    assert faces[..|faces|] == faces && faceNames[..|faceNames|] == faceNames;
  }
}
