/** The base images that come with an EVE-NG lab: exactly the ones that its definitions name. */
module LabImages {
  import opened Ordering
  import opened Segments
  import opened Members

  /** A base image: the root it is installed under, and its directory or file name. */
  datatype Image = Image(root: string, name: string)

  /** A definition names an image, in a given root or (None) in whichever holds it. */
  datatype Reference = Reference(root: Option<string>, name: string)

  datatype Flaw =
    | NothingReferenced
    | NoFiles
    | UnsupportedPath(path: string)
    | LicenceMaterial
    | InvalidLayout(path: string)
    | UnsafeReference(reference: Reference)
    | MissingBase(missing: Reference)
    | UnreferencedBase(extra: Image)

  datatype Inspection = Accepted(images: set<Image>) | Rejected(flaw: Flaw)

  function Lower(c: char): char {
    if 'A' <= c <= 'Z' then "abcdefghijklmnopqrstuvwxyz"[(c as int) - ('A' as int)] else c
  }

  function Lowered(s: string): string {
    if s == [] then [] else [Lower(s[0])] + Lowered(s[1..])
  }

  predicate Supported(path: string) {
    "qemu/" <= path || "iol/bin/" <= path || "dynamips/" <= path
  }

  predicate Licence(path: string) {
    Lowered(path) == "iol/bin/iourc" || Lowered(path) == "iol/bin/iourc.txt"
  }

  /** The image that a file belongs to: a QEMU image is a directory, the others are single files. */
  function ImageOf(path: string): Option<Image> {
    var parts := Components(path);
    if |parts| >= 2 && parts[0] == "qemu" then Some(Image("qemu", parts[1]))
    else if |parts| == 3 && parts[0] == "iol" && parts[1] == "bin" then Some(Image("iol/bin", parts[2]))
    else if |parts| == 2 && parts[0] == "dynamips" then Some(Image("dynamips", parts[1]))
    else None
  }

  /** A reference names one entry of a directory, and nothing else. */
  predicate SafeReference(r: Reference) {
    r.name != ".." && '\\' !in r.name && Components(r.name) == [r.name]
  }

  predicate Matches(r: Reference, image: Image) {
    image.name == r.name && (r.root.None? || r.root.value == image.root)
  }

  // ----- The same, in letters and components ---------------------------------------------------------

  /** The same letter, in whichever case the first is. */
  predicate SameLetter(c: char, lower: char) {
    c == lower || ('A' <= c <= 'Z' && (c as int) + 32 == lower as int)
  }

  predicate Spells(path: string, name: string) {
    |path| == |name| && forall i :: 0 <= i < |path| ==> SameLetter(path[i], name[i])
  }

  /** The path is the licence file of the IOL images, in any spelling. */
  predicate IsLicence(path: string) {
    Spells(path, "iol/bin/iourc") || Spells(path, "iol/bin/iourc.txt")
  }

  /** The path lies under one of the three roots that EVE-NG keeps images in. */
  predicate HasRoot(path: string) {
    || (|path| >= 5 && path[..5] == "qemu/")
    || (|path| >= 8 && path[..8] == "iol/bin/")
    || (|path| >= 9 && path[..9] == "dynamips/")
  }

  /** The file is the image, or lies in its directory. */
  predicate BelongsTo(path: string, image: Image) {
    || (image.root == "qemu" && ["qemu", image.name] <= Components(path))
    || (image.root == "iol/bin" && Components(path) == ["iol", "bin", image.name])
    || (image.root == "dynamips" && Components(path) == ["dynamips", image.name])
  }

  predicate PlainName(name: string) {
    name !in {"", ".", ".."} && '/' !in name && '\\' !in name
  }

  /** The reference names this image: in its own root, or in any if it gives none. */
  predicate NamesImage(r: Reference, image: Image) {
    r.name == image.name && r.root in {None, Some(image.root)}
  }

  lemma {:induction false} LoweredSpells(path: string, name: string)
    requires forall i :: 0 <= i < |name| ==> !('A' <= name[i] <= 'Z')
    ensures Lowered(path) == name <==> Spells(path, name)
  {
    if path != [] {
      LowerIsSameLetter(path[0]);
      if name != [] {
        LoweredSpells(path[1..], name[1..]);
        assert name == [name[0]] + name[1..];
        assert Spells(path, name) <==> SameLetter(path[0], name[0]) && Spells(path[1..], name[1..]) by {
          assert forall i :: 1 <= i < |path| ==> path[i] == path[1..][i - 1];
          assert forall i :: 1 <= i < |name| ==> name[i] == name[1..][i - 1];
        }
      }
    }
  }

  lemma LowerIsSameLetter(c: char)
    ensures forall lower :: !('A' <= lower <= 'Z') ==> (Lower(c) == lower <==> SameLetter(c, lower))
  {
    var letters := "abcdefghijklmnopqrstuvwxyz";
    assert forall k :: 0 <= k < 26 ==> (letters[k] as int) == 97 + k;
  }

  lemma LicenceIff(path: string)
    ensures Licence(path) <==> IsLicence(path)
  {
    LoweredSpells(path, "iol/bin/iourc");
    LoweredSpells(path, "iol/bin/iourc.txt");
  }

  lemma SupportedIff(path: string)
    ensures Supported(path) <==> HasRoot(path)
  {
  }

  lemma ImageOfIff(path: string, image: Image)
    ensures ImageOf(path) == Some(image) <==> BelongsTo(path, image)
  {
    hide Components;
    var parts := Components(path);
    if |parts| >= 2 {
      assert parts[..2] == [parts[0], parts[1]];
    }
  }

  lemma OneImageEach(path: string)
    ensures forall image :: BelongsTo(path, image) <==> ImageOf(path) == Some(image)
  {
    hide ImageOf, BelongsTo;
    forall image
      ensures BelongsTo(path, image) <==> ImageOf(path) == Some(image)
    {
      ImageOfIff(path, image);
    }
  }

  lemma PlainIff(r: Reference)
    ensures SafeReference(r) <==> PlainName(r.name)
  {
    if PlainName(r.name) {
      assert Join([r.name], '/') == r.name;
      ComponentsOfJoin([r.name]);
    }
    if Components(r.name) == [r.name] {
      assert Components(r.name)[0] == r.name;
    }
  }

  // ----- What an inspection asks for -----------------------------------------------------------------

  ghost predicate HasImage(path: string) {
    exists image :: BelongsTo(path, image)
  }

  ghost predicate FilesSound(files: seq<string>) {
    forall i :: 0 <= i < |files| ==> HasRoot(files[i]) && !IsLicence(files[i]) && HasImage(files[i])
  }

  ghost predicate Brings(files: seq<string>, image: Image) {
    exists i :: 0 <= i < |files| && BelongsTo(files[i], image)
  }

  /** Every reference is met by a base in the archive. */
  ghost predicate Complete(files: seq<string>, references: seq<Reference>) {
    forall i :: 0 <= i < |references| ==> PlainName(references[i].name) && Met(files, references[i])
  }

  ghost predicate Met(files: seq<string>, r: Reference) {
    exists image :: Brings(files, image) && NamesImage(r, image)
  }

  lemma MatchesIff(r: Reference)
    ensures forall image :: Matches(r, image) <==> NamesImage(r, image)
  {
  }

  /** A reference is met exactly if something selected matches it. */
  lemma MetBySelected(files: seq<string>, selected: set<Image>, r: Reference)
    requires forall image :: image in selected <==> Brings(files, image)
    ensures Met(files, r) <==> exists image :: image in selected && Matches(r, image)
  {
    hide Brings;
    MatchesIff(r);
    if image :| image in selected && Matches(r, image) {
      assert Brings(files, image) && NamesImage(r, image);
    }
  }

  /** Every base in the archive is met by a reference. */
  ghost predicate Lean(files: seq<string>, references: seq<Reference>) {
    forall image :: Brings(files, image) ==> exists i :: 0 <= i < |references| && NamesImage(references[i], image)
  }

  /** The flaw that is reported is there. */
  ghost predicate Warranted(files: seq<string>, references: seq<Reference>, flaw: Flaw) {
    match flaw
    case NothingReferenced => references == []
    case NoFiles => references != [] && files == []
    case UnsupportedPath(path) => path in files && !HasRoot(path)
    case LicenceMaterial => exists path :: path in files && IsLicence(path)
    case InvalidLayout(path) => path in files && !HasImage(path)
    case UnsafeReference(r) => r in references && !PlainName(r.name)
    case MissingBase(r) => r in references && !Met(files, r)
    case UnreferencedBase(image) => Brings(files, image) && forall i :: 0 <= i < |references| ==> !NamesImage(references[i], image)
  }

  /** The checks on the paths, and the bases that the files make up. */
  method SelectImages(files: seq<string>) returns (selected: set<Image>, flaw: Option<Flaw>)
    ensures flaw.None? <==> FilesSound(files)
    ensures flaw.None? ==> forall image :: image in selected <==> Brings(files, image)
    ensures forall references :: flaw.Some? ==> Warranted(files, references, flaw.value)
  {
    hide Supported, Licence, ImageOf, HasRoot, IsLicence, BelongsTo;
    selected := {};
    for i := 0 to |files|
      invariant forall k :: 0 <= k < i ==> HasRoot(files[k])
    {
      SupportedIff(files[i]);
      if !Supported(files[i]) {
        return {}, Some(UnsupportedPath(files[i]));
      }
    }
    for i := 0 to |files|
      invariant forall k :: 0 <= k < i ==> !IsLicence(files[k])
    {
      LicenceIff(files[i]);
      if Licence(files[i]) {
        return {}, Some(LicenceMaterial);
      }
    }
    for i := 0 to |files|
      invariant forall k :: 0 <= k < i ==> HasImage(files[k])
      invariant forall image :: image in selected <==> exists k :: 0 <= k < i && BelongsTo(files[k], image)
    {
      var image := ImageOf(files[i]);
      OneImageEach(files[i]);
      if image.None? {
        return {}, Some(InvalidLayout(files[i]));
      }
      assert BelongsTo(files[i], image.value);
      selected := selected + {image.value};
    }
    flaw := None;
  }

  /** `_inspect_eve_images`, on the names of the archive's regular files. */
  method InspectImages(files: seq<string>, references: seq<Reference>) returns (r: Inspection)
    ensures r.Accepted? <==> references != [] && files != [] && FilesSound(files) && Complete(files, references) && Lean(files, references)
    ensures r.Accepted? ==> forall image :: image in r.images <==> Brings(files, image)
    ensures r.Rejected? ==> Warranted(files, references, r.flaw)
  {
    hide SafeReference, PlainName, FilesSound, Brings, Met, NamesImage;
    if references == [] {
      return Rejected(NothingReferenced);
    }
    if files == [] {
      return Rejected(NoFiles);
    }
    var selected, flaw := SelectImages(files);
    if flaw.Some? {
      return Rejected(flaw.value);
    }
    var wanted: set<Image> := {};
    var missing: Option<Reference> := None;
    ghost var at: nat := 0;
    for i := 0 to |references|
      invariant forall k :: 0 <= k < i ==> PlainName(references[k].name)
      invariant missing.None? ==> forall k :: 0 <= k < i ==> Met(files, references[k])
      invariant missing.Some? ==> at < i && references[at] == missing.value && !Met(files, references[at])
      invariant forall image :: image in selected ==> (image in wanted <==> exists k :: 0 <= k < i && NamesImage(references[k], image))
    {
      var reference := references[i];
      PlainIff(reference);
      MatchesIff(reference);
      if !SafeReference(reference) {
        return Rejected(UnsafeReference(reference));
      }
      MetBySelected(files, selected, reference);
      if reference.root.None? {
        var matches := set image | image in selected && image.name == reference.name;
        if matches == {} && missing.None? {
          at := i;
          missing := Some(reference);
        }
        wanted := wanted + matches;
      } else {
        var image := Image(reference.root.value, reference.name);
        if image !in selected && missing.None? {
          at := i;
          missing := Some(reference);
        }
        wanted := wanted + {image};
      }
    }
    if missing.Some? {
      return Rejected(MissingBase(missing.value));
    }
    var extra := selected - wanted;
    if extra != {} {
      var image :| image in extra;
      return Rejected(UnreferencedBase(image));
    }
    r := Accepted(selected);
  }
}
