/**
 Staging a lab migration archive: files first, each replaced in one step, the record that
 names them last.  A crash leaves the disk in one of the states of the store's history.
 */
module Migration {
  import opened Ordering

  type Bytes = seq<nat>
  /** A checksum in hex; the empty one stands for "no such archive". */
  type Digest = string

  datatype Platform = EveNg | Gns3 | Containerlab
  datatype Kind = Labs | NodeState | Images

  /** The three checksums that identify a bundle. */
  datatype Bundle = Bundle(labs: Digest, nodes: Digest, images: Digest)

  /** SHA-256 and the bundle id made from it, left uninterpreted. */
  datatype Hashing = Hashing(sum: Bytes -> Digest, id: Bundle -> string)

  /** Different bundles have different ids, and no file has the empty checksum. */
  ghost predicate Collisionless(h: Hashing) {
    && (forall a, b :: h.id(a) == h.id(b) ==> a == b)
    && (forall bytes :: h.sum(bytes) != "")
  }

  function Part(b: Bundle, kind: Kind): Digest {
    match kind
    case Labs => b.labs
    case NodeState => b.nodes
    case Images => b.images
  }

  /** `<slug of the blueprint>/<bundle id>/<file of the kind>` */
  datatype Place = Place(ref: string, id: string, kind: Kind)
  datatype Item = Item(place: Place, digest: Digest)

  datatype Record = Record(ref: string, platform: Platform, archive: Item, nodes: Option<Item>, images: Option<Item>)

  function DigestOf(item: Option<Item>): Digest {
    if item.Some? then item.value.digest else ""
  }

  function BundleOf(r: Record): Bundle {
    Bundle(r.archive.digest, DigestOf(r.nodes), DigestOf(r.images))
  }

  /** latest.tar.gz.sha256, the checksum inside latest.tar.gz.json, and the latest.tar.gz link. */
  datatype Latest = Latest(sum: Option<Digest>, meta: Option<Digest>, link: Option<Place>)

  datatype Disk = Disk(files: map<Place, Bytes>, records: map<string, Record>, latest: Latest)

  // ----- What a record promises -------------------------------------------------------------------

  predicate Vouched(h: Hashing, files: map<Place, Bytes>, r: Record, item: Item, kind: Kind) {
    && item.place == Place(r.ref, h.id(BundleOf(r)), kind)
    && item.place in files && h.sum(files[item.place]) == item.digest
  }

  /** The record names only existing files with matching checksums, in its own bundle's directory. */
  predicate RecordSound(h: Hashing, files: map<Place, Bytes>, r: Record) {
    && Vouched(h, files, r, r.archive, Labs)
    && (r.nodes.Some? ==> r.platform == EveNg && Vouched(h, files, r, r.nodes.value, NodeState))
    && (r.images.Some? ==> r.platform == EveNg && Vouched(h, files, r, r.images.value, Images))
  }

  ghost predicate RecordsSound(h: Hashing, files: map<Place, Bytes>, records: map<string, Record>) {
    forall ref :: ref in records ==> records[ref].ref == ref && RecordSound(h, files, records[ref])
  }

  // ----- Loading ----------------------------------------------------------------------------------

  datatype Load = Nothing | Ready(archive: Item, nodes: Option<Item>, images: Option<Item>) | Invalid

  predicate Verifies(h: Hashing, files: map<Place, Bytes>, item: Item) {
    item.digest != "" && item.place in files && h.sum(files[item.place]) == item.digest
  }

  /** `load_migration_archive` for a blueprint of the given platform. */
  function LoadArchive(h: Hashing, d: Disk, ref: string, target: Platform): Load {
    if ref !in d.records then Nothing
    else
      var r := d.records[ref];
      if r.ref != ref || r.platform != target then Invalid
      else if !Verifies(h, d.files, r.archive) then Invalid
      else if r.nodes.Some? && (target != EveNg || !Verifies(h, d.files, r.nodes.value)) then Invalid
      else if r.images.Some? && (target != EveNg || !Verifies(h, d.files, r.images.value)) then Invalid
      else Ready(r.archive, r.nodes, r.images)
  }

  /** The file is there under a checksum that it has. */
  predicate Intact(h: Hashing, files: map<Place, Bytes>, item: Item) {
    |item.digest| > 0 && item.place in files && h.sum(files[item.place]) == item.digest
  }

  /** The record is the blueprint's own, for its platform, and everything that it names is intact. */
  predicate Loadable(h: Hashing, d: Disk, ref: string, target: Platform)
    requires ref in d.records
  {
    var r := d.records[ref];
    && r.ref == ref && r.platform == target && Intact(h, d.files, r.archive)
    && (r.nodes.Some? ==> target == EveNg && Intact(h, d.files, r.nodes.value))
    && (r.images.Some? ==> target == EveNg && Intact(h, d.files, r.images.value))
  }

  /** On any disk, a load yields what the record names exactly if all of it is intact. */
  lemma LoadedIffIntact(h: Hashing, d: Disk, ref: string, target: Platform)
    ensures ref !in d.records ==> LoadArchive(h, d, ref, target) == Nothing
    ensures ref in d.records ==>
              var r := d.records[ref];
              LoadArchive(h, d, ref, target) == if Loadable(h, d, ref, target) then Ready(r.archive, r.nodes, r.images) else Invalid
  {
  }

  /** A sound record never dangles: it loads, and exactly as written. */
  lemma SoundRecordLoads(h: Hashing, d: Disk, ref: string)
    requires Collisionless(h) && RecordsSound(h, d.files, d.records) && ref in d.records
    ensures var r := d.records[ref]; LoadArchive(h, d, ref, r.platform) == Ready(r.archive, r.nodes, r.images)
  {
    assert RecordSound(h, d.files, d.records[ref]);
  }

  /** Replacing a file of a bundle by one with the right checksum disturbs no record. */
  lemma FileKeepsRecords(h: Hashing, files: map<Place, Bytes>, records: map<string, Record>, place: Place,
        b: Bundle, bytes: Bytes)
    requires Collisionless(h) && RecordsSound(h, files, records)
    requires place.id == h.id(b) && h.sum(bytes) == Part(b, place.kind)
    ensures RecordsSound(h, files[place := bytes], records)
  {
    forall ref | ref in records
      ensures RecordSound(h, files[place := bytes], records[ref])
    {
      assert RecordSound(h, files, records[ref]);
    }
  }

  // ----- The store ----------------------------------------------------------------------------------

  class ArtifactStore {
    const h: Hashing
    var files: map<Place, Bytes>
    var records: map<string, Record>
    var latest: Latest
    /** Every state the disk has been in, the present one last. */
    ghost var history: seq<Disk>

    ghost function Now(): Disk
      reads this
    {
      Disk(files, records, latest)
    }

    ghost predicate Valid()
      reads this
    {
      history != [] && history[|history| - 1] == Now()
    }

    ghost predicate Sound()
      reads this
    {
      Collisionless(h) && RecordsSound(h, files, records)
    }

    constructor (h: Hashing, d: Disk)
      ensures Valid() && Now() == d && this.h == h && history == [d]
    {
      this.h := h;
      files, records, latest := d.files, d.records, d.latest;
      history := [d];
    }

    /** `os.replace` of a finished candidate. */
    method PutFile(place: Place, bytes: Bytes)
      requires Valid()
      modifies this`files, this`history
      ensures Valid() && files == old(files)[place := bytes] && history == old(history) + [Now()]
    {
      files := files[place := bytes];
      history := history + [Now()];
    }

    method PutRecord(r: Record)
      requires Valid()
      modifies this`records, this`history
      ensures Valid() && records == old(records)[r.ref := r] && history == old(history) + [Now()]
    {
      records := records[r.ref := r];
      history := history + [Now()];
    }

    method PutLatest(l: Latest)
      requires Valid()
      modifies this`latest, this`history
      ensures Valid() && latest == l && history == old(history) + [Now()]
    {
      latest := l;
      history := history + [Now()];
    }
  }

  /** The states since then: no record changed yet, and every record still sound. */
  ghost predicate QuietSince(h: Hashing, history: seq<Disk>, n: nat, records: map<string, Record>) {
    n <= |history| && forall k :: n <= k < |history| ==> history[k].records == records && RecordsSound(h, history[k].files, records)
  }

  lemma QuietOn(h: Hashing, first: seq<Disk>, later: seq<Disk>, n: nat, records: map<string, Record>)
    requires QuietSince(h, first, n, records) && first <= later && QuietSince(h, later, |first|, records)
    ensures QuietSince(h, later, n, records)
  {
  }

  lemma QuietYet(h: Hashing, history: seq<Disk>, records: map<string, Record>)
    ensures QuietSince(h, history, |history|, records)
  {
  }

  // ----- Copying --------------------------------------------------------------------------------------

  /**
   An archive to stage: the checksum it was inspected under, what reading it again yields, and
   whether something other than a regular file stands at its destination.
   */
  datatype Source = Source(digest: Digest, content: Bytes, obstructed: bool)

  /** No file outside the directory of the bundle has been touched. */
  ghost predicate SameElsewhere(before: map<Place, Bytes>, after: map<Place, Bytes>, ref: string, id: string) {
    forall place: Place :: place.ref != ref || place.id != id ==>
      (place in before <==> place in after) && (place in before ==> after[place] == before[place])
  }

  lemma SameElsewhereOn(a: map<Place, Bytes>, b: map<Place, Bytes>, c: map<Place, Bytes>, ref: string, id: string)
    requires SameElsewhere(a, b, ref, id) && SameElsewhere(b, c, ref, id)
    ensures SameElsewhere(a, c, ref, id)
  {
  }

  /** `_copy_verified` */
  method CopyVerified(store: ArtifactStore, source: Source, place: Place, ghost b: Bundle) returns (ok: bool)
    requires store.Valid() && store.Sound() && place.id == store.h.id(b) && source.digest == Part(b, place.kind)
    modifies store`files, store`history
    ensures store.Valid() && store.Sound()
    ensures store.records == old(store.records) && store.latest == old(store.latest)
    ensures old(store.history) <= store.history
    ensures QuietSince(store.h, store.history, |old(store.history)|, old(store.records))
    ensures ok ==> place in store.files && store.h.sum(store.files[place]) == source.digest
    ensures forall q :: q != place ==> (q in store.files <==> q in old(store.files))
    ensures forall q :: q in old(store.files) && q != place ==> store.files[q] == old(store.files)[q]
    ensures SameElsewhere(old(store.files), store.files, place.ref, place.id)
    ensures ok <==> !source.obstructed && (Already(store.h, old(store.files), place, source) || store.h.sum(source.content) == source.digest)
  {
    if source.obstructed {
      return false;
    }
    if place in store.files && store.h.sum(store.files[place]) == source.digest {
      return true;
    }
    if store.h.sum(source.content) != source.digest {
      return false;
    }
    FileKeepsRecords(store.h, store.files, store.records, place, b, source.content);
    store.PutFile(place, source.content);
    ok := true;
  }

  predicate Already(h: Hashing, files: map<Place, Bytes>, place: Place, source: Source) {
    place in files && h.sum(files[place]) == source.digest
  }

  // ----- latest.tar.gz ---------------------------------------------------------------------------------

  predicate AnyMarker(l: Latest) {
    l.sum.Some? || l.meta.Some? || l.link.Some?
  }

  predicate AllMarkers(l: Latest) {
    l.sum.Some? && l.meta.Some? && l.link.Some?
  }

  /** Without force only a complete set of the same checksum may be replaced. */
  predicate MayPublish(l: Latest, digest: Digest, force: bool) {
    force || !AnyMarker(l) || (AllMarkers(l) && l.sum == Some(digest))
  }

  /** The set after the first n of the three writes. */
  function AfterWrites(l: Latest, place: Place, digest: Digest, n: nat): Latest {
    Latest(if n >= 1 then Some(digest) else l.sum,
           if n >= 2 then Some(digest) else l.meta,
           if n >= 3 then Some(place) else l.link)
  }

  /** `_publish_containerlab_latest`: checksum, metadata, and the link last. */
  method PublishLatest(store: ArtifactStore, place: Place, digest: Digest, force: bool) returns (ok: bool)
    requires store.Valid() && store.Sound()
    modifies store`latest, store`history
    ensures store.Valid() && store.Sound()
    ensures old(store.history) <= store.history
    ensures QuietSince(store.h, store.history, |old(store.history)|, store.records)
    ensures ok == MayPublish(old(store.latest), digest, force)
    ensures store.latest == if ok then Latest(Some(digest), Some(digest), Some(place)) else old(store.latest)
    ensures ok ==>
              store.history == old(store.history) + [
                Disk(store.files, store.records, AfterWrites(old(store.latest), place, digest, 1)),
                Disk(store.files, store.records, AfterWrites(old(store.latest), place, digest, 2)),
                store.Now()]
  {
    if AnyMarker(store.latest) {
      if (!AllMarkers(store.latest) || store.latest.sum != Some(digest)) && !force {
        return false;
      }
    }
    store.PutLatest(store.latest.(sum := Some(digest)));
    store.PutLatest(store.latest.(meta := Some(digest)));
    store.PutLatest(store.latest.(link := Some(place)));
    ok := true;
  }

  /** The published set agrees with itself and with the archive that it points to. */
  predicate LatestSound(h: Hashing, d: Disk) {
    && AllMarkers(d.latest) && d.latest.meta == d.latest.sum
    && d.latest.link.value in d.files && Some(h.sum(d.files[d.latest.link.value])) == d.latest.sum
  }

  /**
   A crash in the middle of publishing, the first time or over an earlier set, leaves a set that is
   incomplete or contradicts itself, unless the set before it already named this checksum.
   */
  lemma CrashTearsLatest(h: Hashing, d: Disk, place: Place, digest: Digest)
    requires LatestSound(h, d) || !AnyMarker(d.latest)
    ensures LatestSound(h, d.(latest := AfterWrites(d.latest, place, digest, 1))) <==> d.latest.sum == Some(digest)
    ensures LatestSound(h, d.(latest := AfterWrites(d.latest, place, digest, 2))) <==> d.latest.sum == Some(digest)
  {
  }

  /** Running the same import again without force repairs it exactly when all markers were there. */
  lemma RerunRepairsLatest(l: Latest, place: Place, digest: Digest, n: nat)
    requires n == 1 || n == 2
    ensures MayPublish(AfterWrites(l, place, digest, n), digest, false) <==> l.link.Some? && (n == 2 || l.meta.Some?)
    ensures AfterWrites(AfterWrites(l, place, digest, n), place, digest, 3) == Latest(Some(digest), Some(digest), Some(place))
  {
  }

  // ----- Staging -----------------------------------------------------------------------------------------

  datatype Request = Request(
    ref: string,
    platform: Platform,
    target: Platform,
    compatible: bool,
    contractMatches: bool,
    labs: Source,
    nodes: Option<Source>,
    images: Option<Source>,
    recordReadable: bool,
    spaceLeft: bool,
    force: bool)

  datatype Refusal = PlatformMismatch | Incompatible | ContractMismatch | RecordUnreadable | DifferentBundle | NoSpace | CopyFailed(kind: Kind) | LatestConflict

  datatype Staging = Staged(record: Record) | Refused(reason: Refusal)

  function SourceDigest(s: Option<Source>): Digest {
    if s.Some? then s.value.digest else ""
  }

  function BundleOfRequest(q: Request): Bundle {
    Bundle(q.labs.digest, SourceDigest(q.nodes), SourceDigest(q.images))
  }

  function PlaceOf(h: Hashing, q: Request, kind: Kind): Place {
    Place(q.ref, h.id(BundleOfRequest(q)), kind)
  }

  /** Inspection found digests; only EVE-NG has separate node states and images. */
  predicate Inspects(q: Request) {
    && q.compatible && (q.platform != EveNg ==> q.nodes.None? && q.images.None?)
    && q.labs.digest != "" && (q.nodes.Some? ==> q.nodes.value.digest != "") && (q.images.Some? ==> q.images.value.digest != "")
  }

  predicate NeedsCopy(h: Hashing, files: map<Place, Bytes>, q: Request) {
    || !Already(h, files, PlaceOf(h, q, Labs), q.labs)
    || (q.nodes.Some? && !Already(h, files, PlaceOf(h, q, NodeState), q.nodes.value))
    || (q.images.Some? && !Already(h, files, PlaceOf(h, q, Images), q.images.value))
  }

  /** What is decided before anything is written. */
  function Refuses(h: Hashing, d: Disk, q: Request): Option<Refusal> {
    if q.platform != q.target then Some(PlatformMismatch)
    else if !Inspects(q) then Some(Incompatible)
    else if q.platform == Containerlab && !q.contractMatches then Some(ContractMismatch)
    else if q.ref in d.records && !q.recordReadable then Some(RecordUnreadable)
    else if q.ref in d.records && BundleOf(d.records[q.ref]) != BundleOfRequest(q) && !q.force then Some(DifferentBundle)
    else if NeedsCopy(h, d.files, q) && !q.spaceLeft then Some(NoSpace)
    else None
  }

  predicate Copyable(h: Hashing, files: map<Place, Bytes>, place: Place, s: Source) {
    !s.obstructed && (Already(h, files, place, s) || h.sum(s.content) == s.digest)
  }

  predicate AllCopyable(h: Hashing, files: map<Place, Bytes>, q: Request) {
    && Copyable(h, files, PlaceOf(h, q, Labs), q.labs)
    && (q.nodes.Some? ==> Copyable(h, files, PlaceOf(h, q, NodeState), q.nodes.value))
    && (q.images.Some? ==> Copyable(h, files, PlaceOf(h, q, Images), q.images.value))
  }

  function StagedRecord(h: Hashing, q: Request): Record {
    Record(q.ref, q.platform, Item(PlaceOf(h, q, Labs), q.labs.digest),
           if q.nodes.Some? then Some(Item(PlaceOf(h, q, NodeState), q.nodes.value.digest)) else None,
           if q.images.Some? then Some(Item(PlaceOf(h, q, Images), q.images.value.digest)) else None)
  }

  predicate AllStaged(h: Hashing, files: map<Place, Bytes>, q: Request) {
    && Already(h, files, PlaceOf(h, q, Labs), q.labs)
    && (q.nodes.Some? ==> Already(h, files, PlaceOf(h, q, NodeState), q.nodes.value))
    && (q.images.Some? ==> Already(h, files, PlaceOf(h, q, Images), q.images.value))
  }

  // ----- What stands in the way of a staging -------------------------------------------------------------

  /** The file of the right checksum is already in its place. */
  predicate InPlace(h: Hashing, files: map<Place, Bytes>, q: Request, kind: Kind, s: Source) {
    var place := Place(q.ref, h.id(Bundle(q.labs.digest, OrEmpty(q.nodes), OrEmpty(q.images))), kind);
    place in files && h.sum(files[place]) == s.digest
  }

  function OrEmpty(s: Option<Source>): (d: Digest)
    ensures d == match s case Some(part) => part.digest case None => ""
  {
    SourceDigest(s)
  }

  /** The part cannot be brought into its place with the checksum that it was inspected under. */
  predicate Uncopyable(h: Hashing, files: map<Place, Bytes>, q: Request, kind: Kind, s: Source) {
    s.obstructed || (!InPlace(h, files, q, kind, s) && h.sum(s.content) != s.digest)
  }

  /** The record stands for other files than the request, by checksum. */
  predicate StandsForOthers(r: Record, q: Request) {
    || r.archive.digest != q.labs.digest
    || (if r.nodes.Some? then r.nodes.value.digest else "") != (if q.nodes.Some? then q.nodes.value.digest else "")
    || (if r.images.Some? then r.images.value.digest else "") != (if q.images.Some? then q.images.value.digest else "")
  }

  /** What the reason means, on the disk before the staging and the request. */
  predicate InTheWay(h: Hashing, d: Disk, q: Request, reason: Refusal) {
    match reason
    case PlatformMismatch => q.platform != q.target
    case Incompatible =>
      || !q.compatible || q.labs.digest == ""
      || (q.nodes.Some? && (q.platform != EveNg || q.nodes.value.digest == ""))
      || (q.images.Some? && (q.platform != EveNg || q.images.value.digest == ""))
    case ContractMismatch => q.platform == Containerlab && !q.contractMatches
    case RecordUnreadable => q.ref in d.records && !q.recordReadable
    case DifferentBundle => q.ref in d.records && StandsForOthers(d.records[q.ref], q) && !q.force
    case NoSpace =>
      && !q.spaceLeft
      && (|| !InPlace(h, d.files, q, Labs, q.labs)
          || (q.nodes.Some? && !InPlace(h, d.files, q, NodeState, q.nodes.value))
          || (q.images.Some? && !InPlace(h, d.files, q, Images, q.images.value)))
    case CopyFailed(Labs) => Uncopyable(h, d.files, q, Labs, q.labs)
    case CopyFailed(NodeState) => q.nodes.Some? && Uncopyable(h, d.files, q, NodeState, q.nodes.value)
    case CopyFailed(Images) => q.images.Some? && Uncopyable(h, d.files, q, Images, q.images.value)
    case LatestConflict =>
      && q.platform == Containerlab && !q.force && d.latest != Latest(None, None, None)
      && !(d.latest.sum == Some(q.labs.digest) && d.latest.meta.Some? && d.latest.link.Some?)
  }

  /** The order in which the reasons are looked for. */
  function Rank(reason: Refusal): nat {
    match reason
    case PlatformMismatch => 0
    case Incompatible => 1
    case ContractMismatch => 2
    case RecordUnreadable => 3
    case DifferentBundle => 4
    case NoSpace => 5
    case CopyFailed(Labs) => 6
    case CopyFailed(NodeState) => 7
    case CopyFailed(Images) => 8
    case LatestConflict => 9
  }

  /** The reason stands in the way, and none that is looked for before it does. */
  ghost predicate FirstInTheWay(h: Hashing, d: Disk, q: Request, reason: Refusal) {
    InTheWay(h, d, q, reason) && forall other :: Rank(other) < Rank(reason) ==> !InTheWay(h, d, q, other)
  }

  ghost function FirstUncopyable(h: Hashing, d: Disk, q: Request): (r: Option<Refusal>)
    ensures r.Some? ==> r.value.CopyFailed? && InTheWay(h, d, q, r.value)
  {
    if InTheWay(h, d, q, CopyFailed(Labs)) then Some(CopyFailed(Labs))
    else if InTheWay(h, d, q, CopyFailed(NodeState)) then Some(CopyFailed(NodeState))
    else if InTheWay(h, d, q, CopyFailed(Images)) then Some(CopyFailed(Images))
    else None
  }

  lemma OthersIffOtherBundle(r: Record, q: Request)
    ensures StandsForOthers(r, q) <==> BundleOf(r) != BundleOfRequest(q)
  {
  }

  lemma NeedsCopyIff(h: Hashing, files: map<Place, Bytes>, q: Request)
    ensures NeedsCopy(h, files, q) <==>
              || !InPlace(h, files, q, Labs, q.labs)
              || (q.nodes.Some? && !InPlace(h, files, q, NodeState, q.nodes.value))
              || (q.images.Some? && !InPlace(h, files, q, Images, q.images.value))
  {
  }

  /** What is decided before anything is written is the first of the six reasons that stands in the way. */
  lemma RefusedBeforehandIff(h: Hashing, d: Disk, q: Request, reason: Refusal)
    ensures Refuses(h, d, q) == Some(reason) <==> FirstInTheWay(h, d, q, reason) && Rank(reason) < 6
    ensures Refuses(h, d, q).None? <==> forall other :: Rank(other) < 6 ==> !InTheWay(h, d, q, other)
  {
    hide BundleOf, BundleOfRequest, StandsForOthers, NeedsCopy, InPlace;
    if q.ref in d.records {
      OthersIffOtherBundle(d.records[q.ref], q);
    }
    NeedsCopyIff(h, d.files, q);
    assert Rank(PlatformMismatch) == 0 && Rank(Incompatible) == 1 && Rank(ContractMismatch) == 2;
    assert Rank(RecordUnreadable) == 3 && Rank(DifferentBundle) == 4 && Rank(NoSpace) == 5;
  }

  lemma CopyableIff(h: Hashing, d: Disk, q: Request)
    ensures Copyable(h, d.files, PlaceOf(h, q, Labs), q.labs) <==> !InTheWay(h, d, q, CopyFailed(Labs))
    ensures q.nodes.Some? ==> (Copyable(h, d.files, PlaceOf(h, q, NodeState), q.nodes.value) <==> !InTheWay(h, d, q, CopyFailed(NodeState)))
    ensures q.images.Some? ==> (Copyable(h, d.files, PlaceOf(h, q, Images), q.images.value) <==> !InTheWay(h, d, q, CopyFailed(Images)))
    ensures q.nodes.None? ==> !InTheWay(h, d, q, CopyFailed(NodeState))
    ensures q.images.None? ==> !InTheWay(h, d, q, CopyFailed(Images))
  {
  }

  lemma PublishableIff(h: Hashing, d: Disk, q: Request)
    ensures InTheWay(h, d, q, LatestConflict) <==> q.platform == Containerlab && !MayPublish(d.latest, q.labs.digest, q.force)
  {
  }

  /** A later reason is the first that stands in the way if nothing was refused beforehand. */
  lemma LaterReason(h: Hashing, d: Disk, q: Request, reason: Refusal)
    requires Refuses(h, d, q).None? && InTheWay(h, d, q, reason)
    requires if reason.CopyFailed? then FirstUncopyable(h, d, q) == Some(reason) else FirstUncopyable(h, d, q).None?
    ensures FirstInTheWay(h, d, q, reason)
  {
    hide Refuses, InTheWay;
    RefusedBeforehandIff(h, d, q, reason);
  }

  lemma NothingInTheWay(h: Hashing, d: Disk, q: Request)
    requires Refuses(h, d, q).None? && FirstUncopyable(h, d, q).None? && !InTheWay(h, d, q, LatestConflict)
    ensures forall reason :: !InTheWay(h, d, q, reason)
  {
    hide Refuses, InTheWay;
    RefusedBeforehandIff(h, d, q, LatestConflict);
  }

  /** No record is lost, and each still stands for the files, by checksum, that it stood for. */
  ghost predicate StandForTheSame(before: map<string, Record>, after: map<string, Record>) {
    forall ref :: ref in before ==>
      && ref in after && after[ref].archive.digest == before[ref].archive.digest
      && DigestOf(after[ref].nodes) == DigestOf(before[ref].nodes) && DigestOf(after[ref].images) == DigestOf(before[ref].images)
  }

  /** Without force a staging keeps what every existing record stands for. */
  lemma UnforcedKeepsBundles(h: Hashing, d: Disk, q: Request)
    requires Refuses(h, d, q).None? && !q.force
    ensures StandForTheSame(d.records, d.records[q.ref := StagedRecord(h, q)])
  {
    RefusedBeforehandIff(h, d, q, DifferentBundle);
    assert Rank(DifferentBundle) < 6;
  }

  /** The copies of one import; the reason is the first that failed. */
  method CopyAll(store: ArtifactStore, q: Request) returns (failed: Option<Refusal>)
    requires store.Valid() && store.Sound()
    modifies store`files, store`history
    ensures store.Valid() && store.Sound()
    ensures old(store.history) <= store.history
    ensures QuietSince(store.h, store.history, |old(store.history)|, store.records)
    ensures failed.None? <==> AllCopyable(store.h, old(store.files), q)
    ensures failed.None? ==> AllStaged(store.h, store.files, q)
    ensures failed == FirstUncopyable(store.h, old(store.Now()), q)
    ensures SameElsewhere(old(store.files), store.files, q.ref, store.h.id(BundleOfRequest(q)))
  {
    hide InTheWay, SameElsewhere, RecordsSound, QuietSince;
    CopyableIff(store.h, store.Now(), q);
    var h := store.h;
    ghost var b, n, records := BundleOfRequest(q), |store.history|, store.records;
    ghost var was, history := store.files, store.history;
    var ok := CopyVerified(store, q.labs, PlaceOf(h, q, Labs), b);
    if !ok {
      return Some(CopyFailed(Labs));
    }
    ghost var files;
    if q.nodes.Some? {
      files, history := store.files, store.history;
      ok := CopyVerified(store, q.nodes.value, PlaceOf(h, q, NodeState), b);
      SameElsewhereOn(was, files, store.files, q.ref, h.id(b));
      QuietOn(h, history, store.history, n, records);
      if !ok {
        return Some(CopyFailed(NodeState));
      }
    }
    if q.images.Some? {
      files, history := store.files, store.history;
      ok := CopyVerified(store, q.images.value, PlaceOf(h, q, Images), b);
      SameElsewhereOn(was, files, store.files, q.ref, h.id(b));
      QuietOn(h, history, store.history, n, records);
      if !ok {
        return Some(CopyFailed(Images));
      }
    }
    failed := None;
  }

  /** `stage_migration_archive` */
  method StageArchive(store: ArtifactStore, q: Request) returns (r: Staging)
    requires store.Valid() && store.Sound()
    modifies store
    ensures store.Valid() && store.Sound()
    ensures r.Staged? <==> Refuses(store.h, old(store.Now()), q).None? && AllCopyable(store.h, old(store.files), q)
                           && (q.platform == Containerlab ==> MayPublish(old(store.latest), q.labs.digest, q.force))
    // a refusal gives the first reason that stands in the way, and none does if the bundle is staged
    ensures r.Refused? ==> FirstInTheWay(store.h, old(store.Now()), q, r.reason)
    ensures r.Staged? ==> forall reason :: !InTheWay(store.h, old(store.Now()), q, reason)
    ensures r.Refused? ==> store.records == old(store.records) && store.latest == old(store.latest)
    ensures r.Refused? && Rank(r.reason) < Rank(CopyFailed(Labs)) ==> store.Now() == old(store.Now())
    ensures SameElsewhere(old(store.files), store.files, q.ref, store.h.id(BundleOfRequest(q)))
    ensures r.Staged? && !q.force ==> StandForTheSame(old(store.records), store.records)
    ensures r.Staged? ==> r.record == StagedRecord(store.h, q) && store.records == old(store.records)[q.ref := r.record]
    // every state on the way, one of which a crash leaves, still has the old records, all sound
    ensures old(store.history) <= store.history
    ensures QuietSince(store.h, if r.Staged? then store.history[..|store.history| - 1] else store.history,
                       |old(store.history)|, old(store.records))
    // what is loaded afterwards is exactly what was staged
    ensures r.Staged? ==> LoadArchive(store.h, store.Now(), q.ref, q.target) == Ready(r.record.archive, r.record.nodes, r.record.images)
    ensures r.Staged? && q.platform == Containerlab ==> LatestSound(store.h, store.Now()) && store.latest.link == Some(r.record.archive.place)
  {
    hide InTheWay, Refuses, SameElsewhere, StandForTheSame, AllCopyable, MayPublish,
         RecordSound, LoadArchive, LatestSound, Collisionless, AllStaged, QuietSince, FirstUncopyable,
         RecordsSound, BundleOfRequest;
    ghost var before, n := store.Now(), |store.history|;
    QuietYet(store.h, store.history, store.records);
    var refusal := Refuses(store.h, Disk(store.files, store.records, store.latest), q);
    if refusal.Some? {
      RefusedBeforehandIff(store.h, before, q, refusal.value);
      NothingTouched(store.files, q.ref, store.h.id(BundleOfRequest(q)));
      return Refused(refusal.value);
    }
    var failed := CopyAll(store, q);
    if failed.Some? {
      LaterReason(store.h, before, q, failed.value);
      return Refused(failed.value);
    }
    PublishableIff(store.h, before, q);
    if q.platform == Containerlab {
      ghost var history := store.history;
      var published := PublishLatest(store, PlaceOf(store.h, q, Labs), q.labs.digest, q.force);
      QuietOn(store.h, history, store.history, n, store.records);
      if !published {
        LaterReason(store.h, before, q, LatestConflict);
        return Refused(LatestConflict);
      }
    }
    NothingInTheWay(store.h, before, q);
    if !q.force {
      UnforcedKeepsBundles(store.h, before, q);
    }
    var record := StagedRecord(store.h, q);
    StagedIsSound(store.h, before, q, store.files, store.records);
    ghost var history := store.history;
    store.PutRecord(record);
    assert store.history[..|store.history| - 1] == history;
    StagedLoads(store.h, store.Now(), q);
    r := Staged(record);
  }

  /** With all parts in place the record that names them joins the others. */
  lemma StagedIsSound(h: Hashing, before: Disk, q: Request, files: map<Place, Bytes>, records: map<string, Record>)
    requires Refuses(h, before, q).None? && AllStaged(h, files, q) && RecordsSound(h, files, records)
    ensures RecordsSound(h, files, records[q.ref := StagedRecord(h, q)]) && q.platform == q.target
    ensures StagedRecord(h, q).ref == q.ref
  {
    AcceptedIsInspected(h, before, q);
    assert BundleOf(StagedRecord(h, q)) == BundleOfRequest(q) && RecordSound(h, files, StagedRecord(h, q));
  }

  lemma StagedLoads(h: Hashing, d: Disk, q: Request)
    requires Collisionless(h) && RecordsSound(h, d.files, d.records) && q.platform == q.target
    requires q.ref in d.records && d.records[q.ref] == StagedRecord(h, q)
    ensures var r := StagedRecord(h, q);
            && LoadArchive(h, d, q.ref, q.target) == Ready(r.archive, r.nodes, r.images)
            && (d.latest == Latest(Some(q.labs.digest), Some(q.labs.digest), Some(r.archive.place)) ==> LatestSound(h, d))
  {
    SoundRecordLoads(h, d, q.ref);
    assert RecordSound(h, d.files, d.records[q.ref]);
  }

  lemma AcceptedIsInspected(h: Hashing, d: Disk, q: Request)
    requires Refuses(h, d, q).None?
    ensures q.platform == q.target && Inspects(q)
  {
  }

  lemma NothingTouched(files: map<Place, Bytes>, ref: string, id: string)
    ensures SameElsewhere(files, files, ref, id)
  {
  }

  lemma LoadsTheSame(h: Hashing, before: Disk, at: Disk, ref: string, target: Platform)
    requires Collisionless(h) && RecordsSound(h, before.files, before.records)
    requires at.records == before.records && RecordsSound(h, at.files, at.records)
    ensures LoadArchive(h, at, ref, target) == LoadArchive(h, before, ref, target)
    ensures LoadArchive(h, at, ref, target) == Invalid ==> ref in before.records && before.records[ref].platform != target
  {
    if ref in before.records {
      assert RecordSound(h, before.files, before.records[ref]) && RecordSound(h, at.files, before.records[ref]);
    }
  }

  /**
   Publication is atomic: at whatever point of a staging a crash falls, before its last write,
   every blueprint loads what it loaded before.
   */
  lemma CrashLoadsTheOld(h: Hashing, history: seq<Disk>, n: nat, before: Disk, k: nat)
    requires Collisionless(h) && RecordsSound(h, before.files, before.records)
    requires QuietSince(h, history, n, before.records) && n <= k < |history|
    ensures forall ref, target :: LoadArchive(h, history[k], ref, target) == LoadArchive(h, before, ref, target)
  {
    forall ref, target
      ensures LoadArchive(h, history[k], ref, target) == LoadArchive(h, before, ref, target)
    {
      LoadsTheSame(h, before, history[k], ref, target);
    }
  }
}
