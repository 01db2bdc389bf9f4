/**
  One entry of the image cache, shared by any number of executors and observers that may stop anywhere:
  ensureImage and imageVerified of internal/execution/system.go.  Files are replaced by renaming, so each write is
  one step; temporary files are private to a process and are left out.
 */
module ImageCache {
  import opened Prelude

  type Pid = nat

  datatype ImageMarker = ImageMarker(compressed: Digest, raw: Digest)

  /** The raw file and the marker beside it. */
  datatype Entry = Entry(raw: Option<Bytes>, marker: Option<ImageMarker>)

  /** `observing` tells imageVerified from ensureImage, which goes on to download when the entry is no good. */
  datatype Pc =
    | Reading(observing: bool)
    | Hashing(observing: bool, marker: ImageMarker)
    | Fetching
    | Fetched(archive: Bytes)
    | Unpacked(raw: Bytes)
    | Renamed(raw: Bytes)
    | Done(ok: bool)

  datatype Process = Process(pin: Digest, pc: Pc)

  datatype Cache = Cache(entry: Entry, procs: map<Pid, Process>)

  datatype Label =
    | Enter(pin: Digest, observing: bool)
    | ReadMarker
    | HashRaw
    | GiveUpReading
    | Download(archive: Bytes)
    | Unpack
    | Rename
    | WriteMarker
    | Leave

  /** The marker vouches for the decompression of the archive that it names. */
  predicate MarkerTruthful(marker: ImageMarker) {
    marker.raw == Sha256(Unxz(marker.compressed.of))
  }

  predicate EntryTruthful(entry: Entry) {
    entry.marker.Some? ==> MarkerTruthful(entry.marker.value)
  }

  predicate Verifies(pin: Digest, entry: Entry) {
    && entry.marker.Some? && entry.marker.value.compressed == pin
    && entry.raw.Some? && Sha256(entry.raw.value) == entry.marker.value.raw
  }

  predicate Enabled(c: Cache, p: Pid, l: Label) {
    if l.Enter? then p !in c.procs
    else p in c.procs && match l
      case ReadMarker => c.procs[p].pc.Reading?
      case HashRaw => c.procs[p].pc.Hashing?
      case GiveUpReading => c.procs[p].pc.Reading? || c.procs[p].pc.Hashing?
      case Download(_) => c.procs[p].pc.Fetching?
      case Unpack => c.procs[p].pc.Fetched?
      case Rename => c.procs[p].pc.Unpacked?
      case WriteMarker => c.procs[p].pc.Renamed?
      case _ => true
  }

  function NotGood(observing: bool): Pc {
    if observing then Done(false) else Fetching
  }

  function PcAfter(entry: Entry, process: Process, l: Label): Pc {
    var Process(pin, pc) := process;
    match (l, pc)
    case (ReadMarker, Reading(observing)) =>
      if entry.marker.Some? && entry.marker.value.compressed == pin then Hashing(observing, entry.marker.value)
      else NotGood(observing)
    case (HashRaw, Hashing(observing, marker)) =>
      if entry.raw.Some? && Sha256(entry.raw.value) == marker.raw then Done(true) else NotGood(observing)
    case (GiveUpReading, Reading(observing)) => NotGood(observing)
    case (GiveUpReading, Hashing(observing, _)) => NotGood(observing)
    case (Download(archive), Fetching) => Fetched(archive)
    case (Unpack, Fetched(archive)) => if Sha256(archive) == pin then Unpacked(Unxz(archive)) else Done(false)
    case (Rename, Unpacked(raw)) => Renamed(raw)
    case (WriteMarker, Renamed(_)) => Done(true)
    case _ => pc
  }

  function EntryAfter(entry: Entry, process: Process, l: Label): Entry {
    match (l, process.pc)
    case (Rename, Unpacked(raw)) => entry.(raw := Some(raw))
    case (WriteMarker, Renamed(raw)) => entry.(marker := Some(ImageMarker(process.pin, Sha256(raw))))
    case _ => entry
  }

  function After(c: Cache, p: Pid, l: Label): Cache
    requires Enabled(c, p, l)
  {
    match l
    case Enter(pin, observing) => c.(procs := c.procs[p := Process(pin, Reading(observing))])
    case Leave => c.(procs := c.procs - {p})
    case _ =>
      Cache(EntryAfter(c.entry, c.procs[p], l), c.procs[p := Process(c.procs[p].pin, PcAfter(c.entry, c.procs[p], l))])
  }

  ghost predicate Next(c: Cache, d: Cache) {
    exists p, l :: Enabled(c, p, l) && d == After(c, p, l)
  }

  ghost predicate IsRun(caches: seq<Cache>) {
    && |caches| > 0 && EntryTruthful(caches[0].entry) && caches[0].procs == map[]
    && forall i :: 0 <= i < |caches| - 1 ==> Next(caches[i], caches[i + 1])
  }

  // ----- markers are truthful, whatever the executors pin

  predicate PcTruthful(process: Process) {
    match process.pc
    case Hashing(_, marker) => MarkerTruthful(marker) && marker.compressed == process.pin
    case Unpacked(raw) => raw == Unxz(process.pin.of)
    case Renamed(raw) => raw == Unxz(process.pin.of)
    case _ => true
  }

  predicate AllTruthful(c: Cache) {
    EntryTruthful(c.entry) && forall p <- c.procs :: PcTruthful(c.procs[p])
  }

  lemma StepKeepsTruth(c: Cache, p: Pid, l: Label)
    requires AllTruthful(c) && Enabled(c, p, l)
    ensures AllTruthful(After(c, p, l))
  {
    assert p in c.procs ==> PcTruthful(c.procs[p]);
  }

  lemma RunKeepsTruth(caches: seq<Cache>, i: nat)
    requires IsRun(caches) && i < |caches|
    ensures AllTruthful(caches[i])
  {
    if i > 0 {
      RunKeepsTruth(caches, i - 1);
      assert Next(caches[i - 1], caches[i - 1 + 1]);
      var p, l :| Enabled(caches[i - 1], p, l) && caches[i] == After(caches[i - 1], p, l);
      StepKeepsTruth(caches[i - 1], p, l);
    }
  }

  /**
    Image cache truthfulness.  In every state the marker names an archive and the digest of its decompression; and
    when a reader finds the entry good, the raw file is at that moment the decompression of the archive it pins.
   */
  lemma CacheIsTruthful(caches: seq<Cache>, i: nat, p: Pid)
    requires IsRun(caches) && i < |caches|
    ensures EntryTruthful(caches[i].entry)
    ensures Enabled(caches[i], p, HashRaw) && After(caches[i], p, HashRaw).procs[p].pc == Done(true)
            ==> caches[i].entry.raw == Some(Unxz(caches[i].procs[p].pin.of))
  {
    RunKeepsTruth(caches, i);
    if Enabled(caches[i], p, HashRaw) {
      assert PcTruthful(caches[i].procs[p]);
    }
  }

  // ----- while everyone pins the same archive

  predicate OnePin(c: Cache, pin: Digest) {
    forall p <- c.procs :: c.procs[p].pin == pin
  }

  function Good(pin: Digest): Entry {
    Entry(Some(Unxz(pin.of)), Some(ImageMarker(pin, Sha256(Unxz(pin.of)))))
  }

  /** All that other executors with the same pin may do to the entry at any moment. */
  predicate Refresh(pin: Digest, before: Entry, after: Entry) {
    && (after.raw == before.raw || after.raw == Good(pin).raw)
    && (after.marker == before.marker || after == Good(pin))
  }

  predicate PcBehind(entry: Entry, pin: Digest, pc: Pc) {
    match pc
    case Renamed(_) => entry.raw == Good(pin).raw
    case Done(ok) => ok ==> entry == Good(pin)
    case Hashing(_, marker) => entry.marker == Some(marker) && marker.compressed == pin
    case _ => true
  }

  predicate Settled(c: Cache, pin: Digest) {
    AllTruthful(c) && forall p <- c.procs :: PcBehind(c.entry, pin, c.procs[p].pc)
  }

  lemma RefreshKeepsBehind(pin: Digest, before: Entry, after: Entry, pc: Pc)
    requires EntryTruthful(before) && Refresh(pin, before, after) && PcBehind(before, pin, pc)
    ensures PcBehind(after, pin, pc)
  {
  }

  lemma StepIsRefresh(c: Cache, p: Pid, l: Label, pin: Digest)
    requires Settled(c, pin) && OnePin(c, pin) && Enabled(c, p, l)
    ensures Refresh(pin, c.entry, After(c, p, l).entry)
    ensures p in After(c, p, l).procs && OnePin(After(c, p, l), pin)
            ==> PcBehind(After(c, p, l).entry, pin, After(c, p, l).procs[p].pc)
  {
    if p in c.procs {
      assert PcTruthful(c.procs[p]) && PcBehind(c.entry, pin, c.procs[p].pc);
    }
  }

  lemma StepKeepsSettled(c: Cache, p: Pid, l: Label, pin: Digest)
    requires Settled(c, pin) && OnePin(c, pin) && Enabled(c, p, l) && OnePin(After(c, p, l), pin)
    ensures Settled(After(c, p, l), pin)
  {
    StepKeepsTruth(c, p, l);
    StepIsRefresh(c, p, l, pin);
    forall q | q in After(c, p, l).procs ensures PcBehind(After(c, p, l).entry, pin, After(c, p, l).procs[q].pc) {
      if q != p { RefreshKeepsBehind(pin, c.entry, After(c, p, l).entry, c.procs[q].pc); }
    }
  }

  lemma RunKeepsSettled(caches: seq<Cache>, i: nat, pin: Digest)
    requires IsRun(caches) && i < |caches| && forall c <- caches :: OnePin(c, pin)
    ensures Settled(caches[i], pin)
    ensures i > 0 ==> Refresh(pin, caches[i - 1].entry, caches[i].entry)
  {
    if i > 0 {
      RunKeepsSettled(caches, i - 1, pin);
      assert Next(caches[i - 1], caches[i - 1 + 1]);
      var p, l :| Enabled(caches[i - 1], p, l) && caches[i] == After(caches[i - 1], p, l);
      StepIsRefresh(caches[i - 1], p, l, pin);
      StepKeepsSettled(caches[i - 1], p, l, pin);
    }
  }

  /** With one pin, an executor or observer that has reported success can rely on the entry from then on. */
  lemma SuccessMeansVerified(caches: seq<Cache>, i: nat, j: nat, p: Pid, pin: Digest)
    requires IsRun(caches) && i <= j < |caches| && forall c <- caches :: OnePin(c, pin)
    requires p in caches[i].procs && caches[i].procs[p].pc == Done(true)
    ensures Verifies(pin, caches[j].entry)
    decreases j
  {
    RunKeepsSettled(caches, i, pin);
    assert PcBehind(caches[i].entry, pin, caches[i].procs[p].pc);
    VerificationIsNeverLost(caches, i, j, pin);
  }

  lemma VerificationIsNeverLost(caches: seq<Cache>, i: nat, j: nat, pin: Digest)
    requires IsRun(caches) && i <= j < |caches| && forall c <- caches :: OnePin(c, pin)
    requires Verifies(pin, caches[i].entry)
    ensures Verifies(pin, caches[j].entry)
  {
    RunKeepsSettled(caches, j, pin);
    if i < j {
      VerificationIsNeverLost(caches, i, j - 1, pin);
      RunKeepsSettled(caches, j - 1, pin);
    }
  }

  // ----- with two pins success does not mean that

  /** `p` unpacks and renames, `q` does so with its own archive, and then `p` writes its marker. */
  function Overtaken(a: Digest, b: Digest, n: nat): Cache {
    var good := (pin: Digest) => Some(Unxz(pin.of));
    var raw := if n < 5 then None else if n < 10 then good(a) else good(b);
    var marker := if n < 11 then None else Good(a).marker;
    var p := Process(a, if n < 2 then Reading(false) else if n < 3 then Fetching else if n < 4 then Fetched(a.of)
                        else if n < 5 then Unpacked(Unxz(a.of)) else if n < 11 then Renamed(Unxz(a.of)) else Done(true));
    var q := Process(b, if n < 7 then Reading(false) else if n < 8 then Fetching else if n < 9 then Fetched(b.of)
                        else if n < 10 then Unpacked(Unxz(b.of)) else Renamed(Unxz(b.of)));
    Cache(Entry(raw, marker), if n == 0 then map[] else if n < 6 then map[0 := p] else map[0 := p, 1 := q])
  }

  function OvertakingStep(a: Digest, b: Digest, n: nat): (Pid, Label) {
    match n
    case 0 => (0, Enter(a, false))
    case 1 => (0, ReadMarker)
    case 2 => (0, Download(a.of))
    case 3 => (0, Unpack)
    case 4 => (0, Rename)
    case 5 => (1, Enter(b, false))
    case 6 => (1, ReadMarker)
    case 7 => (1, Download(b.of))
    case 8 => (1, Unpack)
    case 9 => (1, Rename)
    case _ => (0, WriteMarker)
  }

  /**
    For any two different pins there is a run in which an executor reports success although the entry does not
    verify against its pin: the claim of SuccessMeansVerified holds exactly while executors agree on the pin.
   */
  lemma TwoPinsMislead(a: Digest, b: Digest) returns (caches: seq<Cache>)
    requires a != b
    ensures IsRun(caches) && |caches| == 12
    ensures 0 in caches[11].procs && caches[11].procs[0] == Process(a, Done(true)) && !Verifies(a, caches[11].entry)
  {
    caches := seq(12, n requires 0 <= n < 12 => Overtaken(a, b, n));
    assert Sha256(a.of) == a && Sha256(b.of) == b;
    forall i | 0 <= i < 11 ensures Next(caches[i], caches[i + 1]) {
      var (p, l) := OvertakingStep(a, b, i);
      assert caches[i] == Overtaken(a, b, i) && caches[i + 1] == Overtaken(a, b, i + 1);
      assert Enabled(caches[i], p, l) && caches[i + 1] == After(caches[i], p, l);
    }
  }
}
