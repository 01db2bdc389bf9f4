/**
  The drivers: internal/execution/system.go and runtime_driver.go, on the part of the host that belongs to one
  machine and on the image cache that all machines share.

  Every command, file operation and request may fail, before or after it has taken effect; `case !faultless` stands
  for that.  As a failing call returns at once, the worlds in which a method may return are also those in which a crash
  may leave it: whatever happens, the contracts below bound what has been done.  Where nothing fails, which is what
  `faultless` says, they say what is done.
 */
module Drivers {
  import opened Prelude
  import opened Text
  import opened Planner
  import opened Guests
  import opened ImageCache
  import opened Calls

  function Success(evidence: string): Result { Result(true, false, false, evidence, None) }
  function Skipped(evidence: string): Result { Result(true, false, true, evidence, None) }
  function Failure(): Result { Result(false, false, false, "", None) }
  function Refusal(): Result { Result(false, true, false, "", None) }

  /** What looking for something can end in; a missing file or directory on the way has an error of its own. */
  datatype Look = Found(there: bool) | NoSuchFile | Unreachable

  /** presence of system.go: an error that says "no such file" reads as absent. */
  function PresenceOf(look: Look): Presence {
    match look
    case Found(there) => if there then Present else NotPresent
    case NoSuchFile => NotPresent
    case Unreachable => Unavailable
  }

  predicate There(look: Look) {
    look.Found? && look.there
  }

  predicate CacheOk(site: Site, cache: map<string, Entry>) {
    forall n <- site.images :: n in cache && EntryTruthful(cache[n])
  }

  function VerifiedImages(site: Site, cache: map<string, Entry>): set<string> {
    set n | n in site.images && n in cache && Verifies(site.images[n].pinned, cache[n])
  }

  /** What executors of this site, this one included, do to the cache. */
  predicate Refreshed(site: Site, before: map<string, Entry>, after: map<string, Entry>) {
    forall n <- site.images :: n in before && n in after && Refresh(site.images[n].pinned, before[n], after[n])
  }

  lemma RefreshedKeeps(site: Site, a: map<string, Entry>, b: map<string, Entry>)
    requires CacheOk(site, a) && Refreshed(site, a, b)
    ensures CacheOk(site, b) && VerifiedImages(site, a) <= VerifiedImages(site, b)
    ensures forall n <- VerifiedImages(site, a) :: b[n] == Good(site.images[n].pinned)
  {
    forall n | n in site.images ensures n in b && EntryTruthful(b[n]) {
      assert EntryTruthful(a[n]) && Refresh(site.images[n].pinned, a[n], b[n]);
    }
    forall n | n in VerifiedImages(site, a) ensures b[n] == Good(site.images[n].pinned) {
      assert EntryTruthful(a[n]) && Refresh(site.images[n].pinned, a[n], b[n]);
    }
  }

  lemma RefreshedTransitive(site: Site, a: map<string, Entry>, b: map<string, Entry>, c: map<string, Entry>)
    requires Refreshed(site, a, b) && Refreshed(site, b, c)
    ensures Refreshed(site, a, c)
  {
    forall n | n in site.images
      ensures n in a && n in c && Refresh(site.images[n].pinned, a[n], c[n])
    {
      assert Refresh(site.images[n].pinned, a[n], b[n]) && Refresh(site.images[n].pinned, b[n], c[n]);
    }
  }

  /** The actions that come before the machine itself. */
  predicate IsMedia(action: Action) {
    action in {EnsureServices, EnsureImage, EnsureStorage, EnsureSeed}
  }

  lemma OneReservationTouched(input: StepInput, g: Guest, h: Guest)
    requires h.reservations in {g.reservations, g.reservations - {ReservationKey(input)},
                                g.reservations[ReservationKey(input) := DesiredReservation(input)]}
    requires ReservationMatches(input, g) ==> h == g
    ensures ReservationTouch(input, g, h)
  {
  }

  class Host {
    const site: Site
    /** Nothing that is asked of the host fails; an execution without failures is one of such a host. */
    const faultless: bool
    var cache: map<string, Entry>
    var guest: Guest

    constructor (site: Site, faultless: bool, cache: map<string, Entry>, guest: Guest)
      requires SiteOk(site) && CacheOk(site, cache) && GuestOk(guest)
      ensures Valid() && this.site == site && this.faultless == faultless && this.cache == cache && this.guest == guest
    {
      this.site, this.faultless, this.cache, this.guest := site, faultless, cache, guest;
    }

    ghost predicate Valid()
      reads this
    {
      SiteOk(site) && CacheOk(site, cache) && GuestOk(guest)
    }

    ghost function Verified(): set<string>
      reads this`cache
    {
      VerifiedImages(site, cache)
    }

    /** Other executors of the site at work on the cache: any number of steps of any of them. */
    method Others(ghost since: map<string, Entry>)
      requires CacheOk(site, cache) && Refreshed(site, since, cache)
      modifies this`cache
      ensures CacheOk(site, cache) && Refreshed(site, since, cache) && Refreshed(site, old(cache), cache)
      ensures old(Verified()) <= Verified()
    {
      var steps: nat := *;
      while steps > 0
        invariant CacheOk(site, cache) && Refreshed(site, old(cache), cache)
      {
        var n: string := *;
        if n in site.images {
          ghost var before := cache;
          var pin := site.images[n].pinned;
          if * {
            cache := cache[n := cache[n].(raw := Some(Unxz(pin.of)))];
          } else if cache[n].raw == Some(Unxz(pin.of)) {
            cache := cache[n := cache[n].(marker := Some(ImageMarker(pin, Sha256(Unxz(pin.of)))))];
          }
          assert Refreshed(site, before, cache);
          RefreshedTransitive(site, old(cache), before, cache);
        }
        steps := steps - 1;
      }
      RefreshedKeeps(site, old(cache), cache);
      RefreshedTransitive(site, since, old(cache), cache);
    }

    /** A file of the cache replaced by this executor. */
    method Store(n: string, entry: Entry, ghost since: map<string, Entry>)
      requires CacheOk(site, cache) && Refreshed(site, since, cache)
      requires n in site.images && Refresh(site.images[n].pinned, cache[n], entry)
      modifies this`cache
      ensures cache == old(cache)[n := entry]
      ensures CacheOk(site, cache) && Refreshed(site, since, cache) && old(Verified()) <= Verified()
    {
      cache := cache[n := entry];
      RefreshedKeeps(site, old(cache), cache);
      RefreshedTransitive(site, since, old(cache), cache);
    }

    // ----- image/ensure-verified

    /** What the server sends for an image: the pinned archive, unless something is wrong with it. */
    method Download(pin: Digest) returns (archive: Option<Bytes>)
      ensures faultless ==> archive == Some(pin.of)
    {
      archive :| faultless ==> archive == Some(pin.of);
    }

    /** The second half of ensureImage: download, check the pin, unpack, rename and mark. */
    method FetchImage(input: StepInput, ghost since: map<string, Entry>) returns (result: Result)
      requires Valid() && FromSite(site, input) && Refreshed(site, since, cache)
      modifies this`cache
      ensures Valid() && Refreshed(site, since, cache) && old(Verified()) <= Verified()
      ensures result.ok ==>
                input.image.name in Verified()
                && cache[input.image.name].raw == Some(Unxz(input.image.pinned.of))
                && cache[input.image.name].marker == Some(ImageMarker(input.image.pinned, Sha256(Unxz(input.image.pinned.of))))
      ensures faultless ==> result.ok
      ensures result.ok ==> !result.blocked
      ensures result.observation.None? && !result.skipped
    {
      var name, pin := input.image.name, input.image.pinned;
      var archive := Download(pin);
      if archive.None? {
        return Failure();
      }
      if Sha256(archive.value) != pin {
        return Refusal();
      }
      var raw := Unxz(archive.value);
      if { case !faultless => return Failure(); case true => }
      Others(since);
      Store(name, cache[name].(raw := Some(raw)), since);
      if { case !faultless => return Failure(); case true => }
      label Renamed:
      Others(since);
      assert Refresh(pin, old@Renamed(cache)[name], cache[name]);
      Store(name, cache[name].(marker := Some(ImageMarker(Sha256(archive.value), Sha256(raw)))), since);
      if { case !faultless => return Failure(); case true => }
      result := Success("the image was downloaded and verified");
    }

    /** Reuse the cached image when it verifies; else download, check the pin, unpack, rename and mark, in that order. */
    method EnsureImage(input: StepInput) returns (result: Result)
      requires Valid() && FromSite(site, input)
      modifies this`cache
      ensures Valid() && Refreshed(site, old(cache), cache) && old(Verified()) <= Verified()
      ensures result.ok ==>
                input.image.name in Verified()
                && cache[input.image.name].raw == Some(Unxz(input.image.pinned.of))
                && cache[input.image.name].marker == Some(ImageMarker(input.image.pinned, Sha256(Unxz(input.image.pinned.of))))
      ensures faultless ==> result.ok
      ensures result.ok ==> !result.blocked
      ensures result.observation.None? && !result.skipped
    {
      var name, pin := input.image.name, input.image.pinned;
      Others(old(cache));
      label Read:
      var marker := cache[name].marker;
      if marker.Some? && marker.value.compressed == pin {
        Others(old(cache));
        var raw := cache[name].raw;
        if raw.Some? && Sha256(raw.value) == marker.value.raw {
          assert Refresh(pin, old@Read(cache)[name], cache[name]);
          assert EntryTruthful(cache[name]) && EntryTruthful(old@Read(cache)[name]);
          if { case true => return Success("the cached image verifies"); case !faultless => }
        }
      }
      result := FetchImage(input, old(cache));
    }

    // ----- zfs

    /**
      Fill a new volume and mark it, in that order.  A volume that was there before is never written: it must have
      the declared size and carry the digest of the image, or the step is blocked.
     */
    method EnsureStorage(input: StepInput) returns (result: Result)
      requires Valid() && FromSite(site, input) && input.image.name in Verified()
      modifies this`cache, this`guest
      ensures Valid() && Refreshed(site, old(cache), cache) && old(Verified()) <= Verified()
      ensures StorageTouch(input, old(guest), guest)
      ensures old(guest).zvol.Some? ==> guest == old(guest)
      ensures old(guest).zvol.None? && guest.zvol.Some? ==>
                && guest.zvol.value.size == input.spec.diskGb * 0x4000_0000
                && (guest.zvol.value.imageProperty.Some? ==>
                      guest.zvol.value.imageProperty == Some(Sha256(Unxz(input.image.pinned.of)))
                      && guest.zvol.value.content == Filled(Unxz(input.image.pinned.of)))
      ensures result.ok ==>
                && guest.dataset && guest.zvol.Some? && guest.zvol.value.size == input.spec.diskGb * 0x4000_0000
                && guest.zvol.value.imageProperty == Some(Sha256(Unxz(input.image.pinned.of)))
      ensures faultless ==>
                (result.ok <==>
                   old(guest).zvol.None?
                   || (old(guest).zvol.value.size == input.spec.diskGb * 0x4000_0000
                       && old(guest).zvol.value.imageProperty == Some(Sha256(Unxz(input.image.pinned.of)))))
      ensures faultless ==> (result.blocked <==> !result.ok)
      ensures result.blocked ==> old(guest).zvol.Some? && !VolumeMatches(input, old(guest).zvol.value)
      ensures result.observation.None? && !result.skipped
    {
      if { case !faultless => return Failure(); case true => }
      if !guest.dataset {
        if { case !faultless => return Failure(); case true => }
        guest := guest.(dataset := true);
        if { case !faultless => return Failure(); case true => }
      }
      var volumeCreated := false;
      if guest.zvol.None? {
        if { case !faultless => return Failure(); case true => }
        guest := guest.(zvol := Some(Zvol(input.spec.diskGb * 1024 * 1024 * 1024, Blank, None)));
        if { case !faultless => return Failure(); case true => }
        volumeCreated := true;
      }
      if guest.zvol.value.size != input.spec.diskGb * 1024 * 1024 * 1024 {
        return Refusal();
      }
      result := FillStorage(input, volumeCreated);
    }

    /** The image that the volume is to hold: its marker is there and the raw file has the digest that it names. */
    method CheckImage(input: StepInput) returns (refused: Option<Result>, rawDigest: Digest)
      requires Valid() && FromSite(site, input) && input.image.name in Verified()
      modifies this`cache
      ensures Valid() && Refreshed(site, old(cache), cache) && old(Verified()) <= Verified()
      ensures refused.None? ==> rawDigest == Sha256(Unxz(input.image.pinned.of))
      ensures refused.Some? ==> refused.value == Failure()
      ensures faultless ==> refused.None?
    {
      RefreshedKeeps(site, cache, cache);
      var name := input.image.name;
      rawDigest := input.image.pinned;
      if { case !faultless => return Some(Failure()), rawDigest; case true => }
      if cache[name].marker.None? {
        return Some(Failure()), rawDigest;
      }
      rawDigest := cache[name].marker.value.raw;
      Others(old(cache));
      RefreshedKeeps(site, old(cache), cache);
      if cache[name].raw.None? {
        return Some(Failure()), rawDigest;
      }
      if Sha256(cache[name].raw.value) != rawDigest {
        return Some(Refusal()), rawDigest;
      }
      refused := None;
    }

    /** Fill a new volume and mark it, in that order. */
    method CopyImage(input: StepInput, rawDigest: Digest, ghost since: map<string, Entry>) returns (ok: bool)
      requires Valid() && FromSite(site, input) && input.image.name in Verified() && Refreshed(site, since, cache)
      requires guest.dataset && guest.zvol == Some(Zvol(VolumeSize(input), Blank, None))
      requires rawDigest == Sha256(Unxz(input.image.pinned.of))
      modifies this`cache, this`guest
      ensures Valid() && Refreshed(site, since, cache) && old(Verified()) <= Verified()
      ensures guest == old(guest).(zvol := guest.zvol) && guest.zvol.Some? && guest.zvol.value.size == VolumeSize(input)
      ensures guest.zvol.value.content in {Blank, Torn, Filled(Unxz(input.image.pinned.of))}
      ensures ok || guest.zvol.value.imageProperty.Some? ==>
                guest.zvol.value.content == Filled(Unxz(input.image.pinned.of))
                && guest.zvol.value.imageProperty == Some(rawDigest)
      ensures faultless ==> ok
    {
      var name := input.image.name;
      if { case !faultless => return false; case true => }
      ghost var before := cache;
      Others(since);
      RefreshedKeeps(site, before, cache);
      if {
        case !faultless =>
          guest := guest.(zvol := Some(guest.zvol.value.(content := Torn)));
          return false;
        case true =>
      }
      guest := guest.(zvol := Some(guest.zvol.value.(content := Filled(cache[name].raw.value))));
      if { case !faultless => return false; case true => }
      guest := guest.(zvol := Some(guest.zvol.value.(imageProperty := Some(rawDigest))));
      ok :| faultless ==> ok;
    }

    /** The second half of ensureStorage, from reading the image marker on. */
    method FillStorage(input: StepInput, volumeCreated: bool) returns (result: Result)
      requires Valid() && FromSite(site, input) && input.image.name in Verified()
      requires guest.dataset && guest.zvol.Some? && guest.zvol.value.size == VolumeSize(input)
      requires volumeCreated ==> guest.zvol.value == Zvol(VolumeSize(input), Blank, None)
      modifies this`cache, this`guest
      ensures Valid() && Refreshed(site, old(cache), cache) && old(Verified()) <= Verified()
      ensures guest == old(guest).(zvol := guest.zvol) && guest.zvol.Some?
      ensures if volumeCreated then VolumeTouch(input, None, guest.zvol) else guest.zvol == old(guest).zvol
      ensures result.ok ==> VolumeMatches(input, guest.zvol.value)
      ensures faultless ==> (result.ok <==> volumeCreated || VolumeMatches(input, old(guest).zvol.value))
      ensures faultless ==> (result.blocked <==> !result.ok)
      ensures result.blocked ==> !volumeCreated && !VolumeMatches(input, old(guest).zvol.value)
      ensures result.observation.None? && !result.skipped
    {
      var refused, rawDigest := CheckImage(input);
      if refused.Some? {
        return refused.value;
      }
      if volumeCreated {
        var ok := CopyImage(input, rawDigest, old(cache));
        if !ok {
          return Failure();
        }
      }
      if guest.zvol.value.imageProperty != Some(rawDigest) {
        return Refusal();
      }
      result := Success("the volume has the declared size and image");
    }

    method EnsureStorageAbsent(input: StepInput) returns (result: Result)
      requires Valid()
      modifies this`guest
      ensures Valid() && StorageRemovalTouch(old(guest), guest)
      ensures result.ok ==> input.destroyStorage && guest == old(guest).(dataset := false, zvol := None)
      ensures faultless ==> (result.ok <==> input.destroyStorage)
      ensures result.blocked <==> !input.destroyStorage
      ensures !input.destroyStorage ==> guest == old(guest)
      ensures result.observation.None? && !result.skipped
    {
      if !input.destroyStorage {
        return Refusal();
      }
      if { case !faultless => return Failure(); case true => }
      if guest.dataset {
        if { case !faultless => return Failure(); case true => }
        guest := guest.(zvol := None);
        if { case !faultless => return Failure(); case true => }
        guest := guest.(dataset := false);
        if { case !faultless => return Failure(); case true => }
      }
      if { case !faultless => return Failure(); case true => }
      if guest.dataset {
        return Failure();
      }
      result := Success("the dataset is gone");
    }

    // ----- cloudinit

    /** The key file of the manifest, if it names one: what is wrong with it. */
    method ReadKey(input: StepInput) returns (refused: Option<Result>)
      ensures refused.None? ==> KeyUsable(input.spec)
      ensures faultless && KeyUsable(input.spec) ==> refused.None?
      ensures refused.Some? ==> !refused.value.ok && refused.value.observation.None? && !refused.value.skipped
      ensures refused.Some? && refused.value.blocked ==> input.spec.sshKey.Given? && !IsEd25519(input.spec.sshKey.key)
      ensures faultless && input.spec.sshKey.Given? && !IsEd25519(input.spec.sshKey.key) ==>
                refused.Some? && refused.value.blocked
    {
      if input.spec.sshKey.NotGiven? {
        return None;
      }
      if { case !faultless => return Some(Failure()); case true => }
      if input.spec.sshKey.Unreadable? {
        return Some(Failure());
      }
      var key := input.spec.sshKey.key;
      if !HasPrefix(key, "ssh-ed25519 ") && !HasPrefix(key, "sk-ssh-ed25519@openssh.com ") {
        return Some(Refusal());
      }
      refused := None;
    }

    method EnsureSeed(input: StepInput) returns (result: Result)
      requires Valid()
      modifies this`guest
      ensures Valid() && SeedStepTouch(input, old(guest), guest)
      ensures result.ok ==>
                && guest.guestDir && guest.seed == Some(Cd9660(input.spec.seedSource))
                && guest.seedMarker == Some(SeedMarker(Sha256(Blob(input.spec.seedSource)),
                                                       Sha256(Cd9660(input.spec.seedSource))))
      ensures guest.seedMarker != old(guest).seedMarker ==> guest.seed == Some(Cd9660(input.spec.seedSource))
      ensures old(SeedValid(input, guest)) && result.ok ==> guest == old(guest)
      ensures result.ok ==> KeyUsable(input.spec)
      ensures faultless ==>
                (result.ok <==>
                   input.spec.sshKey.NotGiven?
                   || (input.spec.sshKey.Given?
                       && (HasPrefix(input.spec.sshKey.key, "ssh-ed25519 ")
                           || HasPrefix(input.spec.sshKey.key, "sk-ssh-ed25519@openssh.com "))))
      ensures !KeyUsable(input.spec) ==> guest == old(guest)
      ensures result.blocked ==> input.spec.sshKey.Given? && !IsEd25519(input.spec.sshKey.key)
      ensures faultless && input.spec.sshKey.Given? && !result.ok ==> result.blocked
      ensures result.observation.None? && !result.skipped
    {
      var refused := ReadKey(input);
      if refused.Some? {
        return refused.value;
      }
      var sourceDigest := Sha256(Blob(input.spec.seedSource));
      if guest.seedMarker.Some? && guest.seedMarker.value.source == sourceDigest && guest.seed.Some? {
        if Sha256(guest.seed.value) == guest.seedMarker.value.iso {
          return Success("the seed is current");
        }
      }
      if { case !faultless => return Failure(); case true => }
      guest := guest.(guestDir := true);
      if { case !faultless => return Failure(); case true => }
      var seedTemp := Cd9660(input.spec.seedSource);
      if { case !faultless => return Failure(); case true => }
      guest := guest.(seed := Some(seedTemp));
      if { case !faultless => return Failure(); case true => }
      var isoDigest := Sha256(guest.seed.value);
      if { case !faultless => return Failure(); case true => }
      guest := guest.(seedMarker := Some(SeedMarker(sourceDigest, isoDigest)));
      if { case !faultless => return Failure(); case true => }
      result := Success("the seed was made");
    }

    /** Remove the file and then its marker. */
    method EnsureSeedAbsent(input: StepInput) returns (result: Result)
      requires Valid()
      modifies this`guest
      ensures Valid() && SeedRemovalTouch(old(guest), guest)
      ensures result.ok ==> guest == old(guest).(seed := None, seedMarker := None)
      ensures faultless ==> result.ok
      ensures result.observation.None? && !result.blocked && !result.skipped
    {
      for path := 0 to 2
        invariant Valid() && SeedRemovalTouch(old(guest), guest)
        invariant path >= 1 ==> guest.seed.None?
        invariant path >= 2 ==> guest.seedMarker.None?
      {
        if { case !faultless => return Failure(); case true => }
        guest := if path == 0 then guest.(seed := None) else guest.(seedMarker := None);
        if { case !faultless => return Failure(); case true => }
      }
      result := Success("the seed is gone");
    }

    // ----- vmbhyve

    method EnsureDefinition(input: StepInput) returns (result: Result)
      requires Valid()
      modifies this`guest
      ensures Valid() && guest in {old(guest), old(guest).(guestDir := true)}
      ensures result.ok ==> guest.guestDir
      ensures faultless ==> result.ok
      ensures result.observation.None? && !result.blocked && !result.skipped
    {
      if { case !faultless => return Failure(); case true => }
      guest := guest.(guestDir := true);
      if { case !faultless => return Failure(); case true => }
      result := Success("the directory is there");
    }

    method EnsureConfig(input: StepInput) returns (result: Result)
      requires Valid()
      modifies this`guest
      ensures Valid() && ConfigTouch(input, old(guest), guest)
      ensures result.ok || guest.conf != old(guest).conf ==>
                && guest.guestDir && guest.conf.Some?
                && guest.conf.value.cpus == input.spec.cpus && guest.conf.value.memoryMb == input.spec.memoryMb
                && guest.conf.value.loader == input.image.loader && guest.conf.value.switch == input.vmSwitch
                && guest.conf.value.mac == input.allocation.mac && guest.conf.value.zvol == input.allocation.zvol
      ensures faultless ==> result.ok
      ensures result.observation.None? && !result.blocked && !result.skipped
    {
      if { case !faultless => return Failure(); case true => }
      guest := guest.(guestDir := true);
      if { case !faultless => return Failure(); case true => }
      guest := guest.(conf := Some(VmConfig(input.image.loader, input.spec.cpus, input.spec.memoryMb, input.vmSwitch,
                                            input.allocation.mac, input.allocation.zvol)));
      if { case !faultless => return Failure(); case true => }
      result := Success("the configuration was written");
    }

    method EnsurePower(input: StepInput, running: bool) returns (result: Result)
      requires Valid()
      modifies this`guest
      ensures Valid()
      ensures guest == old(guest)
              || (old(guest).conf.Some? && guest == old(guest).(running := running)
                  && (running ==> !Misread(input.resource)))
      ensures result.ok && running ==> guest.running || Contains(input.resource, "running")
      ensures result.ok && !running ==> !guest.running
      ensures result.ok ==> old(guest).conf.Some?
                            && (!(running && Contains(input.resource, "running")) ==> guest == old(guest).(running := running))
      ensures faultless ==> (result.ok <==> old(guest).conf.Some?) && (result.blocked <==> old(guest).conf.None?)
      ensures result.blocked ==> old(guest).conf.None?
      ensures old(guest).conf.None? ==> !result.ok && guest == old(guest)
      ensures result.observation.None? && !result.skipped
    {
      if { case !faultless => return Failure(); case true => }
      var isRunning := guest.running || Contains(input.resource, "running");
      if guest.conf.None? {
        return Refusal();
      }
      if running && !isRunning {
        if { case !faultless => return Failure(); case true => }
        guest := guest.(running := true);
        if { case !faultless => return Failure(); case true => }
      }
      if !running && isRunning {
        if { case !faultless => return Failure(); case true => }
        guest := guest.(running := false);
        if { case !faultless => return Failure(); case true => }
      }
      result := Success("the power state is as desired");
    }

    method EnsureVmAbsent(input: StepInput) returns (result: Result)
      requires Valid()
      modifies this`guest
      ensures Valid() && VmRemovalTouch(old(guest), guest)
      ensures result.ok ==>
                guest == if old(guest).conf.None? then old(guest)
                         else old(guest).(guestDir := false, seed := None, seedMarker := None, conf := None, running := false)
      ensures !guest.running || guest.conf == old(guest).conf
      ensures faultless ==> result.ok
      ensures result.observation.None? && !result.blocked && !result.skipped
    {
      if { case !faultless => return Failure(); case true => }
      if guest.conf.Some? {
        if guest.running || Contains(input.resource, "running") {
          if { case !faultless => return Failure(); case true => }
          guest := guest.(running := false);
          if { case !faultless => return Failure(); case true => }
        }
        RemoveSome();
        if {
          case !faultless =>
            RemoveSome();
            if { case true => return Failure(); case true => }
          case true =>
        }
        guest := guest.(guestDir := false, seed := None, seedMarker := None, conf := None);
      }
      result := Success("the machine is gone");
    }

    /** A removal of the machine's directory that stopped half-way. */
    method RemoveSome()
      requires Valid()
      modifies this`guest
      ensures Valid() && VmRemovalTouch(old(guest), guest) && guest.running == old(guest).running
    {
      if * {
        guest := guest.(seed := None);
      }
      if * {
        guest := guest.(seedMarker := None);
      }
      if * {
        guest := guest.(conf := None);
      }
      if * {
        if guest.seed.None? && guest.conf.None? {
          guest := guest.(guestDir := false);
        }
      }
    }

    // ----- kea

    /**
      Add a missing reservation, update a wrong one, and where the server knows no update, delete it and add it
      again; then read it back.
     */
    method EnsureReservation(input: StepInput) returns (result: Result)
      requires Valid()
      modifies this`guest
      ensures Valid() && guest == old(guest).(reservations := guest.reservations)
      ensures result.ok ==>
                guest.reservations
                == old(guest).reservations[(input.allocation.subnet, input.allocation.mac) :=
                     Reservation(input.allocation.subnet, input.allocation.mac, input.allocation.ip, input.resource)]
      ensures !result.ok ==>
                var key := (input.allocation.subnet, input.allocation.mac);
                guest.reservations in {old(guest).reservations, old(guest).reservations - {key},
                                       old(guest).reservations[key := Reservation(input.allocation.subnet, input.allocation.mac,
                                                                                  input.allocation.ip, input.resource)]}
      ensures old(ReservationMatches(input, guest)) ==> guest == old(guest)
      ensures faultless ==> result.ok
      ensures result.observation.None? && !result.blocked && !result.skipped
    {
      var key := (input.allocation.subnet, input.allocation.mac);
      var desired := Reservation(input.allocation.subnet, input.allocation.mac, input.allocation.ip, input.resource);
      if { case !faultless => return Failure(); case true => }
      if key !in guest.reservations {
        if { case !faultless => return Failure(); case true => }
        guest := guest.(reservations := guest.reservations[key := desired]);
        if { case !faultless => return Failure(); case true => }
      } else if guest.reservations[key] != desired {
        var ok := ReplaceReservation(key, desired);
        if !ok {
          return Failure();
        }
      }
      if { case !faultless => return Failure(); case true => }
      if key !in guest.reservations || guest.reservations[key] != desired {
        return Failure();
      }
      result := Success("the reservation matches");
    }

    /** Update a reservation; a server without updates has it deleted and added again. */
    method ReplaceReservation(key: (int, Mac), desired: Reservation) returns (ok: bool)
      requires Valid()
      modifies this`guest
      ensures Valid() && guest == old(guest).(reservations := guest.reservations)
      ensures guest.reservations in {old(guest).reservations, old(guest).reservations - {key},
                                     old(guest).reservations[key := desired]}
      ensures ok ==> guest.reservations == old(guest).reservations[key := desired]
      ensures faultless ==> ok
    {
      var supported: bool := *;
      if supported {
        if { case !faultless => return false; case true => }
        guest := guest.(reservations := guest.reservations[key := desired]);
      } else {
        if { case !faultless => return false; case true => }
        ghost var before := guest.reservations;
        guest := guest.(reservations := guest.reservations - {key});
        if { case !faultless => return false; case true => }
        guest := guest.(reservations := guest.reservations[key := desired]);
        assert guest.reservations == before[key := desired];
      }
      ok :| faultless ==> ok;
    }

    method EnsureReservationAbsent(input: StepInput) returns (result: Result)
      requires Valid()
      modifies this`guest
      ensures Valid()
      ensures guest in {old(guest), old(guest).(reservations := old(guest).reservations
                                                                - {(input.allocation.subnet, input.allocation.mac)})}
      ensures result.ok ==> (input.allocation.subnet, input.allocation.mac) !in guest.reservations
      ensures faultless ==> result.ok
      ensures result.observation.None? && !result.blocked && !result.skipped
    {
      var key := (input.allocation.subnet, input.allocation.mac);
      if { case !faultless => return Failure(); case true => }
      if key in guest.reservations {
        if { case !faultless => return Failure(); case true => }
        guest := guest.(reservations := guest.reservations - {key});
        if { case !faultless => return Failure(); case true => }
      }
      if { case !faultless => return Failure(); case true => }
      if key in guest.reservations {
        return Failure();
      }
      result := Success("the reservation is gone");
    }

    // ----- pf

    method EnsureRules(input: StepInput) returns (result: Result)
      requires Valid()
      modifies this`guest
      ensures Valid()
      ensures guest == old(guest)
              || (input.manageAnchor && guest == old(guest).(rules := Some(Rules(input.bridge, input.allocation.ip))))
      ensures result.ok && input.manageAnchor ==> guest.rules == Some(Rules(input.bridge, input.allocation.ip))
      ensures faultless ==> result.ok
      ensures result.skipped <==> !input.manageAnchor
      ensures result.skipped ==> result.ok
      ensures result.observation.None? && !result.blocked
    {
      if !input.manageAnchor {
        return Skipped("not managed");
      }
      if { case !faultless => return Failure(); case true => }
      guest := guest.(rules := Some(Rules(input.bridge, input.allocation.ip)));
      if { case !faultless => return Failure(); case true => }
      var listing := Listing(guest.rules.value);
      RulesMention(input.bridge, IpText(input.allocation.ip));
      if !Contains(listing, IpText(input.allocation.ip)) || !Contains(listing, input.bridge) {
        return Failure();
      }
      result := Success("the rules are loaded");
    }

    method EnsureRulesAbsent(input: StepInput) returns (result: Result)
      requires Valid()
      modifies this`guest
      ensures Valid()
      ensures guest == old(guest) || (input.manageAnchor && guest == old(guest).(rules := None))
      ensures result.ok && input.manageAnchor ==> guest.rules.None?
      ensures faultless ==> result.ok
      ensures result.skipped <==> !input.manageAnchor
      ensures result.skipped ==> result.ok
      ensures result.observation.None? && !result.blocked
    {
      if !input.manageAnchor {
        return Skipped("not managed");
      }
      if { case !faultless => return Failure(); case true => }
      guest := guest.(rules := None);
      if { case !faultless => return Failure(); case true => }
      if guest.rules.Some? {
        return Failure();
      }
      result := Success("the anchor is empty");
    }

    // ----- service

    /**
      Whether a service runs is not part of the modelled world: asking may say yes or no, and starting may fail.  What
      is refused is a missing list, and a name that is none, when its turn comes.
     */
    method EnsureServices(input: StepInput) returns (result: Result)
      ensures result.skipped <==> !input.manageServices
      ensures result.skipped ==> result.ok
      ensures result.ok && input.manageServices ==>
                |input.services| > 0
                && forall i :: 0 <= i < |input.services| ==>
                     && |input.services[i]| > 0
                     && forall c <- input.services[i] ::
                          'A' <= c <= 'Z' || 'a' <= c <= 'z' || '0' <= c <= '9' || c == '_' || c == '.' || c == '-'
      ensures result.ok ==> ServicesUsable(input)
      ensures faultless ==> (result.ok <==> ServicesUsable(input)) && (result.blocked <==> !result.ok)
      ensures result.blocked ==> !ServicesUsable(input)
      ensures input.manageServices && |input.services| == 0 ==> result.blocked
      ensures result.observation.None?
    {
      if !input.manageServices {
        return Skipped("not managed");
      }
      if |input.services| == 0 {
        return Refusal();
      }
      for i := 0 to |input.services|
        invariant forall j :: 0 <= j < i ==> IsServiceName(input.services[j])
      {
        if !IsServiceName(input.services[i]) {
          return Refusal();
        }
        var running: bool := *;
        if !running {
          if { case !faultless => return Failure(); case true => }
        }
        if { case !faultless => return Failure(); case true => }
      }
      result := Success("the services are running");
    }

    // ----- observer

    /** Looking may find what is there, or end in an error of either kind. */
    method LookFor(there: bool) returns (look: Look)
      ensures look.Found? ==> look.there == there
      ensures faultless ==> look.Found?
    {
      look :| look.Found? ==> look.there == there;
      if faultless {
        look := Found(there);
      }
    }

    /** A missing file or directory on the way to the seed is no error. */
    method LookForSeed() returns (look: Look)
      ensures look.Found? ==> look.there == guest.seed.Some?
      ensures faultless ==> look.Found?
    {
      look := LookFor(guest.seed.Some?);
      if look.NoSuchFile? {
        look := Found(guest.seed.Some?);
      }
    }

    method LookForImage(input: StepInput) returns (look: Look)
      requires Valid() && FromSite(site, input)
      modifies this`cache
      ensures Valid() && Refreshed(site, old(cache), cache) && old(Verified()) <= Verified()
      ensures There(look) ==> input.image.name in Verified()
      ensures faultless ==> look.Found? && (input.image.name in old(Verified()) ==> There(look))
    {
      RefreshedKeeps(site, cache, cache);
      var name, pin := input.image.name, input.image.pinned;
      Others(old(cache));
      label Read:
      var marker := cache[name].marker;
      if marker.None? || marker.value.compressed != pin {
        return Found(false);
      }
      Others(old(cache));
      var raw := cache[name].raw;
      assert Refresh(pin, old@Read(cache)[name], cache[name]);
      assert EntryTruthful(cache[name]) && EntryTruthful(old@Read(cache)[name]);
      look := LookFor(raw.Some? && Sha256(raw.value) == marker.value.raw);
    }

    /** The observation that the looks amount to; the rules count only where they are managed. */
    static method Report(vm: Look, storage: Look, kea: Look, seed: Look, image: Look, pf: Option<Look>, running: bool)
      returns (observation: Observation)
      ensures observation.failed <==>
              !vm.Found? || !storage.Found? || !kea.Found? || !seed.Found? || !image.Found? || (pf.Some? && !pf.value.Found?)
      ensures !observation.failed ==>
                && (observation.vm == if There(vm) then Present else NotPresent)
                && (observation.storage == if There(storage) then Present else NotPresent)
                && (observation.kea == if There(kea) then Present else NotPresent)
                && (observation.seed == if There(seed) then Present else NotPresent)
                && (observation.image == if There(image) then Present else NotPresent)
                && (observation.pf == if pf.None? then Unknown else if There(pf.value) then Present else NotPresent)
                && observation.power == (if !There(vm) then PowerAbsent else if running then PowerRunning else PowerStopped)
      ensures observation.vm == Unavailable || observation.storage == Unavailable || observation.kea == Unavailable
              || observation.seed == Unavailable || observation.image == Unavailable || observation.pf == Unavailable
              ==> observation.failed
      ensures observation.plan.None?
    {
      var power := if !vm.Found? then PowerUnavailable
                   else if !vm.there then PowerAbsent
                   else if running then PowerRunning else PowerStopped;
      var failed := !vm.Found? || !storage.Found? || !kea.Found? || !seed.Found? || !image.Found?
                    || (pf.Some? && !pf.value.Found?);
      observation := Observation(PresenceOf(vm), PresenceOf(storage), PresenceOf(kea), PresenceOf(seed),
                                 PresenceOf(image), if pf.Some? then PresenceOf(pf.value) else Unknown, power, failed, None);
    }

    /** The first half of observe: look for everything; an error of any kind is recorded. */
    method Gather(input: StepInput) returns (observation: Observation)
      requires Valid() && FromSite(site, input)
      modifies this`cache
      ensures Valid() && Refreshed(site, old(cache), cache) && old(Verified()) <= Verified()
      ensures !observation.failed ==>
                && observation.vm == (if guest.conf.Some? then Present else NotPresent)
                && observation.storage == (if guest.zvol.Some? then Present else NotPresent)
                && observation.kea == (if (input.allocation.subnet, input.allocation.mac) in guest.reservations then Present
                                       else NotPresent)
                && observation.seed == (if guest.seed.Some? then Present else NotPresent)
                && (observation.image == Present ==> input.image.name in Verified())
                && observation.pf == (if !input.manageAnchor then Unknown
                                      else if guest.rules.Some? then Present else NotPresent)
                && observation.power == (if guest.conf.None? then PowerAbsent
                                         else if guest.running || Contains(input.resource, "running") then PowerRunning
                                         else PowerStopped)
      ensures faultless ==>
                !observation.failed && (input.image.name in old(Verified()) ==> observation.image == Present)
      ensures Truthful(input, Verified(), guest, observation)
    {
      var vm := LookFor(guest.conf.Some?);
      var storage := LookFor(guest.zvol.Some?);
      var kea := LookFor((input.allocation.subnet, input.allocation.mac) in guest.reservations);
      var seed := LookForSeed();
      var image := LookForImage(input);
      var pf := Found(false);
      if input.manageAnchor {
        pf := LookFor(guest.rules.Some?);
      }
      observation := Report(vm, storage, kea, seed, image, if input.manageAnchor then Some(pf) else None,
                            guest.running || Contains(input.resource, "running"));
    }

    /**
      Gather everything, then compare.  An observation with an error proves nothing: a missing file on the way reads
      as `absent`.
     */
    method Observe(input: StepInput, expectAbsent: bool) returns (result: Result)
      requires Valid() && FromSite(site, input)
      modifies this`cache
      ensures Valid() && Refreshed(site, old(cache), cache) && old(Verified()) <= Verified()
      ensures result.observation.Some? && Truthful(input, Verified(), guest, result.observation.value)
      ensures result.ok ==> !result.observation.value.failed
      ensures result.ok && expectAbsent ==>
                && guest.conf.None? && guest.zvol.None? && guest.seed.None?
                && (input.allocation.subnet, input.allocation.mac) !in guest.reservations
                && (input.manageAnchor ==> guest.rules.None?)
      ensures result.ok && !expectAbsent ==>
                && guest.conf.Some? && guest.zvol.Some? && guest.seed.Some? && input.image.name in Verified()
                && (input.allocation.subnet, input.allocation.mac) in guest.reservations
                && (input.manageAnchor ==>
                      guest.rules.Some? && Contains(Listing(guest.rules.value), IpText(input.allocation.ip))
                      && Contains(Listing(guest.rules.value), input.bridge))
                && (guest.running || Contains(input.resource, "running") <==> input.spec.running)
      ensures !result.observation.value.failed && expectAbsent ==> (result.ok <==> AllAbsent(input, guest))
      ensures !result.observation.value.failed && result.observation.value.image == Present && !expectAbsent ==>
                (result.ok <==> AllPresent(input, Verified(), guest))
      ensures faultless ==>
                && !result.observation.value.failed
                && (input.image.name in old(Verified()) ==> result.observation.value.image == Present)
      ensures !result.blocked && !result.skipped
    {
      var o := Gather(input);
      result := Failure().(observation := Some(o));
      if o.failed {
        return;
      }
      if expectAbsent {
        if o.vm == Present || o.storage == Present || o.kea == Present || o.seed == Present
           || (input.manageAnchor && o.pf == Present)
        {
          return;
        }
      } else {
        var rulesMatch := !input.manageAnchor
                          || (o.pf == Present && Contains(Listing(guest.rules.value), IpText(input.allocation.ip))
                              && Contains(Listing(guest.rules.value), input.bridge));
        if o.vm != Present || o.storage != Present || o.kea != Present || o.seed != Present || o.image != Present
           || !rulesMatch || (o.power == PowerRunning) != input.spec.running
        {
          return;
        }
      }
      result := result.(ok := true);
    }

    // ----- the dispatcher

    method EnsureMedia(input: StepInput) returns (result: Result)
      requires Valid() && FromSite(site, input)
      requires IsMedia(input.action)
      requires input.action.EnsureStorage? ==> input.image.name in Verified()
      modifies this`cache, this`guest
      ensures Valid() && Refreshed(site, old(cache), cache) && old(Verified()) <= Verified()
      ensures Touch(input, old(guest), guest)
      ensures Contract(input, Verified(), guest, result)
      ensures result.ok ==> Feasible(input, Verified(), old(guest)) && guest == Achieved(input, old(guest))
      ensures faultless && Feasible(input, old(Verified()), old(guest)) ==> result.ok
      ensures faultless && !result.ok ==> guest == old(guest)
      ensures faultless ==> (result.blocked <==> IsBlocked(input, old(guest)))
    {
      RefreshedKeeps(site, cache, cache);
      match input.action
      case EnsureServices => result := EnsureServices(input);
      case EnsureImage => result := EnsureImage(input);
      case EnsureStorage => result := EnsureStorage(input);
      case EnsureSeed => result := EnsureSeed(input);
    }

    method EnsureMachine(input: StepInput) returns (result: Result)
      requires Valid()
      requires !IsRemoval(input.action) && !IsObservation(input.action) && !IsMedia(input.action)
      modifies this`guest
      ensures Valid()
      ensures Touch(input, old(guest), guest)
      ensures Contract(input, Verified(), guest, result)
      ensures result.ok ==> Feasible(input, Verified(), old(guest)) && guest == Achieved(input, old(guest))
      ensures faultless && Feasible(input, Verified(), old(guest)) ==> result.ok
      ensures faultless && !result.ok ==> guest == old(guest)
      ensures faultless ==> (result.blocked <==> IsBlocked(input, old(guest)))
    {
      match input.action
      case EnsureDefinition => result := EnsureDefinition(input);
      case EnsureConfig => result := EnsureConfig(input);
      case EnsureReservation =>
        result := EnsureReservation(input);
        OneReservationTouched(input, old(guest), guest);
      case EnsureRules => result := EnsureRules(input);
      case EnsurePower => result := EnsurePower(input, input.spec.running);
    }

    method EnsurePresent(input: StepInput) returns (result: Result)
      requires Valid() && FromSite(site, input) && !IsRemoval(input.action) && !IsObservation(input.action)
      requires input.action.EnsureStorage? ==> input.image.name in Verified()
      modifies this`cache, this`guest
      ensures Valid() && Refreshed(site, old(cache), cache) && old(Verified()) <= Verified()
      ensures Touch(input, old(guest), guest)
      ensures Contract(input, Verified(), guest, result)
      ensures result.ok ==> Feasible(input, Verified(), old(guest)) && guest == Achieved(input, old(guest))
      ensures faultless && Feasible(input, old(Verified()), old(guest)) ==> result.ok
      ensures faultless && !result.ok ==> guest == old(guest)
      ensures faultless ==> (result.blocked <==> IsBlocked(input, old(guest)))
    {
      RefreshedKeeps(site, cache, cache);
      if IsMedia(input.action) {
        result := EnsureMedia(input);
      } else {
        result := EnsureMachine(input);
      }
    }

    method EnsureAbsent(input: StepInput) returns (result: Result)
      requires Valid() && IsRemoval(input.action) && !IsObservation(input.action)
      modifies this`guest
      ensures Valid() && Touch(input, old(guest), guest)
      ensures Contract(input, Verified(), guest, result)
      ensures result.ok ==> Feasible(input, Verified(), old(guest)) && guest == Achieved(input, old(guest))
      ensures faultless && Feasible(input, Verified(), old(guest)) ==> result.ok
      ensures faultless && !result.ok ==> guest == old(guest)
      ensures faultless ==> (result.blocked <==> IsBlocked(input, old(guest)))
    {
      match input.action
      case EnsureStopped => result := EnsurePower(input, false);
      case ReservationAbsent => result := EnsureReservationAbsent(input);
      case RulesAbsent => result := EnsureRulesAbsent(input);
      case VmAbsent => result := EnsureVmAbsent(input);
      case SeedAbsent => result := EnsureSeedAbsent(input);
      case StorageAbsent => result := EnsureStorageAbsent(input);
    }

    /**
      Driver.Ensure.  Whatever happens, the call stays within what its action may touch and nobody loses a verified
      image; and the result keeps the contract that the executor relies on.
     */
    method Ensure(input: StepInput) returns (result: Result)
      requires Valid() && FromSite(site, input)
      requires input.action.EnsureStorage? ==> input.image.name in Verified()
      modifies this`cache, this`guest
      ensures Valid() && Refreshed(site, old(cache), cache) && old(Verified()) <= Verified()
      ensures Touch(input, old(guest), guest)
      ensures Contract(input, Verified(), guest, result)
      ensures result.ok ==> Feasible(input, Verified(), old(guest)) && guest == Achieved(input, old(guest))
      ensures faultless && Feasible(input, old(Verified()), old(guest)) ==> result.ok
      ensures faultless && !result.ok ==> guest == old(guest)
      ensures faultless ==> (result.blocked <==> IsBlocked(input, old(guest)))
    {
      if IsObservation(input.action) {
        result := Observe(input, input.action == Action.ObserveAbsent);
      } else if IsRemoval(input.action) {
        RefreshedKeeps(site, cache, cache);
        result := EnsureAbsent(input);
      } else {
        result := EnsurePresent(input);
      }
    }
  }
}
