/** The two-phase swap of a domain migration, and the pinned domain count, as seen
    by whoever finds the profile directory after the process died at any point.

    A directory is a map from entry names to what the entries hold.  One method
    call performs as many filesystem steps as its `steps` allow and then the
    process is gone, so a property of every end state is a property of every
    crash point. */
module MigrationSwap {
  import opened Prelude

  datatype Blob = File(data: nat) | Folder(data: nat) | Manifest(domains: nat)

  type Dir = map<string, Blob>

  const MEMORY_DB_FILE := "memory.sqlite"
  const DOMAINS_DIR := "domains"
  const DOMAIN_MANIFEST_FILE := "domains.toml"

  /** What a single-store layout may consist of. */
  const SINGLE_STORE_ENTRIES: seq<string> := [
    "memory.sqlite", "fulltext.sqlite", "bm25.json", "metadata.sqlite",
    "vectors.bin", "vectors.usearch", "vectors.usearch.meta.json", "embeddings"]

  datatype Disk = Disk(root: Dir, backup: Option<Dir>, staging: Option<Dir>, sentinel: bool)

  /** The count a manifest pins: `None` without a manifest, or an unreadable one. */
  datatype Pin = Unpinned | Corrupt | Pinned(domains: nat)

  function AtLeastOne(k: nat): nat { if k == 0 then 1 else k }

  function PinOf(root: Dir): Pin {
    if DOMAIN_MANIFEST_FILE !in root then Unpinned
    else match root[DOMAIN_MANIFEST_FILE]
      case Manifest(k) => Pinned(AtLeastOne(k))
      case _ => Corrupt
  }

  /** The domain count a populated profile has. */
  function CountOf(root: Dir): Option<nat> {
    match PinOf(root)
    case Pinned(k) => Some(k)
    case Corrupt => None
    case Unpinned => if MEMORY_DB_FILE in root then Some(1) else None
  }

  function LayoutNames(count: nat): seq<string> {
    if count > 1 then [DOMAINS_DIR, DOMAIN_MANIFEST_FILE] else SINGLE_STORE_ENTRIES
  }

  function Names(names: seq<string>): set<string> { set n | n in names }

  function Only(dir: Dir, names: set<string>): Dir { map n | n in dir && n in names :: dir[n] }

  /** Opening the member stores creates what is missing. */
  function Opened(root: Dir, count: nat): Dir {
    var entry := if count > 1 then DOMAINS_DIR else MEMORY_DB_FILE;
    if entry in root then root else root[entry := if count > 1 then Folder(0) else File(0)]
  }

  /** A rename replaces a file by a file, and nothing else. */
  predicate Renamable(blob: Blob, dir: Dir, name: string) {
    name in dir ==> !blob.Folder? && !dir[name].Folder?
  }

  // ---------------------------------------------------------------------
  // What may be found afterwards
  // ---------------------------------------------------------------------

  /** The first `i` entries of the old layout are parked in the backup. */
  ghost predicate Parking(base: Dir, names: seq<string>, i: nat, root: Dir, backup: Dir)
    requires i <= |names|
  {
    root == base - Names(names[..i]) && backup == Only(base, Names(names[..i]))
  }

  /** The first `j` entries of the new layout are in place. */
  ghost predicate Placing(parked: Dir, staged: Dir, names: seq<string>, j: nat, root: Dir, staging: Dir)
    requires j <= |names|
  {
    root == parked + Only(staged, Names(names[..j])) && staging == staged - Names(names[..j])
  }

  /** The swap was cut short: the sentinel stands. */
  ghost predicate Interrupted(base: Dir, staged: Dir, from: nat, to: nat, d: Disk) {
    && d.sentinel && d.staging.Some?
    && if d.backup.None? then d.root == base && d.staging.value == staged
       else
         || (d.staging.value == staged && StillParking(base, LayoutNames(from), d))
         || (d.backup.value == Only(base, Names(LayoutNames(from)))
             && StillPlacing(base - Names(LayoutNames(from)), staged, LayoutNames(to), d))
  }

  ghost predicate StillParking(base: Dir, names: seq<string>, d: Disk)
    requires d.backup.Some?
  {
    exists i :: 0 <= i <= |names| && Parking(base, names, i, d.root, d.backup.value)
  }

  ghost predicate StillPlacing(parked: Dir, staged: Dir, names: seq<string>, d: Disk)
    requires d.staging.Some?
  {
    exists j :: 0 <= j <= |names| && Placing(parked, staged, names, j, d.root, d.staging.value)
  }

  /** The new layout is in place and the old one is in the backup. */
  ghost predicate Swapped(base: Dir, staged: Dir, from: nat, to: nat, d: Disk) {
    && d.backup == Some(Only(base, Names(LayoutNames(from))))
    && d.root == base - Names(LayoutNames(from)) + Only(staged, Names(LayoutNames(to)))
  }

  /** What building a layout of `to` domains leaves in the staging directory. */
  ghost predicate StagedFor(staged: Dir, to: nat) {
    if to > 1 then
      DOMAINS_DIR in staged && DOMAIN_MANIFEST_FILE in staged && staged[DOMAIN_MANIFEST_FILE] == Manifest(to)
    else
      MEMORY_DB_FILE in staged && DOMAIN_MANIFEST_FILE !in staged
  }

  predicate Admissible(d: Disk, journalsEmpty: bool, to: nat) {
    && !d.sentinel && d.backup.None? && !PinOf(d.root).Corrupt?
    && CountOf(d.root).Some? && CountOf(d.root).value != to && journalsEmpty
    && (CountOf(d.root) == Some(1) ==> MEMORY_DB_FILE in d.root)
  }

  predicate OpenAllowed(d: Disk, requested: nat) {
    && !d.sentinel && !PinOf(d.root).Corrupt?
    && (CountOf(d.root).None? || CountOf(d.root) == Some(AtLeastOne(requested)))
  }

  /** The manifest of an unpinned profile that is opened as several domains. */
  function PinnedAs(root: Dir, domains: nat): Dir {
    if PinOf(root).Unpinned? && domains > 1 then root[DOMAIN_MANIFEST_FILE := Manifest(domains)] else root
  }

  /** The disk an attempt to open leaves behind.  A refused attempt changes nothing;
      one that stops on its way has written the manifest, and the first stores, or
      neither; one that succeeds has done both. */
  ghost predicate OpenLeaves(d: Disk, requested: nat, ok: bool, after: Disk) {
    var domains := AtLeastOne(requested);
    if !OpenAllowed(d, requested) then !ok && after == d
    else
      && after == d.(root := after.root)
      && (ok ==> after.root == Opened(PinnedAs(d.root, domains), domains))
      && (!ok ==> after.root in {d.root, PinnedAs(d.root, domains), Opened(PinnedAs(d.root, domains), domains)})
  }

  /** Opening loses nothing, and an opened profile has the requested count. */
  lemma {:induction false} OpenKeeps(d: Disk, requested: nat, ok: bool, after: Disk)
    requires OpenLeaves(d, requested, ok, after)
    ensures forall n :: n in d.root ==> n in after.root && after.root[n] == d.root[n]
    ensures ok ==> CountOf(after.root) == Some(AtLeastOne(requested))
  {
  }

  /** An attempt that fails may pin the profile all the same: from then on it opens
      with the count of that attempt and no other. */
  lemma {:induction false} FailedOpenPins(d: Disk, requested: nat, after: Disk, other: nat)
    requires OpenLeaves(d, requested, false, after) && after != d
    ensures OpenAllowed(after, other) <==> AtLeastOne(other) == AtLeastOne(requested)
  {
  }

  datatype Ending = Refused | Stopped | Done

  /** Every disk a migration attempt may leave behind. */
  ghost predicate MigrationLeaves(d: Disk, journalsEmpty: bool, to: nat, staged: Dir, end: Ending, after: Disk) {
    if !Admissible(d, journalsEmpty, to) then end == Refused && after == d
    else
      var from := CountOf(d.root).value;
      var base := Opened(d.root, from);
      && end != Refused
      && (|| (end == Stopped && !after.sentinel && after.backup.None? && (after.root == d.root || after.root == base))
          || (end == Stopped && Interrupted(base, staged, from, to, after))
          || (Swapped(base, staged, from, to, after) && (after.sentinel ==> end == Stopped)))
  }

  /** An entry of the new layout meets a folder, or is one, where something is in its way. */
  ghost predicate Collides(parked: Dir, staged: Dir, to: nat) {
    exists n :: n in Names(LayoutNames(to)) && n in staged && !Renamable(staged[n], parked, n)
  }

  /** What a migration needs to complete, if the process lives long enough. */
  ghost predicate MayComplete(d: Disk, journalsEmpty: bool, to: nat, built: Option<Dir>) {
    && Admissible(d, journalsEmpty, to) && built.Some?
    && !Collides(d.root - Names(LayoutNames(CountOf(d.root).value)), built.value, to)
  }

  /** More steps than any migration takes. */
  const ENOUGH: nat := 30

  lemma {:induction false} NamesStep(names: seq<string>, i: nat)
    requires i < |names|
    ensures Names(names[..i + 1]) == Names(names[..i]) + {names[i]}
  {
    assert names[..i + 1] == names[..i] + [names[i]];
  }

  lemma {:induction false} ParkNothing(base: Dir, names: seq<string>)
    ensures Parking(base, names, 0, base, map[])
  {
  }

  lemma {:induction false} PlaceNothing(parked: Dir, staged: Dir, names: seq<string>)
    ensures Placing(parked, staged, names, 0, parked, staged)
  {
  }

  lemma {:induction false} ParkOne(base: Dir, names: seq<string>, i: nat, root: Dir, backup: Dir)
    requires i < |names| && Parking(base, names, i, root, backup)
    ensures names[i] !in root ==> Parking(base, names, i + 1, root, backup)
    ensures names[i] in root ==> Parking(base, names, i + 1, root - {names[i]}, backup[names[i] := root[names[i]]])
  {
    NamesStep(names, i);
  }

  lemma {:induction false} PlaceOne(parked: Dir, staged: Dir, names: seq<string>, j: nat, root: Dir, staging: Dir)
    requires j < |names| && Placing(parked, staged, names, j, root, staging) && names[j] !in Names(names[..j])
    ensures names[j] !in staging ==> Placing(parked, staged, names, j + 1, root, staging)
    ensures names[j] in staging ==>
      Placing(parked, staged, names, j + 1, root[names[j] := staging[names[j]]], staging - {names[j]})
  {
    NamesStep(names, j);
    var grown := Only(staged, Names(names[..j + 1]));
    if names[j] in staging {
      assert root[names[j] := staging[names[j]]] == parked + grown;
      assert staging - {names[j]} == staged - Names(names[..j + 1]);
    } else {
      assert names[j] !in staged;
      assert root == parked + grown;
      assert staging == staged - Names(names[..j + 1]);
    }
  }

  lemma {:induction false} FewNames(count: nat)
    ensures |LayoutNames(count)| <= 8
  {
  }

  /** No layout names an entry twice. */
  lemma {:induction false} LayoutNamesDiffer(count: nat, j: nat)
    requires j < |LayoutNames(count)|
    ensures LayoutNames(count)[j] !in Names(LayoutNames(count)[..j])
  {
  }

  lemma {:induction false} Blocked(parked: Dir, staged: Dir, to: nat, j: nat, root: Dir, staging: Dir)
    requires j < |LayoutNames(to)| && Placing(parked, staged, LayoutNames(to), j, root, staging)
    requires LayoutNames(to)[j] !in Names(LayoutNames(to)[..j]) && LayoutNames(to)[j] in staging
    ensures !Renamable(staging[LayoutNames(to)[j]], root, LayoutNames(to)[j]) ==> Collides(parked, staged, to)
  {
    assert LayoutNames(to)[j] in Names(LayoutNames(to));
  }

  /** Nothing stands in the way of the first `j` entries. */
  ghost predicate FreeSoFar(parked: Dir, staged: Dir, to: nat, j: nat)
    requires j <= |LayoutNames(to)|
  {
    forall k :: 0 <= k < j && LayoutNames(to)[k] in staged ==>
      Renamable(staged[LayoutNames(to)[k]], parked, LayoutNames(to)[k])
  }

  lemma {:induction false} FreeAtFirst(parked: Dir, staged: Dir, to: nat)
    ensures FreeSoFar(parked, staged, to, 0)
  {
  }

  lemma {:induction false} FreeStep(parked: Dir, staged: Dir, to: nat, j: nat, root: Dir, staging: Dir)
    requires j < |LayoutNames(to)| && Placing(parked, staged, LayoutNames(to), j, root, staging)
    requires FreeSoFar(parked, staged, to, j) && LayoutNames(to)[j] !in Names(LayoutNames(to)[..j])
    ensures LayoutNames(to)[j] !in staging || Renamable(staging[LayoutNames(to)[j]], root, LayoutNames(to)[j])
      ==> FreeSoFar(parked, staged, to, j + 1)
  {
    hide LayoutNames;
  }

  lemma {:induction false} NothingInTheWay(parked: Dir, staged: Dir, to: nat)
    requires FreeSoFar(parked, staged, to, |LayoutNames(to)|)
    ensures !Collides(parked, staged, to)
  {
    hide LayoutNames;
  }

  lemma {:induction false} OpenedRest(root: Dir)
    ensures CountOf(root).Some? ==>
      var from := CountOf(root).value; Opened(root, from) - Names(LayoutNames(from)) == root - Names(LayoutNames(from))
  {
    if CountOf(root).Some? {
      var names := LayoutNames(CountOf(root).value);
      assert names[0] in Names(names);
    }
  }

  /** Where an attempt to open is cut short. */
  datatype Stop = Nowhere | BeforeManifest | BeforeStores | AmongStores

  class Profile {
    var disk: Disk

    constructor (initial: Disk)
      ensures disk == initial
    {
      disk := initial;
    }

    /** Opening needs no sentinel and, on a populated profile, the very count it
        has; on an empty one it pins the requested count.  `stop` is where a failing
        write, a store that does not open or the end of the process cuts it short. */
    method Open(requested: nat, stop: Stop) returns (ok: bool)
      modifies this
      ensures OpenLeaves(old(disk), requested, ok, disk)
      ensures ok <==> OpenAllowed(old(disk), requested) && stop == Nowhere
      ensures stop == BeforeStores && OpenAllowed(old(disk), requested) ==>
        disk.root == PinnedAs(old(disk).root, AtLeastOne(requested))
    {
      var domains := AtLeastOne(requested);
      if disk.sentinel {
        return false;
      }
      var pin := PinOf(disk.root);
      if pin.Corrupt? || (pin.Pinned? && pin.domains != domains) {
        return false;
      }
      if pin.Unpinned? && domains > 1 {
        if MEMORY_DB_FILE in disk.root {
          return false;
        }
        if stop == BeforeManifest {
          return false;
        }
        disk := disk.(root := disk.root[DOMAIN_MANIFEST_FILE := Manifest(domains)]);
      }
      if stop == BeforeManifest || stop == BeforeStores {
        return false;
      }
      disk := disk.(root := Opened(disk.root, domains));
      ok := stop == Nowhere;
    }

    /** Moves the old layout aside, one rename at a time. */
    method MoveLayoutToBackup(from: nat, ghost base: Dir, steps: nat) returns (done: bool, left: nat)
      requires disk.root == base && disk.backup == Some(map[])
      modifies this
      ensures disk == old(disk).(root := disk.root, backup := disk.backup) && disk.backup.Some?
      ensures StillParking(base, LayoutNames(from), disk)
      ensures done ==> Parking(base, LayoutNames(from), |LayoutNames(from)|, disk.root, disk.backup.value)
      ensures steps >= 8 ==> done && left >= steps - 8
    {
      hide Parking, Names, LayoutNames, Only;
      FewNames(from);
      var names := LayoutNames(from);
      left := steps;
      var i := 0;
      ParkNothing(base, names);
      while i < |names|
        invariant i <= |names|
        invariant disk == old(disk).(root := disk.root, backup := disk.backup) && disk.backup.Some?
        invariant Parking(base, names, i, disk.root, disk.backup.value)
        invariant left + i >= steps
      {
        var name := names[i];
        ParkOne(base, names, i, disk.root, disk.backup.value);
        if name in disk.root {
          if left == 0 {
            return false, 0;
          }
          left := left - 1;
          disk := disk.(root := disk.root - {name}, backup := Some(disk.backup.value[name := disk.root[name]]));
        }
        i := i + 1;
      }
      done := true;
    }

    /** Moves the new layout into place, one rename at a time. */
    method MoveStagingIntoPlace(to: nat, ghost parked: Dir, ghost staged: Dir, steps: nat) returns (done: bool,
        left: nat)
      requires disk.root == parked && disk.staging == Some(staged)
      modifies this
      ensures disk == old(disk).(root := disk.root, staging := disk.staging) && disk.staging.Some?
      ensures StillPlacing(parked, staged, LayoutNames(to), disk)
      ensures done ==> Placing(parked, staged, LayoutNames(to), |LayoutNames(to)|, disk.root, disk.staging.value)
      ensures steps >= 8 && !Collides(parked, staged, to) ==> done && left >= steps - 8
      ensures done ==> !Collides(parked, staged, to)
    {
      hide Placing, Collides, Names, LayoutNames, Only, FreeSoFar;
      FewNames(to);
      FreeAtFirst(parked, staged, to);
      var names := LayoutNames(to);
      left := steps;
      var j := 0;
      PlaceNothing(parked, staged, names);
      while j < |names|
        invariant j <= |names|
        invariant disk == old(disk).(root := disk.root, staging := disk.staging) && disk.staging.Some?
        invariant Placing(parked, staged, names, j, disk.root, disk.staging.value)
        invariant left + j >= steps
        invariant FreeSoFar(parked, staged, to, j)
      {
        var name := names[j];
        LayoutNamesDiffer(to, j);
        PlaceOne(parked, staged, names, j, disk.root, disk.staging.value);
        FreeStep(parked, staged, to, j, disk.root, disk.staging.value);
        if name in disk.staging.value {
          if left == 0 || !Renamable(disk.staging.value[name], disk.root, name) {
            Blocked(parked, staged, to, j, disk.root, disk.staging.value);
            return false, left;
          }
          left := left - 1;
          disk := disk.(root := disk.root[name := disk.staging.value[name]],
                        staging := Some(disk.staging.value - {name}));
        }
        j := j + 1;
      }
      NothingInTheWay(parked, staged, to);
      done := true;
    }

    /** Re-homes the profile to `requested` domains.  `built` is the staged layout,
        or nothing if exporting, routing, building or verifying it failed; `rubble`
        is what a crash in the middle of that leaves in the staging directory. */
    method Migrate(requested: nat, journalsEmpty: bool, built: Option<Dir>, rubble: Dir,
        steps: nat) returns (end: Ending)
      modifies this
      ensures MigrationLeaves(old(disk), journalsEmpty, AtLeastOne(requested), if built.Some? then built.value
                              else map[], end, disk)
      ensures end == Done ==> MayComplete(old(disk), journalsEmpty, AtLeastOne(requested), built)
      ensures MayComplete(old(disk), journalsEmpty, AtLeastOne(requested), built) && steps >= ENOUGH ==> end == Done
    {
      hide Parking, Placing, LayoutNames, PinOf, CountOf, Opened, Collides;
      OpenedRest(disk.root);
      var to := AtLeastOne(requested);
      var admitted, from := Admit(to, journalsEmpty);
      if !admitted {
        return Refused;
      }
      if steps < 4 {
        disk := disk.(root := if steps == 3 then Opened(disk.root, from) else disk.root,
                      staging := if steps == 0 then disk.staging else if steps == 1 then None else Some(map[]));
        return Stopped;
      }
      disk := disk.(root := Opened(disk.root, from), staging := Some(rubble));
      if built.None? {
        return Stopped;
      }
      disk := disk.(staging := Some(built.value));
      end := Swap(from, to, disk.root, built.value, steps - 4);
    }

    /** The preconditions, in the order in which they are checked. */
    method Admit(to: nat, journalsEmpty: bool) returns (ok: bool, from: nat)
      requires to > 0
      ensures ok <==> Admissible(disk, journalsEmpty, to)
      ensures ok ==> CountOf(disk.root) == Some(from)
    {
      ok, from := false, 1;
      if disk.sentinel || disk.backup.Some? {
        return;
      }
      var pin := PinOf(disk.root);
      if pin.Corrupt? {
        return;
      }
      from := if pin.Pinned? then pin.domains else 1;
      if from == 1 && MEMORY_DB_FILE !in disk.root {
        return;
      }
      ok := from != to && journalsEmpty;
    }

    /** The two-phase swap, from writing the sentinel to removing it. */
    method Swap(from: nat, to: nat, ghost base: Dir, ghost staged: Dir, steps: nat) returns (end: Ending)
      requires disk == Disk(base, None, Some(staged), false)
      modifies this
      ensures end != Refused
      ensures
        || (end == Stopped && disk == old(disk))
        || (end == Stopped && Interrupted(base, staged, from, to, disk))
        || (Swapped(base, staged, from, to, disk) && (disk.sentinel ==> end == Stopped))
      ensures steps >= 20 && !Collides(base - Names(LayoutNames(from)), staged, to) ==> end == Done
      ensures end == Done ==> !Collides(base - Names(LayoutNames(from)), staged, to)
    {
      hide Parking, Placing, LayoutNames, Only, Names, Collides;
      if steps == 0 {
        return Stopped;
      }
      disk := disk.(sentinel := true);
      if steps == 1 {
        return Stopped;
      }
      disk := disk.(backup := Some(map[]));
      var parked, left := MoveLayoutToBackup(from, base, steps - 2);
      if !parked {
        return Stopped;
      }
      AllParked(base, LayoutNames(from), disk);
      var placed;
      placed, left := MoveStagingIntoPlace(to, disk.root, staged, left);
      if !placed {
        return Stopped;
      }
      AllPlaced(base - Names(LayoutNames(from)), staged, LayoutNames(to), disk);
      if left == 0 {
        return Stopped;
      }
      disk := disk.(staging := None);
      if left == 1 {
        return Stopped;
      }
      disk := disk.(sentinel := false);
      end := Done;
    }
  }

  lemma {:induction false} AllParked(base: Dir, names: seq<string>, d: Disk)
    requires d.backup.Some? && Parking(base, names, |names|, d.root, d.backup.value)
    ensures d.root == base - Names(names) && d.backup.value == Only(base, Names(names))
  {
    assert names[..|names|] == names;
  }

  lemma {:induction false} AllPlaced(parked: Dir, staged: Dir, names: seq<string>, d: Disk)
    requires d.staging.Some? && Placing(parked, staged, names, |names|, d.root, d.staging.value)
    ensures d.root == parked + Only(staged, Names(names))
  {
    assert names[..|names|] == names;
  }

  // ---------------------------------------------------------------------
  // What every crash point guarantees
  // ---------------------------------------------------------------------

  /** Each entry of the old layout is in exactly one place: in the backup, with at
      most its successor at the root, or still at the root. */
  lemma {:induction false} EntryInOnePlace(d: Disk, journalsEmpty: bool, to: nat, staged: Dir, end: Ending,
      after: Disk, n: string)
    requires MigrationLeaves(d, journalsEmpty, to, staged, end, after) && Admissible(d, journalsEmpty, to)
    requires n in d.root && n in Names(LayoutNames(CountOf(d.root).value))
    ensures
      if after.backup.Some? && n in after.backup.value then
        && after.backup.value[n] == d.root[n]
        && (n in after.root ==> n in staged && after.root[n] == staged[n])
      else n in after.root && after.root[n] == d.root[n]
  {
    hide Admissible, LayoutNames, PinOf, CountOf, AtLeastOne;
  }

  /** Without a sentinel the root holds the old layout or the new one, whole; what
      belongs to neither layout is as it was. */
  lemma {:induction false} WholeWithoutSentinel(d: Disk, journalsEmpty: bool, to: nat, staged: Dir, end: Ending,
      after: Disk)
    requires MigrationLeaves(d, journalsEmpty, to, staged, end, after) && Admissible(d, journalsEmpty, to)
    requires StagedFor(staged, to) && !after.sentinel && to > 0
    ensures
      var from := CountOf(d.root).value;
      || (after.backup.None? && CountOf(after.root) == Some(from) && forall n :: n in d.root ==>
          n in after.root && after.root[n] == d.root[n])
      || (&& CountOf(after.root) == Some(to)
          && after.backup == Some(Only(Opened(d.root, from), Names(LayoutNames(from))))
          && (forall n :: n in Names(LayoutNames(to)) && n in staged ==> n in after.root && after.root[n] == staged[n])
          && (forall n :: n in after.root && n !in staged ==>
              n in d.root && n !in Names(LayoutNames(from)) && after.root[n] == d.root[n]))
  {
    OpenedCount(d.root);
    OpenedRest(d.root);
    if after.backup.Some? {
      SwappedCount(d.root, staged, CountOf(d.root).value, to, after);
    }
  }

  lemma {:induction false} OpenedCount(root: Dir)
    ensures CountOf(root).Some? ==> CountOf(Opened(root, CountOf(root).value)) == CountOf(root)
  {
  }

  lemma {:induction false} SwappedCount(root: Dir, staged: Dir, from: nat, to: nat, after: Disk)
    requires CountOf(root) == Some(from) && to > 0 && from != to && StagedFor(staged, to)
    requires Swapped(Opened(root, from), staged, from, to, after)
    ensures CountOf(after.root) == Some(to)
  {
    var olds, news := LayoutNames(from), LayoutNames(to);
    assert news[0] in Names(news);
    if to > 1 {
      assert news[1] in Names(news);
    } else {
      assert olds[1] in Names(olds);
    }
  }

  /** The files and folders of a single store, and of several domains. */
  ghost predicate OfLayout(domains: nat, n: string) {
    if domains > 1 then n == "domains" || n == "domains.toml"
    else
      || n == "memory.sqlite" || n == "fulltext.sqlite" || n == "bm25.json" || n == "metadata.sqlite"
      || n == "vectors.bin" || n == "vectors.usearch" || n == "vectors.usearch.meta.json" || n == "embeddings"
  }

  lemma {:induction false} LayoutIs(domains: nat, n: string)
    ensures n in Names(LayoutNames(domains)) <==> OfLayout(domains, n)
  {
    var names := LayoutNames(domains);
    if n in Names(names) {
      var i :| 0 <= i < |names| && names[i] == n;
    } else {
      assert forall i :: 0 <= i < |names| ==> names[i] != n;
      if domains > 1 {
        assert names[0] != n && names[1] != n;
      } else {
        assert names[0] != n && names[1] != n && names[2] != n && names[3] != n;
        assert names[4] != n && names[5] != n && names[6] != n && names[7] != n;
      }
    }
  }

  /** After a migration that completed: whatever belonged to the old layout is in the
      backup and, unless the new layout brought it again, gone from the root; what the
      new layout consists of is at the root; and nothing else has moved. */
  lemma {:induction false} CompletedMoves(d: Disk, journalsEmpty: bool, to: nat, staged: Dir, after: Disk, n: string)
    requires MigrationLeaves(d, journalsEmpty, to, staged, Done, after) && Admissible(d, journalsEmpty, to)
    ensures after.backup.Some? && CountOf(d.root).Some?
    ensures
      var from := CountOf(d.root).value;
      && (OfLayout(from, n) && n in d.root ==> n in after.backup.value && after.backup.value[n] == d.root[n])
      && (n in after.backup.value ==> OfLayout(from, n))
      && (OfLayout(to, n) && n in staged ==> n in after.root && after.root[n] == staged[n])
      && (OfLayout(from, n) && !(OfLayout(to, n) && n in staged) ==> n !in after.root)
      && (!OfLayout(from, n) && !(OfLayout(to, n) && n in staged) ==>
            (n in after.root <==> n in d.root) && (n in d.root ==> after.root[n] == d.root[n]))
  {
    hide LayoutNames, Names, OfLayout, PinOf, AtLeastOne, Interrupted;
    var from := CountOf(d.root).value;
    LayoutIs(from, n);
    LayoutIs(to, n);
    OpenedIn(d.root);
  }

  /** Opening a profile that has a count creates nothing outside its layout. */
  lemma {:induction false} OpenedIn(root: Dir)
    requires CountOf(root).Some?
    ensures
      var from := CountOf(root).value;
      forall n :: (n in root ==> n in Opened(root, from) && Opened(root, from)[n] == root[n])
        && (n in Opened(root, from) && n !in root ==> n in Names(LayoutNames(from)))
  {
    var from := CountOf(root).value;
    LayoutIs(from, if from > 1 then DOMAINS_DIR else MEMORY_DB_FILE);
  }

  /** Copying the backup over the root gives back every entry of the old layout. */
  lemma {:induction false} BackupRestores(d: Disk, journalsEmpty: bool, to: nat, staged: Dir, end: Ending, after: Disk)
    requires MigrationLeaves(d, journalsEmpty, to, staged, end, after) && Admissible(d, journalsEmpty, to)
    ensures
      var names := Names(LayoutNames(CountOf(d.root).value));
      var restored := if after.backup.Some? then after.root + after.backup.value else after.root;
      forall n :: n in d.root && n in names ==> n in restored && restored[n] == d.root[n]
  {
    hide MigrationLeaves, LayoutNames, PinOf, CountOf, AtLeastOne;
    forall n | n in d.root && n in Names(LayoutNames(CountOf(d.root).value))
      ensures
        var restored := if after.backup.Some? then after.root + after.backup.value else after.root;
        n in restored && restored[n] == d.root[n]
    {
      EntryInOnePlace(d, journalsEmpty, to, staged, end, after, n);
    }
  }

  /** While the sentinel stands nothing opens the profile and nothing migrates it. */
  lemma {:induction false} SentinelFreezes(d: Disk, requested: nat, ok: bool, journalsEmpty: bool, to: nat,
      staged: Dir, end: Ending, after: Disk)
    requires d.sentinel
    requires OpenLeaves(d, requested, ok, after) || MigrationLeaves(d, journalsEmpty, to, staged, end, after)
    ensures after == d
  {
  }

  // ---------------------------------------------------------------------
  // The pinned count over whole runs
  // ---------------------------------------------------------------------

  datatype Act = OpenAs(requested: nat, ok: bool) | MigrateTo(journalsEmpty: bool, to: nat, staged: Dir, end: Ending)

  ghost predicate Takes(d: Disk, act: Act, after: Disk) {
    match act
    case OpenAs(requested, ok) => OpenLeaves(d, requested, ok, after)
    case MigrateTo(journalsEmpty, to, staged, end) => MigrationLeaves(d, journalsEmpty, to, staged, end, after)
  }

  ghost predicate Run(disks: seq<Disk>, acts: seq<Act>) {
    && |disks| == |acts| + 1
    && forall i :: 0 <= i < |acts| ==> Takes(disks[i], acts[i], disks[i + 1])
  }

  /** The migration went all the way to removing its sentinel. */
  ghost predicate Completed(d: Disk, act: Act, after: Disk) {
    act.MigrateTo? && !after.sentinel && after.backup.Some? && d.backup.None?
  }

  lemma {:induction false} CountKept(d: Disk, act: Act, after: Disk, k: nat)
    requires Takes(d, act, after) && !Completed(d, act, after)
    requires CountOf(d.root) == Some(k) || d.sentinel
    ensures CountOf(after.root) == Some(k) || after.sentinel
  {
    hide StillParking, StillPlacing, PinOf;
    OpenedCount(d.root);
  }

  lemma {:induction false} CountKeptAlong(disks: seq<Disk>, acts: seq<Act>, i: nat, j: nat, k: nat)
    requires Run(disks, acts) && i <= j <= |acts|
    requires CountOf(disks[i].root) == Some(k) || disks[i].sentinel
    requires forall m :: i <= m < j ==> !Completed(disks[m], acts[m], disks[m + 1])
    ensures CountOf(disks[j].root) == Some(k) || disks[j].sentinel
    decreases j - i
  {
    hide CountOf, Takes, Completed;
    if i < j {
      CountKeptAlong(disks, acts, i, j - 1, k);
      assert Takes(disks[j - 1], acts[j - 1], disks[j - 1 + 1]);
      assert !Completed(disks[j - 1], acts[j - 1], disks[j - 1 + 1]);
      CountKept(disks[j - 1], acts[j - 1], disks[j], k);
    }
  }

  lemma {:induction false} OpenNeeds(d: Disk, requested: nat, after: Disk)
    requires OpenLeaves(d, requested, true, after)
    ensures !d.sentinel && (CountOf(d.root).None? || CountOf(d.root) == Some(AtLeastOne(requested)))
  {
  }

  /** Two successful opens agree on the domain count unless a migration completed in
      between, whatever was refused or cut short meanwhile. */
  lemma {:induction false} CountPinned(disks: seq<Disk>, acts: seq<Act>, i: nat, j: nat)
    requires Run(disks, acts) && i < j < |acts|
    requires acts[i].OpenAs? && acts[i].ok && acts[j].OpenAs? && acts[j].ok
    requires forall m :: i < m < j ==> !Completed(disks[m], acts[m], disks[m + 1])
    ensures AtLeastOne(acts[i].requested) == AtLeastOne(acts[j].requested)
  {
    hide CountOf, Completed, OpenLeaves;
    assert Takes(disks[i], acts[i], disks[i + 1]);
    assert Takes(disks[j], acts[j], disks[j + 1]);
    OpenKeeps(disks[i], acts[i].requested, true, disks[i + 1]);
    OpenNeeds(disks[j], acts[j].requested, disks[j + 1]);
    CountKeptAlong(disks, acts, i + 1, j, AtLeastOne(acts[i].requested));
  }

  // ---------------------------------------------------------------------
  // A restored profile may refuse to migrate
  // ---------------------------------------------------------------------

  /** A single-store migration that stopped after the new domain folder was in
      place, and was then restored from its backup, still has that folder at the
      root: every further migration to several domains runs into it after it has
      already parked the store files. */
  lemma {:induction false} RestoredFolderCollides(base: Dir, staged: Dir, j: nat, d: Disk, again: Dir, to: nat)
    requires to > 1 && 0 < j <= 2 && d.backup == Some(Only(base, Names(SINGLE_STORE_ENTRIES))) && d.staging.Some?
    requires Placing(base - Names(SINGLE_STORE_ENTRIES), staged, LayoutNames(to), j, d.root, d.staging.value)
    requires DOMAINS_DIR in staged && staged[DOMAINS_DIR].Folder?
    requires DOMAINS_DIR in again && again[DOMAINS_DIR].Folder?
    ensures Collides(d.root + d.backup.value - Names(SINGLE_STORE_ENTRIES), again, to)
  {
    var names := LayoutNames(to);
    assert names[..j][0] in Names(names[..j]);
    assert names[0] in Names(names);
    assert DOMAINS_DIR !in Names(SINGLE_STORE_ENTRIES);
    assert !Renamable(again[DOMAINS_DIR], d.root + d.backup.value - Names(SINGLE_STORE_ENTRIES), DOMAINS_DIR);
  }
}
