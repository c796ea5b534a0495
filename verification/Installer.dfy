/** Swapping staged directories into place, and putting the old ones back when a rename fails. */
module Installer {

  datatype Tree = Tree(content: nat)

  /** `PreviousOf(d)` is the path d + ".previous". */
  datatype Path = Dir(name: nat) | PreviousOf(base: Path)

  datatype Swap = Swap(source: Path, destination: Path)

  type Dirs = map<Path, Tree>

  function Previous(s: Swap): Path { PreviousOf(s.destination) }

  /** Sources, destinations and parking places are different directories, none inside another. */
  predicate Distinct(swaps: seq<Swap>) {
    && (forall i, j | 0 <= i < j < |swaps| ::
          swaps[i].source != swaps[j].source && swaps[i].destination != swaps[j].destination)
    && (forall i, j | 0 <= i < |swaps| && 0 <= j < |swaps| ::
          swaps[i].source != swaps[j].destination && swaps[i].source != Previous(swaps[j])
          && swaps[i].destination != Previous(swaps[j]))
  }

  /** The directories on disk. Any operation may fail on top of the reasons modelled here, and
      `faults` counts how often one did. */
  class Disk {
    var dirs: Dirs
    var faults: nat

    constructor (dirs: Dirs)
      ensures this.dirs == dirs && faults == 0
    {
      this.dirs, faults := dirs, 0;
    }

    /** Removing nothing succeeds; a failed removal may leave anything behind at that path. */
    method RemoveAll(p: Path) returns (ok: bool)
      modifies this
      ensures ok ==> dirs == old(dirs) - {p} && faults == old(faults)
      ensures !ok ==> faults == old(faults) + 1
      ensures !ok ==> forall q | q != p :: (q in dirs <==> q in old(dirs)) && (q in dirs ==> dirs[q] == old(dirs)[q])
    {
      ok := *;
      if ok {
        dirs := dirs - {p};
      } else {
        var rest: Tree := *;
        var left: bool := *;
        dirs := if left then dirs[p := rest] else dirs - {p};
        faults := faults + 1;
      }
    }

    /** A directory is never renamed onto another, nor from nowhere. */
    method Rename(from: Path, to: Path) returns (ok: bool)
      requires from != to
      modifies this
      ensures ok ==> from in old(dirs) && to !in old(dirs) && dirs == (old(dirs) - {from})[to := old(dirs)[from]]
      ensures !ok ==> dirs == old(dirs)
      ensures faults == old(faults) + if !ok && from in dirs && to !in dirs then 1 else 0
    {
      ok := *;
      if from !in dirs || to in dirs {
        ok := false;
      } else if ok {
        dirs := (dirs - {from})[to := dirs[from]];
      } else {
        faults := faults + 1;
      }
    }

    /** The program takes every error of stat, not only absence, for a missing directory. */
    method Exists(p: Path) returns (found: bool)
      modifies this`faults
      ensures found ==> p in dirs
      ensures faults == old(faults) + if !found && p in dirs then 1 else 0
    {
      found := *;
      if p !in dirs {
        found := false;
      } else if !found {
        faults := faults + 1;
      }
    }
  }

  /** In d, p holds what q held in o: the same tree, or nothing. */
  predicate Same(d: Dirs, p: Path, o: Dirs, q: Path) {
    (p in d <==> q in o) && (p in d ==> d[p] == o[q])
  }

  /** The destination's old content is parked, or still in place with nothing parked. */
  predicate Parked(d: Dirs, o: Dirs, s: Swap) {
    || (s.destination !in d && Same(d, Previous(s), o, s.destination))
    || (Same(d, s.destination, o, s.destination) && Previous(s) !in d)
  }

  /** The destination is as it was and nothing is parked. */
  predicate Restored(d: Dirs, o: Dirs, s: Swap) {
    Same(d, s.destination, o, s.destination) && Previous(s) !in d
  }

  predicate Untouched(d: Dirs, o: Dirs, p: Path) { Same(d, p, o, p) }

  /** p belongs to none of the swaps. */
  predicate Foreign(p: Path, swaps: seq<Swap>) {
    forall i | 0 <= i < |swaps| :: p != swaps[i].source && p != swaps[i].destination && p != Previous(swaps[i])
  }

  ghost predicate ForeignKept(d: Dirs, o: Dirs, swaps: seq<Swap>) {
    forall p | Foreign(p, swaps) :: Untouched(d, o, p)
  }

  /** Where ReplaceDirs returned: nil, or after the removal or the rename that failed. */
  datatype Outcome =
    | Done
    | PrepareRemovalFailed(at: nat)   // no rollback is attempted
    | RenameFailed(faults: nat)       // rolled back, from this count of faults on
    | CleanupRemovalFailed(at: nat)

  /** p is neither a destination nor a parking place. */
  predicate Outside(p: Path, swaps: seq<Swap>) {
    forall j | 0 <= j < |swaps| :: p != swaps[j].destination && p != Previous(swaps[j])
  }

  ghost predicate KeptOutside(d: Dirs, o: Dirs, swaps: seq<Swap>) {
    forall p | Outside(p, swaps) :: Untouched(d, o, p)
  }

  /** Undoing swap i leaves every other swap, and everything outside, as it was. */
  lemma UnwindKeeps(d: Dirs, e: Dirs, f: Dirs, prepared: seq<Swap>, i: nat)
    requires Distinct(prepared) && i < |prepared| && OnlyAt(e, f, prepared[i]) && KeptOutside(e, d, prepared)
    ensures KeptOutside(f, d, prepared)
    ensures forall j | 0 <= j < |prepared| && j != i ::
              Untouched(f, e, prepared[j].destination) && Untouched(f, e, Previous(prepared[j]))
  {
    forall p | Outside(p, prepared) ensures Untouched(f, d, p) {
      assert p != prepared[i].destination && p != Previous(prepared[i]);
      assert Untouched(f, e, p) && Untouched(e, d, p);
    }
  }

  /** rollbackDirs: unless one of its own operations fails, every prepared destination is as it was. */
  method RollbackDirs(disk: Disk, prepared: seq<Swap>, applied: seq<Swap>, ghost o: Dirs)
    requires Distinct(prepared) && |applied| <= |prepared| && applied == prepared[..|applied|]
    requires forall j | 0 <= j < |applied| :: Same(disk.dirs, Previous(prepared[j]), o, prepared[j].destination)
    requires forall j | |applied| <= j < |prepared| :: Parked(disk.dirs, o, prepared[j])
    modifies disk
    ensures disk.faults >= old(disk.faults)
    ensures disk.faults == old(disk.faults) ==> AllRestored(disk.dirs, o, prepared)
    ensures KeptOutside(disk.dirs, old(disk.dirs), prepared)
  {
    ghost var faults := disk.faults;
    ghost var d := disk.dirs;
    var i := |applied|;
    while i > 0
      invariant 0 <= i <= |applied|
      invariant disk.faults >= faults
      invariant disk.faults == faults ==> forall j | i <= j < |prepared| :: Parked(disk.dirs, o, prepared[j])
      invariant forall j | 0 <= j < i :: Same(disk.dirs, Previous(prepared[j]), o, prepared[j].destination)
      invariant KeptOutside(disk.dirs, d, prepared)
    {
      i := i - 1;
      assert applied[i] == prepared[i];
      ghost var e := disk.dirs;
      var _ := disk.RemoveAll(applied[i].destination);
      UnwindKeeps(d, e, disk.dirs, prepared, i);
    }
    i := |prepared|;
    while i > 0
      invariant 0 <= i <= |prepared|
      invariant disk.faults >= faults
      invariant disk.faults == faults ==> forall j | 0 <= j < i :: Parked(disk.dirs, o, prepared[j])
      invariant disk.faults == faults ==> forall j | i <= j < |prepared| :: Restored(disk.dirs, o, prepared[j])
      invariant KeptOutside(disk.dirs, d, prepared)
    {
      i := i - 1;
      ghost var e := disk.dirs;
      var previous := Previous(prepared[i]);
      var found := disk.Exists(previous);
      if found { var _ := disk.Rename(previous, prepared[i].destination); }
      UnwindKeeps(d, e, disk.dirs, prepared, i);
    }
  }

  /** The first i destinations are parked, the rest are as they were, and so is every source. */
  ghost predicate ParkedUpTo(d: Dirs, o: Dirs, swaps: seq<Swap>, i: nat) {
    && ForeignKept(d, o, swaps)
    && (forall j | 0 <= j < i && j < |swaps| :: Parked(d, o, swaps[j]))
    && (forall j | i <= j < |swaps| :: Untouched(d, o, swaps[j].destination))
    && (forall j | 0 <= j < |swaps| :: Untouched(d, o, swaps[j].source))
  }

  /** The source tree is at the destination and nowhere else. */
  predicate Swapped(d: Dirs, o: Dirs, s: Swap) {
    s.source in o && s.source !in d && Same(d, s.destination, o, s.source)
  }

  ghost predicate SwappedAll(d: Dirs, o: Dirs, swaps: seq<Swap>) {
    ForeignKept(d, o, swaps) && forall j | 0 <= j < |swaps| :: Swapped(d, o, swaps[j])
  }

  /** Every destination is as it was before the call. */
  ghost predicate AllAsBefore(d: Dirs, o: Dirs, swaps: seq<Swap>) {
    forall j | 0 <= j < |swaps| :: Untouched(d, o, swaps[j].destination)
  }

  /** d and e agree everywhere but at the destination and the parking place of s. */
  ghost predicate OnlyAt(d: Dirs, e: Dirs, s: Swap) {
    forall p | p != s.destination && p != Previous(s) :: Untouched(e, d, p)
  }

  lemma ParkingKeeps(d: Dirs, e: Dirs, o: Dirs, swaps: seq<Swap>, i: nat)
    requires Distinct(swaps) && i < |swaps| && ParkedUpTo(d, o, swaps, i) && OnlyAt(d, e, swaps[i])
    ensures Untouched(e, d, swaps[i].destination) ==> ParkedUpTo(e, o, swaps, i)
    ensures Parked(e, d, swaps[i]) ==> ParkedUpTo(e, o, swaps, i + 1)
  {
    forall j | 0 <= j < i ensures Parked(e, o, swaps[j]) {
      assert Untouched(e, d, swaps[j].destination) && Untouched(e, d, Previous(swaps[j]));
    }
    forall j | i < j < |swaps| ensures Untouched(e, o, swaps[j].destination) {
      assert Untouched(e, d, swaps[j].destination);
    }
    forall j | 0 <= j < |swaps| ensures Untouched(e, o, swaps[j].source) {
      assert Untouched(e, d, swaps[j].source);
    }
    forall p | Foreign(p, swaps) ensures Untouched(e, o, p) {
      assert Untouched(e, d, p);
    }
  }

  predicate AllRestored(d: Dirs, o: Dirs, swaps: seq<Swap>) {
    forall j | 0 <= j < |swaps| :: Restored(d, o, swaps[j])
  }

  /** What a rollback of the first prepared swaps leaves for all of them. */
  lemma RollbackKeeps(d: Dirs, e: Dirs, o: Dirs, swaps: seq<Swap>, prepared: seq<Swap>)
    requires Distinct(swaps) && |prepared| <= |swaps| && prepared == swaps[..|prepared|] && KeptOutside(e, d, prepared)
    ensures ForeignKept(d, o, swaps) ==> ForeignKept(e, o, swaps)
    ensures ParkedUpTo(d, o, swaps, |prepared|) && AllRestored(e, o, prepared) ==> AllAsBefore(e, o, swaps)
  {
    forall p | Foreign(p, swaps) ensures Untouched(e, d, p) { assert Outside(p, prepared); }
    if ForeignKept(d, o, swaps) {
      forall p | Foreign(p, swaps) ensures Untouched(e, o, p) { assert Untouched(e, d, p) && Untouched(d, o, p); }
    }
    forall j | |prepared| <= j < |swaps| ensures Untouched(e, d, swaps[j].destination) {
      assert Outside(swaps[j].destination, prepared);
    }
    assert forall j | 0 <= j < |prepared| :: prepared[j] == swaps[j];
  }

  /** One turn of the first loop: clear the parking place and park what is at the destination. */
  method Park(disk: Disk, s: Swap) returns (removed: bool, parked: bool)
    requires s.destination != Previous(s)
    modifies disk
    ensures OnlyAt(old(disk.dirs), disk.dirs, s) && disk.faults >= old(disk.faults)
    ensures removed && parked ==> Parked(disk.dirs, old(disk.dirs), s)
    ensures !removed || !parked ==>
              Untouched(disk.dirs, old(disk.dirs), s.destination) && disk.faults > old(disk.faults)
    ensures removed && !parked ==> Previous(s) !in disk.dirs
    ensures disk.faults == old(disk.faults) ==> s.destination !in disk.dirs
  {
    parked := false;
    removed := disk.RemoveAll(Previous(s));
    if !removed { return; }
    parked := true;
    var found := disk.Exists(s.destination);
    if found { parked := disk.Rename(s.destination, Previous(s)); }
  }

  /** The first loop of replaceDirs. */
  method Prepare(disk: Disk, swaps: seq<Swap>) returns (outcome: Outcome)
    requires Distinct(swaps)
    modifies disk
    ensures disk.faults >= old(disk.faults)
    ensures ForeignKept(disk.dirs, old(disk.dirs), swaps)
    ensures outcome == Done ==> ParkedUpTo(disk.dirs, old(disk.dirs), swaps, |swaps|)
    ensures outcome == Done && disk.faults == old(disk.faults) ==>
              forall j | 0 <= j < |swaps| :: swaps[j].destination !in disk.dirs
    ensures outcome.PrepareRemovalFailed? ==>
              outcome.at < |swaps| && ParkedUpTo(disk.dirs, old(disk.dirs), swaps, outcome.at)
    ensures outcome.PrepareRemovalFailed? && disk.faults == old(disk.faults) + 1 ==>
              forall j | 0 <= j < outcome.at :: swaps[j].destination !in disk.dirs
    ensures outcome.RenameFailed? && disk.faults == outcome.faults ==> AllAsBefore(disk.dirs, old(disk.dirs), swaps)
    ensures outcome != Done ==> disk.faults > old(disk.faults)
    ensures !outcome.CleanupRemovalFailed?
  {
    ghost var o := disk.dirs;
    ghost var faults := disk.faults;
    var prepared: seq<Swap> := [];
    for i := 0 to |swaps|
      invariant prepared == swaps[..i]
      invariant disk.faults >= faults
      invariant ParkedUpTo(disk.dirs, o, swaps, i)
      invariant disk.faults == faults ==> forall j | 0 <= j < i :: swaps[j].destination !in disk.dirs
    {
      ghost var d := disk.dirs;
      var removed, parked := Park(disk, swaps[i]);
      ParkingKeeps(d, disk.dirs, o, swaps, i);
      assert forall j | 0 <= j < i :: Untouched(disk.dirs, d, swaps[j].destination);
      if !removed { return PrepareRemovalFailed(i); }
      if !parked {
        outcome := RenameFailed(disk.faults);
        d := disk.dirs;
        RollbackDirs(disk, prepared, [], o);
        RollbackKeeps(d, disk.dirs, o, swaps, prepared);
        return;
      }
      prepared := prepared + [swaps[i]];
    }
    return Done;
  }

  predicate AllReady(d: Dirs, o: Dirs, swaps: seq<Swap>) {
    forall j | 0 <= j < |swaps| :: swaps[j].destination !in d && swaps[j].source in o
  }

  /** The first i sources are in place, with what they replaced parked; the rest wait as after the first
      loop, whose result was d. */
  ghost predicate SwappedUpTo(e: Dirs, d: Dirs, o: Dirs, swaps: seq<Swap>, i: nat) {
    && ForeignKept(e, o, swaps)
    && (forall j | 0 <= j < i && j < |swaps| ::
          Swapped(e, o, swaps[j]) && Same(e, Previous(swaps[j]), o, swaps[j].destination))
    && (forall j | i <= j < |swaps| ::
          Parked(e, o, swaps[j]) && Untouched(e, o, swaps[j].source) && Untouched(e, d, swaps[j].destination))
  }

  lemma SwapKeeps(e: Dirs, f: Dirs, d: Dirs, o: Dirs, swaps: seq<Swap>, i: nat)
    requires Distinct(swaps) && i < |swaps| && SwappedUpTo(e, d, o, swaps, i)
    requires swaps[i].source in e && swaps[i].destination !in e
    requires f == (e - {swaps[i].source})[swaps[i].destination := e[swaps[i].source]]
    ensures SwappedUpTo(f, d, o, swaps, i + 1)
  {
    forall p | p != swaps[i].source && p != swaps[i].destination ensures Untouched(f, e, p) { }
    forall j | 0 <= j < |swaps| && j != i
      ensures Untouched(f, e, swaps[j].source) && Untouched(f, e, swaps[j].destination)
      ensures Untouched(f, e, Previous(swaps[j]))
    {
    }
    assert Untouched(f, e, Previous(swaps[i]));
  }

  /** Its second loop: rename each source into place. */
  method SwapIn(disk: Disk, swaps: seq<Swap>, ghost o: Dirs) returns (outcome: Outcome)
    requires Distinct(swaps) && ParkedUpTo(disk.dirs, o, swaps, |swaps|)
    modifies disk
    ensures disk.faults >= old(disk.faults)
    ensures ForeignKept(disk.dirs, o, swaps)
    ensures outcome == Done ==> SwappedAll(disk.dirs, o, swaps)
    ensures outcome.RenameFailed? && disk.faults == outcome.faults ==> AllAsBefore(disk.dirs, o, swaps)
    ensures disk.faults == old(disk.faults) && AllReady(old(disk.dirs), o, swaps) ==> outcome == Done
    ensures outcome == Done || outcome.RenameFailed?
  {
    ghost var d := disk.dirs;
    var applied: seq<Swap> := [];
    for i := 0 to |swaps|
      invariant applied == swaps[..i]
      invariant disk.faults >= old(disk.faults)
      invariant SwappedUpTo(disk.dirs, d, o, swaps, i)
    {
      ghost var e := disk.dirs;
      var ok := disk.Rename(swaps[i].source, swaps[i].destination);
      if !ok {
        outcome := RenameFailed(disk.faults);
        RollbackDirs(disk, swaps, applied, o);
        RollbackKeeps(e, disk.dirs, o, swaps, swaps);
        return;
      }
      SwapKeeps(e, disk.dirs, d, o, swaps, i);
      applied := applied + [swaps[i]];
    }
    return Done;
  }

  /** Its third loop: remove what was parked. */
  method Cleanup(disk: Disk, swaps: seq<Swap>, ghost o: Dirs) returns (outcome: Outcome)
    requires Distinct(swaps) && SwappedAll(disk.dirs, o, swaps)
    modifies disk
    ensures disk.faults >= old(disk.faults)
    ensures SwappedAll(disk.dirs, o, swaps)
    ensures outcome == Done ==> forall j | 0 <= j < |swaps| :: Previous(swaps[j]) !in disk.dirs
    ensures disk.faults == old(disk.faults) ==> outcome == Done
    ensures outcome == Done || outcome.CleanupRemovalFailed?
  {
    for i := 0 to |swaps|
      invariant disk.faults == old(disk.faults)
      invariant SwappedAll(disk.dirs, o, swaps)
      invariant forall j | 0 <= j < i :: Previous(swaps[j]) !in disk.dirs
    {
      var ok := disk.RemoveAll(Previous(swaps[i]));
      assert SwappedAll(disk.dirs, o, swaps);
      if !ok { return CleanupRemovalFailed(i); }
    }
    return Done;
  }

  lemma Stranded(d: Dirs, o: Dirs, swaps: seq<Swap>, at: nat)
    requires at <= |swaps| && ParkedUpTo(d, o, swaps, at) && forall j | 0 <= j < at :: swaps[j].destination !in d
    ensures AllAsBefore(d, o, swaps) <==> forall j | 0 <= j < at :: swaps[j].destination !in o
  {
    forall j | 0 <= j < |swaps| && at <= j ensures Untouched(d, o, swaps[j].destination) { }
  }

  /** Such a failure does strand a destination: the first of two was parked when the second's parking
      place could not be cleared. */
  lemma FirstStranded()
    ensures exists d, o, swaps: seq<Swap> ::
              Distinct(swaps) && |swaps| == 2 && swaps[0].destination in o && swaps[0].destination !in d
              && ParkedUpTo(d, o, swaps, 1) && !AllAsBefore(d, o, swaps)
  {
    var swaps := [Swap(Dir(0), Dir(1)), Swap(Dir(2), Dir(3))];
    var o: Dirs := map[Dir(1) := Tree(7)];
    var d: Dirs := map[PreviousOf(Dir(1)) := Tree(7)];
    assert Distinct(swaps);
    forall p | Foreign(p, swaps) ensures Untouched(d, o, p) {
      assert p != swaps[0].destination && p != Previous(swaps[0]);
    }
    assert Parked(d, o, swaps[0]);
    assert ParkedUpTo(d, o, swaps, 1);
    assert !Untouched(d, o, swaps[0].destination);
  }

  /** replaceDirs. On success every destination holds its source's tree, which is nowhere else, and
      nothing is parked. When a rename fails, and the rollback meets no fault of its own, every
      destination is as it was. A removal that fails early is not rolled back: if it is the only fault,
      the destinations are as they were exactly when none of those before it existed. A removal that
      fails late leaves every new tree in place. Without faults, and with every source there, the call
      succeeds. */
  method ReplaceDirs(disk: Disk, swaps: seq<Swap>) returns (outcome: Outcome)
    requires Distinct(swaps)
    modifies disk
    ensures ForeignKept(disk.dirs, old(disk.dirs), swaps)
    ensures outcome == Done ==>
              SwappedAll(disk.dirs, old(disk.dirs), swaps)
              && forall j | 0 <= j < |swaps| :: Previous(swaps[j]) !in disk.dirs
    ensures outcome.RenameFailed? && disk.faults == outcome.faults ==> AllAsBefore(disk.dirs, old(disk.dirs), swaps)
    ensures outcome.PrepareRemovalFailed? ==>
              outcome.at < |swaps| && ParkedUpTo(disk.dirs, old(disk.dirs), swaps, outcome.at)
    ensures outcome.PrepareRemovalFailed? && disk.faults == old(disk.faults) + 1 ==>
              (AllAsBefore(disk.dirs, old(disk.dirs), swaps)
               <==> forall j | 0 <= j < outcome.at :: swaps[j].destination !in old(disk.dirs))
    ensures outcome.CleanupRemovalFailed? ==> SwappedAll(disk.dirs, old(disk.dirs), swaps)
    ensures disk.faults >= old(disk.faults)
    ensures disk.faults == old(disk.faults) && (forall j | 0 <= j < |swaps| :: swaps[j].source in old(disk.dirs)) ==>
              outcome == Done
  {
    ghost var o := disk.dirs;
    outcome := Prepare(disk, swaps);
    if outcome.PrepareRemovalFailed? && disk.faults == old(disk.faults) + 1 {
      Stranded(disk.dirs, o, swaps, outcome.at);
    }
    if outcome != Done { return; }
    outcome := SwapIn(disk, swaps, o);
    if outcome != Done { return; }
    outcome := Cleanup(disk, swaps, o);
  }
}
