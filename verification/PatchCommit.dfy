/** Writing a parsed patch to many files, all or nothing
    (`WorkspacePatchTool.execute` in src/leanharness/tools/controlled.py). The file
    system is a map, and every operation on it may fail as the world decides. */
module PatchCommit {
  import opened Text
  import opened Messages
  import opened PatchApplying
  import opened PatchParsing
  import opened PatchReader

  const MAX_PATCH_BYTES := 256 * 1024
  const MAX_FILE_BYTES := 2 * 1024 * 1024
  const MAX_PATCH_RESULT_BYTES := 8 * 1024 * 1024

  /** One target of a patch: what it held and what it is to hold. */
  datatype Change = Change(path: string, before: Option<string>, after: Option<string>)

  /** How a rollback write goes; a failed one may leave anything behind. */
  datatype Restore = Restored | Damaged(left: Option<string>)

  datatype Faults = Faults(
    create: nat -> bool,
    write: nat -> bool,
    install: nat -> bool,
    restore: nat -> Restore,
    cleanup: nat -> bool)

  datatype CommitOutcome = Committed | RolledBack | CleanupFailed

  function Lookup(files: map<string, string>, path: string): Option<string> {
    if path in files then Some(files[path]) else None
  }

  function Put(files: map<string, string>, path: string, text: Option<string>): (out: map<string, string>)
    ensures forall p :: Lookup(out, p) == if p == path then text else Lookup(files, p)
  {
    if text.Some? then files[path := text.value] else files - {path}
  }

  /** The first `n` changes made, in order. */
  function Installed(files: map<string, string>, changes: seq<Change>, n: nat): map<string, string>
    requires n <= |changes|
  {
    if n == 0 then files else Put(Installed(files, changes, n - 1), changes[n - 1].path, changes[n - 1].after)
  }

  predicate DistinctTargets(changes: seq<Change>) {
    forall i, j | 0 <= i < j < |changes| :: changes[i].path != changes[j].path
  }

  /** The changes start from what the files hold. */
  predicate Current(files: map<string, string>, changes: seq<Change>) {
    forall k | 0 <= k < |changes| :: changes[k].before == Lookup(files, changes[k].path)
  }

  lemma {:induction false} InstalledLookup(files: map<string, string>, changes: seq<Change>, n: nat, p: string)
    requires n <= |changes| && DistinctTargets(changes)
    ensures (forall k | 0 <= k < n :: changes[k].path != p)
            ==> Lookup(Installed(files, changes, n), p) == Lookup(files, p)
    ensures forall k | 0 <= k < n && changes[k].path == p :: Lookup(Installed(files, changes, n), p) == changes[k].after
  {
    if n > 0 {
      InstalledLookup(files, changes, n - 1, p);
    }
  }

  /** Two maps that hold the same at every path are the same. */
  lemma SameFiles(a: map<string, string>, b: map<string, string>)
    requires forall p :: Lookup(a, p) == Lookup(b, p)
    ensures a == b
  {
    forall p ensures p in a <==> p in b {
      assert Lookup(a, p) == Lookup(b, p);
    }
    assert a.Keys == b.Keys;
    forall p | p in a ensures a[p] == b[p] {
      assert Lookup(a, p) == Lookup(b, p);
    }
  }

  // ---- staging ----

  /** Every new content can be written to a temporary file. */
  predicate CanStage(changes: seq<Change>, faults: Faults) {
    forall k | 0 <= k < |changes| && changes[k].after.Some? :: !faults.create(k) && !faults.write(k)
  }

  /** The temporary files staging makes: one for each kept target up to the first
      that fails, which leaves one too unless it cannot even be created. */
  function MadeTemps(changes: seq<Change>, faults: Faults): nat {
    if changes == [] then 0
    else
      var n := |changes| - 1;
      var older := MadeTemps(changes[..n], faults);
      if CanStage(changes[..n], faults) && changes[n].after.Some? && !faults.create(n) then older + 1 else older
  }

  lemma {:induction false} MadeStays(changes: seq<Change>, k: nat, faults: Faults)
    requires k <= |changes| && !CanStage(changes[..k], faults)
    ensures MadeTemps(changes, faults) == MadeTemps(changes[..k], faults) && !CanStage(changes, faults)
  {
    hide CanStage;
    if k == |changes| {
      assert changes[..k] == changes;
    } else {
      var older := changes[..|changes| - 1];
      assert older[..k] == changes[..k];
      MadeStays(older, k, faults);
      CanStagePrefix(changes, |changes| - 1, faults);
    }
  }

  lemma CanStagePrefix(changes: seq<Change>, k: nat, faults: Faults)
    requires k <= |changes|
    ensures CanStage(changes, faults) ==> CanStage(changes[..k], faults)
  {
  }

  lemma {:induction false} MadeNext(changes: seq<Change>, k: nat, faults: Faults)
    requires k < |changes|
    ensures MadeTemps(changes[..k + 1], faults)
            == MadeTemps(changes[..k], faults)
               + if CanStage(changes[..k], faults) && changes[k].after.Some? && !faults.create(k) then 1 else 0
  {
    hide CanStage;
    assert changes[..k + 1][..k] == changes[..k];
  }

  /** Each of the first `n` temporary files can be removed. */
  predicate CanClean(n: nat, faults: Faults) {
    forall k | 0 <= k < n :: !faults.cleanup(k)
  }

  /** Exactly these temporary files were added; the others are as before. */
  ghost predicate Adds(before: map<nat, string>, after: map<nat, string>, created: seq<nat>) {
    && (forall t :: t in after <==> t in before || t in created)
    && (forall t | t in created :: t !in before)
    && forall t | t in before :: after[t] == before[t]
  }

  function Names(staged: seq<Option<nat>>): seq<nat> {
    if staged == [] then []
    else
      var last := staged[|staged| - 1];
      Names(staged[..|staged| - 1]) + if last.Some? then [last.value] else []
  }

  /** The temporary file of each target that is kept holds its new content, and
      no two targets share one. */
  ghost predicate Staged(temps: map<nat, string>, changes: seq<Change>, staged: seq<Option<nat>>, first: nat) {
    && |staged| == |changes|
    && (forall k | 0 <= k < |staged| :: staged[k].Some? <==> changes[k].after.Some?)
    && (forall k | 0 <= k < |staged| && staged[k].Some? ::
          first <= staged[k].value && staged[k].value in temps && temps[staged[k].value] == changes[k].after.value)
    && forall i, j | 0 <= i < j < |staged| && staged[i].Some? && staged[j].Some? :: staged[i].value != staged[j].value
  }

  lemma AddsOne(before: map<nat, string>, middle: map<nat, string>, after: map<nat, string>, created: seq<nat>,
      temp: nat)
    requires Adds(before, middle, created) && temp !in middle
    requires after.Keys == middle.Keys + {temp} && forall t | t in middle :: after[t] == middle[t]
    ensures Adds(before, after, created + [temp])
  {
    forall t ensures t in after <==> t in before || t in created + [temp] {
      assert t in after <==> t in after.Keys;
      assert t in middle <==> t in middle.Keys;
    }
  }

  lemma {:induction false} StagedOne(
    before: map<nat, string>, after: map<nat, string>, changes: seq<Change>, change: Change, staged: seq<Option<nat>>,
    first: nat, temp: nat)
    requires Staged(before, changes, staged, first) && change.after.Some? && first <= temp && temp !in before
    requires after.Keys == before.Keys + {temp} && (forall t | t in before :: after[t] == before[t])
             && after[temp] == change.after.value
    ensures Staged(after, changes + [change], staged + [Some(temp)], first)
    ensures Names(staged + [Some(temp)]) == Names(staged) + [temp]
  {
    assert (staged + [Some(temp)])[..|staged|] == staged;
    forall t | t in before ensures t in after {
      assert t in before.Keys;
    }
  }

  lemma {:induction false} StagedNone(temps: map<nat, string>, changes: seq<Change>, change: Change,
      staged: seq<Option<nat>>, first: nat)
    requires Staged(temps, changes, staged, first) && change.after.None?
    ensures Staged(temps, changes + [change], staged + [None], first)
    ensures Names(staged + [None]) == Names(staged)
  {
    assert (staged + [None])[..|staged|] == staged;
  }

  lemma {:induction false} NothingStaged(temps: map<nat, string>, changes: seq<Change>, first: nat, faults: Faults)
    ensures Adds(temps, temps, []) && Staged(temps, changes[..0], [], first) && Names([]) == []
            && CanStage(changes[..0], faults) && MadeTemps(changes[..0], faults) == 0
  {
  }

  lemma CanStageNext(changes: seq<Change>, k: nat, faults: Faults)
    requires k < |changes|
    ensures CanStage(changes[..k + 1], faults) <==>
              CanStage(changes[..k], faults) && (changes[k].after.Some? ==> !faults.create(k) && !faults.write(k))
    ensures CanStage(changes, faults) ==> CanStage(changes[..k + 1], faults)
  {
    forall l | 0 <= l < k ensures changes[..k + 1][l] == changes[..k][l] == changes[l] {}
    assert changes[..k + 1][k] == changes[k];
  }

  // ---- installing ----

  /** Every target can be replaced, or removed if it is there. */
  predicate CanInstall(changes: seq<Change>, faults: Faults) {
    forall k | 0 <= k < |changes| :: !faults.install(k) && (changes[k].after.None? ==> changes[k].before.Some?)
  }

  ghost predicate Drops(before: map<nat, string>, after: map<nat, string>, gone: seq<nat>) {
    && (forall t :: t in after <==> t in before && t !in gone)
    && forall t | t in after :: after[t] == before[t]
  }

  ghost predicate Fewer(before: map<nat, string>, after: map<nat, string>) {
    forall t | t in after :: t in before && after[t] == before[t]
  }

  /** The temporary files of the targets still to be replaced. */
  ghost predicate Remaining(temps: map<nat, string>, changes: seq<Change>, staged: seq<Option<nat>>, n: nat) {
    && |staged| == |changes|
    && forall k | n <= k < |changes| && changes[k].after.Some? ::
         staged[k].Some? && staged[k].value in temps && temps[staged[k].value] == changes[k].after.value
  }

  lemma {:induction false} NothingInstalled(
    files: map<string, string>, temps: map<nat, string>, changes: seq<Change>, staged: seq<Option<nat>>, faults: Faults)
    ensures Installed(files, changes, 0) == files && CanInstall(changes[..0], faults)
    ensures Drops(temps, temps, Names(staged[..0])) && Fewer(temps, temps)
    ensures (exists first :: Staged(temps, changes, staged, first)) ==> Remaining(temps, changes, staged, 0)
  {
  }

  lemma CanInstallNext(changes: seq<Change>, k: nat, faults: Faults)
    requires k < |changes|
    ensures CanInstall(changes[..k + 1], faults) <==>
              CanInstall(changes[..k], faults) && !faults.install(k)
                && (changes[k].after.None? ==> changes[k].before.Some?)
    ensures CanInstall(changes, faults) ==> CanInstall(changes[..k + 1], faults)
  {
    forall l | 0 <= l < k ensures changes[..k + 1][l] == changes[..k][l] == changes[l] {}
    assert changes[..k + 1][k] == changes[k];
  }

  lemma InstalledNext(files: map<string, string>, changes: seq<Change>, k: nat)
    requires k < |changes|
    ensures Installed(files, changes, k + 1) == Put(Installed(files, changes, k), changes[k].path, changes[k].after)
  {
  }

  lemma StagedAt(temps: map<nat, string>, changes: seq<Change>, staged: seq<Option<nat>>, k: nat, first: nat)
    requires Staged(temps, changes, staged, first) && k < |changes|
    ensures |staged| == |changes| && (staged[k].Some? <==> changes[k].after.Some?)
    ensures staged[k].Some? ==> forall l | k < l < |staged| && staged[l].Some? :: staged[l].value != staged[k].value
  {
  }

  lemma DropsNext(
    start: map<nat, string>, before: map<nat, string>, after: map<nat, string>, changes: seq<Change>,
    staged: seq<Option<nat>>, k: nat)
    requires k < |changes| && Remaining(before, changes, staged, k) && Drops(start, before, Names(staged[..k]))
             && Fewer(start, before)
    requires staged[k].Some? <==> changes[k].after.Some?
    requires after == if staged[k].Some? then before - {staged[k].value} else before
    requires staged[k].Some? ==> forall l | k < l < |staged| && staged[l].Some? :: staged[l].value != staged[k].value
    ensures Remaining(after, changes, staged, k + 1) && Drops(start, after, Names(staged[..k + 1]))
            && Fewer(start, after)
  {
    assert staged[..k + 1][..k] == staged[..k];
  }

  lemma {:induction false} NamesPrefix(staged: seq<Option<nat>>, k: nat)
    requires k <= |staged|
    ensures forall t | t in Names(staged[..k]) :: t in Names(staged)
  {
    if k == |staged| {
      assert staged[..k] == staged;
    } else {
      NamesPrefix(staged[..|staged| - 1], k);
      assert staged[..|staged| - 1][..k] == staged[..k];
    }
  }

  lemma {:induction false} DropsSome(start: map<nat, string>, temps: map<nat, string>, staged: seq<Option<nat>>, k: nat)
    requires k <= |staged| && Drops(start, temps, Names(staged[..k]))
    ensures forall t | t in start :: t in temps || t in Names(staged)
  {
    NamesPrefix(staged, k);
  }

  lemma {:induction false} NothingPut(files: map<string, string>, changes: seq<Change>)
    ensures Installed(files, changes, 0) == files
  {
  }

  lemma FewerNothing(temps: map<nat, string>)
    ensures Fewer(temps, temps)
  {
  }

  lemma AllMoved(start: map<nat, string>, staged: map<nat, string>, after: map<nat, string>, created: seq<nat>)
    requires Adds(start, staged, created) && Drops(staged, after, created)
    ensures after == start
  {
    assert forall t :: t in after <==> t in start;
    assert after.Keys == start.Keys;
  }

  lemma AllRemoved(
    start: map<nat, string>, staged: map<nat, string>, left: map<nat, string>, after: map<nat, string>,
    created: seq<nat>)
    requires Adds(start, staged, created) && Fewer(staged, left) && Fewer(left, after)
    requires forall t :: t in after <==> t in left && t !in created
    requires forall t | t in staged :: t in left || t in created
    ensures after == start
  {
    assert forall t :: t in after <==> t in start;
    assert after.Keys == start.Keys;
  }

  /** A target whose rollback write failed, and what that left there. */
  ghost predicate DamagedAt(changes: seq<Change>, faults: Faults, path: string, left: Option<string>) {
    exists k :: 0 <= k < |changes| && changes[k].path == path && faults.restore(k) == Damaged(left)
  }

  lemma RolledBackAll(
    start: map<string, string>, middle: map<string, string>, after: map<string, string>, changes: seq<Change>,
    applied: nat, faults: Faults)
    requires applied <= |changes| && DistinctTargets(changes) && Current(start, changes)
    requires middle == Installed(start, changes, if applied == 0 then 0 else applied - 1)
    requires forall p :: (forall k | 0 <= k < applied :: changes[k].path != p) ==> Lookup(after, p) == Lookup(middle, p)
    requires forall k | 0 <= k < applied ::
               Lookup(after, changes[k].path) == match faults.restore(k) case Restored => changes[k].before
                 case Damaged(left) => left
    ensures forall p :: Lookup(after, p) == Lookup(start, p) || DamagedAt(changes, faults, p, Lookup(after, p))
  {
    forall p ensures Lookup(after, p) == Lookup(start, p) || DamagedAt(changes, faults, p, Lookup(after, p)) {
      if k :| 0 <= k < applied && changes[k].path == p {
        assert faults.restore(k).Restored? || faults.restore(k) == Damaged(Lookup(after, p));
      } else {
        InstalledLookup(start, changes, if applied == 0 then 0 else applied - 1, p);
      }
    }
  }

  lemma AllRestored(start: map<string, string>, after: map<string, string>, changes: seq<Change>, faults: Faults)
    requires forall p :: Lookup(after, p) == Lookup(start, p) || DamagedAt(changes, faults, p, Lookup(after, p))
    ensures (forall k | 0 <= k < |changes| :: faults.restore(k).Restored?) ==> after == start
  {
    if forall k | 0 <= k < |changes| :: faults.restore(k).Restored? {
      SameFiles(after, start);
    }
  }

  /** Every target holds its new content and nothing else changed. */
  ghost predicate Holds(before: map<string, string>, after: map<string, string>, changes: seq<Change>) {
    && (forall k | 0 <= k < |changes| :: Lookup(after, changes[k].path) == changes[k].after)
    && forall p | forall k | 0 <= k < |changes| :: changes[k].path != p :: Lookup(after, p) == Lookup(before, p)
  }

  lemma {:induction false} InstalledHolds(files: map<string, string>, changes: seq<Change>)
    requires DistinctTargets(changes)
    ensures Holds(files, Installed(files, changes, |changes|), changes)
  {
    forall k | 0 <= k < |changes|
      ensures Lookup(Installed(files, changes, |changes|), changes[k].path) == changes[k].after {
      InstalledLookup(files, changes, |changes|, changes[k].path);
    }
    forall p | forall k | 0 <= k < |changes| :: changes[k].path != p
      ensures Lookup(Installed(files, changes, |changes|), p) == Lookup(files, p)
    {
      InstalledLookup(files, changes, |changes|, p);
    }
  }

  /** What a patch asks of each of its files, as the files are now. */
  ghost predicate Asked(files: map<string, string>, items: seq<FilePatch>, changes: seq<Change>) {
    && |changes| == |items|
    && forall k | 0 <= k < |items| ::
         && changes[k].path == PathOf(items[k]) && changes[k].before == Lookup(files, changes[k].path)
         && AppliedFile(items[k], changes[k].before) == Ok(changes[k].after)
  }

  lemma AskedDistinct(files: map<string, string>, items: seq<FilePatch>, changes: seq<Change>, fold: string -> string)
    requires Asked(files, items, changes) && Distinct(FoldedPaths(items, fold))
    ensures DistinctTargets(changes) && Current(files, changes)
  {
    forall i, j | 0 <= i < j < |changes| ensures changes[i].path != changes[j].path {
      assert FoldedPaths(items, fold)[i] != FoldedPaths(items, fold)[j];
    }
  }

  /** What the tool knows of files: which contents decode, their size and their hash. */
  datatype Files = Files(decodes: string -> bool, size: string -> nat, hash: string -> string, fold: string -> string)

  function HashesOf(files: map<string, string>, items: seq<FilePatch>, how: Files): (hashes: seq<Option<string>>)
    ensures |hashes| == |items|
  {
    seq(|items|, k requires 0 <= k < |items| =>
      if PathOf(items[k]) in files then Some(how.hash(files[PathOf(items[k])])) else None)
  }

  lemma SoundReadable(items: seq<FilePatch>, fold: string -> string, k: nat)
    requires SoundPatch(items, fold) && k < |items|
    ensures Readable(items[k].hunks)
  {
    assert SoundFile(items[k]);
    forall l | 0 <= l < |items[k].hunks| ensures AllBodyLines(items[k].hunks[l].body) {
      assert SoundHunk(items[k].hunks[l]);
    }
  }

  lemma AskedOne(files: map<string, string>, items: seq<FilePatch>, k: nat, changes: seq<Change>, change: Change)
    requires k < |items| && Asked(files, items[..k], changes)
    requires change.path == PathOf(items[k]) && change.before == Lookup(files, change.path)
    requires AppliedFile(items[k], change.before) == Ok(change.after)
    ensures Asked(files, items[..k + 1], changes + [change])
  {
    hide AppliedFile, PathOf;
    forall l | 0 <= l < k ensures items[..k + 1][l] == items[..k][l] && (changes + [change])[l] == changes[l] {}
  }

  // ---- when a patch can be written ----

  /** The new content of one file of a patch. */
  function NewText(files: map<string, string>, item: FilePatch): Option<string> {
    var made := AppliedFile(item, Lookup(files, PathOf(item)));
    if made.Ok? then made.value else None
  }

  /** What one file of a patch is refused for, if it is. */
  function FileError(files: map<string, string>, item: FilePatch, how: Files): Option<PatchError> {
    var before := Lookup(files, PathOf(item));
    var made := AppliedFile(item, before);
    if before.Some? && !how.decodes(before.value) then Some(Undecodable)
    else if made.Err? then Some(made.error)
    else if made.value.Some? && how.size(made.value.value) > MAX_FILE_BYTES then Some(FileTooLarge)
    else None
  }

  function NewSize(files: map<string, string>, item: FilePatch, how: Files): nat {
    var text := NewText(files, item);
    if text.Some? then how.size(text.value) else 0
  }

  function TotalSize(files: map<string, string>, items: seq<FilePatch>, how: Files): nat {
    if items == [] then 0
    else TotalSize(files, items[..|items| - 1], how) + NewSize(files, items[|items| - 1], how)
  }

  /** What the first files of a patch are refused for: the first file at fault, or
      the file with which the results grow too large. */
  function PatchErrorIn(files: map<string, string>, items: seq<FilePatch>, how: Files): Option<PatchError> {
    if items == [] then None
    else
      var n := |items| - 1;
      var older := PatchErrorIn(files, items[..n], how);
      if older.Some? then older
      else if FileError(files, items[n], how).Some? then FileError(files, items[n], how)
      else if TotalSize(files, items, how) > MAX_PATCH_RESULT_BYTES then Some(ResultTooLarge)
      else None
  }

  /** A patch is refused for nothing exactly when every file decodes, matches and
      stays small, and all results together do. */
  lemma {:induction false} NothingRefusedIff(files: map<string, string>, items: seq<FilePatch>, how: Files)
    ensures PatchErrorIn(files, items, how).None?
            <==> (forall k | 0 <= k < |items| :: FileError(files, items[k], how).None?)
                 && TotalSize(files, items, how) <= MAX_PATCH_RESULT_BYTES
  {
    hide FileError, NewSize;
    if items != [] {
      var n := |items| - 1;
      NothingRefusedIff(files, items[..n], how);
    }
  }

  lemma {:induction false} RefusalStays(files: map<string, string>, items: seq<FilePatch>, how: Files, n: nat)
    requires n <= |items| && PatchErrorIn(files, items[..n], how).Some?
    ensures PatchErrorIn(files, items, how) == PatchErrorIn(files, items[..n], how)
    decreases |items|
  {
    hide FileError, NewSize, TotalSize;
    if n == |items| {
      assert items[..n] == items;
    } else {
      var last := |items| - 1;
      assert items[..last][..n] == items[..n];
      RefusalStays(files, items[..last], how, n);
    }
  }

  lemma {:induction false} NothingRefused(files: map<string, string>, items: seq<FilePatch>, how: Files)
    ensures items[..0] == [] && PatchErrorIn(files, [], how).None? && TotalSize(files, [], how) == 0
  {
  }

  lemma {:induction false} NextRefusal(files: map<string, string>, items: seq<FilePatch>, how: Files, k: nat)
    requires k < |items| && PatchErrorIn(files, items[..k], how).None?
    ensures PatchErrorIn(files, items[..k + 1], how)
            == if FileError(files, items[k], how).Some? then FileError(files, items[k], how)
               else if TotalSize(files, items[..k + 1], how) > MAX_PATCH_RESULT_BYTES then Some(ResultTooLarge)
               else None
    ensures TotalSize(files, items[..k + 1], how) == TotalSize(files, items[..k], how) + NewSize(files, items[k], how)
  {
    hide FileError, NewSize;
    assert items[..k + 1][..k] == items[..k];
  }

  /** The changes a patch asks for. */
  function ChangesOf(files: map<string, string>, items: seq<FilePatch>): (changes: seq<Change>)
    ensures |changes| == |items|
  {
    seq(|items|, k requires 0 <= k < |items| =>
      Change(PathOf(items[k]), Lookup(files, PathOf(items[k])), NewText(files, items[k])))
  }

  lemma AskedChanges(files: map<string, string>, items: seq<FilePatch>, changes: seq<Change>)
    requires Asked(files, items, changes)
    ensures changes == ChangesOf(files, items)
  {
    hide AppliedFile, PathOf;
    forall k | 0 <= k < |items| ensures changes[k] == ChangesOf(files, items)[k] {
      assert changes[k].path == PathOf(items[k]);
    }
  }

  /** What a whole call is refused for before anything is written. */
  function Refusal(
    files: map<string, string>, text: string, approved: Option<seq<Option<string>>>, how: Files): Option<PatchError>
  {
    if !NonBlank(text) then Some(InvalidArguments)
    else if how.size(text) > MAX_PATCH_BYTES then Some(PatchTooLarge)
    else
      var parsed := ParseDiff(text, how.fold);
      if parsed.Err? then Some(parsed.error)
      else if approved.Some? && approved.value != HashesOf(files, parsed.value, how) then Some(Stale)
      else PatchErrorIn(files, parsed.value, how)
  }

  /** Everything that must be so for a call to succeed. */
  ghost predicate Succeeds(
    files: map<string, string>, text: string, approved: Option<seq<Option<string>>>, how: Files, faults: Faults)
  {
    && NonBlank(text) && how.size(text) <= MAX_PATCH_BYTES
    && ParseDiff(text, how.fold).Ok?
    && var items := ParseDiff(text, how.fold).value;
       && (approved.Some? ==> approved.value == HashesOf(files, items, how))
       && (forall k | 0 <= k < |items| :: FileError(files, items[k], how).None?)
       && TotalSize(files, items, how) <= MAX_PATCH_RESULT_BYTES
       && CanStage(ChangesOf(files, items), faults) && CanInstall(ChangesOf(files, items), faults)
  }

  /** The error of a call that is not refused and whose writes fail: that of a
      temporary file that cannot be removed takes the place of the write error. */
  function Unwritten(files: map<string, string>, text: string, how: Files, faults: Faults): PatchError
    requires ParseDiff(text, how.fold).Ok?
  {
    var changes := ChangesOf(files, ParseDiff(text, how.fold).value);
    if CanClean(MadeTemps(changes, faults), faults) then WriteFailed else Unremoved
  }

  lemma SucceedsIff(
    files: map<string, string>, text: string, approved: Option<seq<Option<string>>>, how: Files, faults: Faults)
    ensures Succeeds(files, text, approved, how, faults)
            <==> Refusal(files, text, approved, how).None?
                 && CanStage(ChangesOf(files, ParseDiff(text, how.fold).value), faults)
                 && CanInstall(ChangesOf(files, ParseDiff(text, how.fold).value), faults)
  {
    hide FileError, TotalSize, PatchErrorIn, HashesOf, ParseDiff, NonBlank, CanStage, CanInstall;
    if ParseDiff(text, how.fold).Ok? {
      NothingRefusedIff(files, ParseDiff(text, how.fold).value, how);
    }
  }

  lemma PatchDistinct(items: seq<FilePatch>, fold: string -> string)
    requires SoundPatch(items, fold)
    ensures Distinct(FoldedPaths(items, fold))
  {
  }

  /** Every file of the patch is as its hunks say; no other file changed. */
  ghost predicate Patched(before: map<string, string>, after: map<string, string>, items: seq<FilePatch>) {
    && (forall k | 0 <= k < |items| ::
          AppliedFile(items[k], Lookup(before, PathOf(items[k]))) == Ok(Lookup(after, PathOf(items[k]))))
    && forall p | forall k | 0 <= k < |items| :: PathOf(items[k]) != p :: Lookup(after, p) == Lookup(before, p)
  }

  lemma HeldPatched(before: map<string, string>, after: map<string, string>, items: seq<FilePatch>,
      changes: seq<Change>)
    requires Asked(before, items, changes) && Holds(before, after, changes)
    ensures Patched(before, after, items)
  {
    hide AppliedFile, PathOf;
    forall k | 0 <= k < |items|
      ensures AppliedFile(items[k], Lookup(before, PathOf(items[k]))) == Ok(Lookup(after, PathOf(items[k])))
    {
      assert changes[k].path == PathOf(items[k]);
    }
    forall p | forall k | 0 <= k < |items| :: PathOf(items[k]) != p ensures Lookup(after, p) == Lookup(before, p) {
      forall k | 0 <= k < |changes| ensures changes[k].path != p {
        assert changes[k].path == PathOf(items[k]);
      }
    }
  }

  class Workspace {
    var files: map<string, string>
    var temps: map<nat, string>
    var nextTemp: nat

    /** Temporary names are never used twice. */
    ghost predicate Valid()
      reads this
    {
      forall t | t in temps :: t < nextTemp
    }

    constructor (files: map<string, string>)
      ensures Valid() && this.files == files && temps == map[]
    {
      this.files, temps, nextTemp := files, map[], 0;
    }

    lemma FreshTemp()
      requires Valid()
      ensures nextTemp !in temps
    {
    }

    /** One temporary file; a write that fails leaves it behind half written. */
    method StageOne(text: string, k: nat, faults: Faults) returns (ok: bool, created: Option<nat>)
      requires Valid()
      modifies this`temps, this`nextTemp
      ensures Valid() && ok == (!faults.create(k) && !faults.write(k)) && (ok ==> created == Some(old(nextTemp)))
      ensures created.None? <==> faults.create(k)
      ensures created.None? ==> temps == old(temps) && nextTemp == old(nextTemp)
      ensures created.Some? ==>
                && created.value == old(nextTemp) && nextTemp == old(nextTemp) + 1
                && temps.Keys == old(temps).Keys + {created.value}
                && (forall t | t in old(temps) :: temps[t] == old(temps)[t])
                && (ok ==> temps[created.value] == text)
    {
      if faults.create(k) {
        return false, None;
      }
      created := Some(nextTemp);
      nextTemp := nextTemp + 1;
      ok := !faults.write(k);
      temps := temps[created.value := if ok then text else ""];
    }

    /** Writes the new contents to temporary files, one for each target that is kept. */
    method Stage(changes: seq<Change>, faults: Faults) returns (ok: bool, staged: seq<Option<nat>>, created: seq<nat>)
      requires Valid()
      modifies this`temps, this`nextTemp
      ensures Valid() && Adds(old(temps), temps, created)
      ensures ok ==> |staged| == |changes| && Staged(temps, changes, staged, old(nextTemp)) && created == Names(staged)
      ensures ok <==> CanStage(changes, faults)
      ensures |created| == MadeTemps(changes, faults)
    {
      hide Adds, Staged, Names, CanStage, Valid, MadeTemps;
      ok, staged, created := true, [], [];
      NothingStaged(temps, changes, nextTemp, faults);
      for k := 0 to |changes|
        invariant Valid() && Adds(old(temps), temps, created) && |staged| == k && old(nextTemp) <= nextTemp
        invariant Staged(temps, changes[..k], staged, old(nextTemp)) && created == Names(staged)
        invariant CanStage(changes[..k], faults) && |created| == MadeTemps(changes[..k], faults)
      {
        assert changes[..k + 1] == changes[..k] + [changes[k]];
        CanStageNext(changes, k, faults);
        MadeNext(changes, k, faults);
        if changes[k].after.Some? {
          ghost var before := temps;
          FreshTemp();
          var temp;
          ok, temp := StageOne(changes[k].after.value, k, faults);
          if temp.Some? {
            AddsOne(old(temps), before, temps, created, temp.value);
            created := created + [temp.value];
          }
          if !ok {
            MadeStays(changes, k + 1, faults);
            return;
          }
          StagedOne(before, temps, changes[..k], changes[k], staged, old(nextTemp), temp.value);
          staged := staged + [temp];
        } else {
          StagedNone(temps, changes[..k], changes[k], staged, old(nextTemp));
          staged := staged + [None];
        }
      }
      assert changes[..|changes|] == changes;
    }

    /** Moves the staged files over their targets, in order, until one move fails. */
    method Install(changes: seq<Change>, staged: seq<Option<nat>>, faults: Faults, ghost first: nat)
        returns (ok: bool, applied: nat)
      requires Valid() && Staged(temps, changes, staged, first)
      requires DistinctTargets(changes) && Current(files, changes)
      modifies this`files, this`temps
      ensures Valid() && applied <= |changes|
      ensures ok <==> CanInstall(changes, faults)
      ensures ok ==> applied == |changes| && files == Installed(old(files), changes, applied)
      ensures ok ==> Drops(old(temps), temps, Names(staged))
      ensures !ok ==> applied > 0 && files == Installed(old(files), changes, applied - 1)
      ensures Fewer(old(temps), temps) && forall t | t in old(temps) :: t in temps || t in Names(staged)
    {
      hide Staged, Names, Drops, Fewer, Installed, CanInstall;
      ok, applied := true, 0;
      NothingInstalled(files, temps, changes, staged, faults);
      for k := 0 to |changes|
        invariant Valid() && applied == k && files == Installed(old(files), changes, k)
        invariant Remaining(temps, changes, staged, k) && Drops(old(temps), temps, Names(staged[..k]))
                  && Fewer(old(temps), temps)
        invariant CanInstall(changes[..k], faults)
      {
        applied := k + 1;
        CanInstallNext(changes, k, faults);
        InstalledLookup(old(files), changes, k, changes[k].path);
        DropsSome(old(temps), temps, staged, k);
        if faults.install(k) || (changes[k].after.None? && changes[k].path !in files) {
          return false, applied;
        }
        StagedAt(old(temps), changes, staged, k, first);
        InstalledNext(old(files), changes, k);
        ghost var before := temps;
        if changes[k].after.None? {
          files := files - {changes[k].path};
        } else {
          files := files[changes[k].path := temps[staged[k].value]];
          temps := temps - {staged[k].value};
        }
        DropsNext(old(temps), before, temps, changes, staged, k);
      }
      assert changes[..|changes|] == changes && staged[..|changes|] == staged;
      DropsSome(old(temps), temps, staged, |changes|);
    }

    /** Writes the old contents back, the last target first; whatever one write
        does, the others are still restored. */
    method Rollback(changes: seq<Change>, applied: nat, faults: Faults)
      requires Valid() && applied <= |changes| && DistinctTargets(changes)
      modifies this`files
      ensures Valid()
      ensures forall p ::
                (forall k | 0 <= k < applied :: changes[k].path != p)
                ==> Lookup(files, p) == Lookup(old(files), p)
      ensures forall k | 0 <= k < applied ::
                Lookup(files, changes[k].path) == match faults.restore(k) case Restored => changes[k].before
                  case Damaged(left) => left
    {
      for k := applied downto 0
        invariant forall p ::
                    (forall l | k <= l < applied :: changes[l].path != p)
                    ==> Lookup(files, p) == Lookup(old(files), p)
        invariant forall l | k <= l < applied ::
                    Lookup(files, changes[l].path) == match faults.restore(l) case Restored => changes[l].before
                      case Damaged(left) => left
      {
        match faults.restore(k)
        case Restored => files := Put(files, changes[k].path, changes[k].before);
        case Damaged(left) => files := Put(files, changes[k].path, left);
      }
    }

    /** Removes what is left of the temporary files. */
    method Cleanup(created: seq<nat>, faults: Faults) returns (ok: bool)
      requires Valid()
      modifies this`temps
      ensures Valid() && Fewer(old(temps), temps)
      ensures ok ==> forall t :: t in temps <==> t in old(temps) && t !in created
      ensures ok <==> CanClean(|created|, faults)
    {
      ok := true;
      for k := 0 to |created|
        invariant Valid() && Fewer(old(temps), temps)
        invariant forall t :: t in temps <==> t in old(temps) && t !in created[..k]
        invariant CanClean(k, faults)
      {
        if faults.cleanup(k) {
          return false;
        }
        temps := temps - {created[k]};
        assert created[..k + 1] == created[..k] + [created[k]];
      }
      assert created[..|created|] == created;
    }

    /** The commit of a prepared patch. At whatever point something fails, every
        target whose rollback write succeeds holds its old content; with no fault
        every target holds its new one. No temporary file remains. */
    method Commit(changes: seq<Change>, faults: Faults) returns (outcome: CommitOutcome)
      requires Valid() && DistinctTargets(changes) && Current(files, changes)
      modifies this
      ensures Valid()
      ensures outcome == if CanStage(changes, faults) && CanInstall(changes, faults) then Committed
                         else if CanClean(MadeTemps(changes, faults), faults) then RolledBack
                         else CleanupFailed
      ensures outcome.Committed? ==> Holds(old(files), files, changes)
      ensures !outcome.Committed? ==>
                forall p :: Lookup(files, p) == Lookup(old(files), p) || DamagedAt(changes, faults, p, Lookup(files, p))
      ensures !outcome.Committed? && (forall k | 0 <= k < |changes| :: faults.restore(k).Restored?)
              ==> files == old(files)
      ensures !outcome.CleanupFailed? ==> temps == old(temps)
    {
      hide MadeTemps, CanClean, Holds, Staged, Names, Drops, Fewer, Adds, Installed, CanStage, CanInstall, DamagedAt;
      ghost var first := nextTemp;
      var ok, staged, created := Stage(changes, faults);
      var applied := 0;
      ghost var before := temps;
      FewerNothing(temps);
      NothingPut(files, changes);
      if ok {
        ok, applied := Install(changes, staged, faults, first);
        if ok {
          AllMoved(old(temps), before, temps, created);
          InstalledHolds(old(files), changes);
          return Committed;
        }
      }
      ghost var middle := files;
      Rollback(changes, applied, faults);
      RolledBackAll(old(files), middle, files, changes, applied, faults);
      AllRestored(old(files), files, changes, faults);
      ghost var left := temps;
      var clean := Cleanup(created, faults);
      outcome := if clean then RolledBack else CleanupFailed;
      if clean {
        AllRemoved(old(temps), before, left, temps, created);
      }
    }

    /** Reads every target and applies its hunks; nothing is written yet. The first
        file at fault refuses the patch. */
    method Prepare(items: seq<FilePatch>, how: Files) returns (r: Result<seq<Change>>)
      requires SoundPatch(items, how.fold)
      ensures r.Ok? <==> PatchErrorIn(files, items, how).None?
      ensures r.Ok? ==> Asked(files, items, r.value)
      ensures r.Err? ==> PatchErrorIn(files, items, how) == Some(r.error)
    {
      hide SoundPatch, AppliedFile, PatchErrorIn, TotalSize;
      var changes: seq<Change> := [];
      var total := 0;
      NothingRefused(files, items, how);
      for k := 0 to |items|
        invariant |changes| == k && Asked(files, items[..k], changes)
        invariant PatchErrorIn(files, items[..k], how).None? && total == TotalSize(files, items[..k], how)
      {
        var path := PathOf(items[k]);
        var before := if path in files then Some(files[path]) else None;
        NextRefusal(files, items, how, k);
        if PatchErrorIn(files, items[..k + 1], how).Some? {
          RefusalStays(files, items, how, k + 1);
        }
        if before.Some? && !how.decodes(before.value) {
          return Err(Undecodable);
        }
        SoundReadable(items, how.fold, k);
        var made := ApplyFilePatch(items[k], before);
        if made.Err? {
          return Err(made.error);
        }
        if made.value.Some? && how.size(made.value.value) > MAX_FILE_BYTES {
          return Err(FileTooLarge);
        }
        total := total + if made.value.Some? then how.size(made.value.value) else 0;
        if total > MAX_PATCH_RESULT_BYTES {
          return Err(ResultTooLarge);
        }
        AskedOne(files, items, k, changes, Change(path, before, made.value));
        changes := changes + [Change(path, before, made.value)];
      }
      assert items[..|items|] == items;
      r := Ok(changes);
    }

    /** The whole tool call: parse, check that nothing changed since the approval,
        apply, commit. It succeeds exactly when nothing refuses the patch and every
        write goes through; then every file is as the patch says. Otherwise nothing
        changes that a rollback write can restore. */
    method Execute(text: string, approved: Option<seq<Option<string>>>, how: Files, faults: Faults)
      returns (r: Result<seq<FilePatch>>)
      requires Valid()
      modifies this
      ensures Valid()
      ensures r.Ok? <==> Succeeds(old(files), text, approved, how, faults)
      ensures r.Ok? ==> ParseDiff(text, how.fold) == r && Patched(old(files), files, r.value) && temps == old(temps)
      ensures r.Err? ==>
                var refusal := Refusal(old(files), text, approved, how);
                r.error == if refusal.Some? then refusal.value else Unwritten(old(files), text, how, faults)
      ensures Refusal(old(files), text, approved, how).Some? ==> files == old(files) && temps == old(temps)
      ensures r.Err? && (forall k: nat :: faults.restore(k).Restored?) ==> files == old(files)
      ensures r.Err? && r.error != Unremoved ==> temps == old(temps)
    {
      hide SoundPatch, ParseDiff, Asked, Holds, Patched, CanStage, CanInstall, DistinctTargets, Current, HashesOf,
           NonBlank, Succeeds, PatchErrorIn, MadeTemps, CanClean;
      SucceedsIff(files, text, approved, how, faults);
      if !NonBlank(text) {
        return Err(InvalidArguments);
      }
      if how.size(text) > MAX_PATCH_BYTES {
        return Err(PatchTooLarge);
      }
      var parsed := ParseUnifiedDiff(text, how.fold);
      if parsed.Err? {
        return parsed;
      }
      var items := parsed.value;
      if approved.Some? && approved.value != HashesOf(files, items, how) {
        return Err(Stale);
      }
      var prepared := Prepare(items, how);
      if prepared.Err? {
        return Err(prepared.error);
      }
      PatchDistinct(items, how.fold);
      AskedDistinct(files, items, prepared.value, how.fold);
      AskedChanges(files, items, prepared.value);
      var outcome := Commit(prepared.value, faults);
      if outcome == CleanupFailed {
        return Err(Unremoved);
      }
      if outcome == RolledBack {
        return Err(WriteFailed);
      }
      HeldPatched(old(files), files, items, prepared.value);
      r := Ok(items);
    }
  }
}
