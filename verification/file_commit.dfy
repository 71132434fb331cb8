/**
  The multi-file installer: stage every output, compare snapshots, rename originals to
  backups and outputs into place, roll back in reverse, clean up. Any primitive may fail at
  any moment; a failed primitive changes nothing.
 */
module FileCommit {
  import opened Ids

  /** Targets have their own names; staged outputs and backups get fresh random ones beside them. */
  datatype Path = Target(name: Id) | Temp(n: nat) | Backup(n: nat)

  datatype File = File(bytes: Id, mode: nat)

  type Files = map<Path, File>

  /** `before` is what planning read (the default mode and no bytes when the target was absent). */
  datatype Plan = Plan(target: Id, before: File, wanted: Id, present: bool)
  {
    function Output(): File {
      File(wanted, before.mode)
    }
  }

  datatype Staged = Staged(plan: Plan, temp: Option<Path>, backup: Option<Path>, backed: bool, applied: bool)

  datatype Result = Done | RolledBack | RollbackIncomplete

  // ----- file system -----

  /** Every primitive records the file system it leaves behind. */
  class FileSystem {
    var files: Files
    ghost var trace: seq<Files>

    constructor (initial: Files)
      ensures files == initial && trace == []
    {
      files, trace := initial, [];
    }

    method Rename(from: Path, to: Path) returns (ok: bool)
      modifies this
      ensures ok ==> from in old(files) && files == (old(files) - {from})[to := old(files)[from]]
      ensures !ok ==> files == old(files)
      ensures trace == old(trace) + [files]
    {
      ok := false;
      if from in files {
        ok := *;
        if ok { files := (files - {from})[to := files[from]]; }
      }
      trace := trace + [files];
    }

    method Remove(path: Path) returns (ok: bool)
      modifies this
      ensures ok ==> path in old(files) && files == old(files) - {path}
      ensures !ok ==> files == old(files)
      ensures trace == old(trace) + [files]
    {
      ok := false;
      if path in files {
        ok := *;
        if ok { files := files - {path}; }
      }
      trace := trace + [files];
    }

    /** Creates a file exclusively; writing it may still fail after it was created. */
    method Create(path: Path, content: File) returns (created: bool, written: bool)
      modifies this
      ensures written ==> created
      ensures created ==> path !in old(files) && path in files && files == old(files)[path := files[path]]
      ensures written ==> files[path] == content
      ensures !created ==> files == old(files)
      ensures trace == old(trace) + [files]
    {
      created, written := false, false;
      if path !in files {
        created := *;
        if created {
          written := *;
          files := files[path := if written then content else File(NO_ID, 384)];
        }
      }
      trace := trace + [files];
    }
  }

  // ----- what is kept -----

  /** Files whose bytes differ are written; equal bytes of an existing file are skipped. */
  predicate Changes(p: Plan) {
    !(p.present && p.before.bytes == p.wanted)
  }

  predicate DistinctTargets(plans: seq<Plan>) {
    forall i, j :: 0 <= i < j < |plans| ==> plans[i].target != plans[j].target
  }

  /** The target is exactly as it was, or as absent as it was. */
  predicate Intact(files: Files, original: Files, t: Id) {
    && (Target(t) in files <==> Target(t) in original)
    && (Target(t) in files ==> files[Target(t)] == original[Target(t)])
  }

  ghost predicate AllIntact(files: Files, original: Files) {
    forall t :: Intact(files, original, t)
  }

  ghost predicate OthersIntact(files: Files, original: Files, plans: seq<Plan>) {
    forall t :: (forall i :: 0 <= i < |plans| && Changes(plans[i]) ==> plans[i].target != t) ==> Intact(files, original, t)
  }

  predicate Wanted(files: Files, p: Plan) {
    Target(p.target) in files && files[Target(p.target)] == p.Output()
  }

  predicate AllWanted(files: Files, plans: seq<Plan>) {
    forall i :: 0 <= i < |plans| && Changes(plans[i]) ==> Wanted(files, plans[i])
  }

  /** The content is at its target or at some backup. */
  ghost predicate Kept(files: Files, content: File, t: Id) {
    || (Target(t) in files && files[Target(t)] == content)
    || exists n: nat :: Backup(n) in files && files[Backup(n)] == content
  }

  ghost predicate NothingLost(files: Files, original: Files) {
    forall t :: Target(t) in original ==> Kept(files, original[Target(t)], t)
  }

  lemma SelfIntact(files: Files)
    ensures AllIntact(files, files)
  {
  }

  lemma StillIntact(original: Files, before: Files, files: Files)
    requires AllIntact(before, original) && AllIntact(files, before)
    ensures AllIntact(files, original)
  {
    forall t ensures Intact(files, original, t) {
      assert Intact(before, original, t) && Intact(files, before, t);
    }
  }

  lemma IntactKeeps(files: Files, original: Files)
    requires AllIntact(files, original)
    ensures NothingLost(files, original)
  {
    forall t | Target(t) in original ensures Kept(files, original[Target(t)], t) {
      assert Intact(files, original, t);
    }
  }

  // ----- the states a staged file goes through -----

  predicate IsTemp(p: Option<Path>) {
    p.Some? && p.value.Temp?
  }

  predicate IsBackup(p: Option<Path>) {
    p.Some? && p.value.Backup?
  }

  predicate Paths(s: Staged) {
    (s.temp.Some? ==> IsTemp(s.temp)) && (s.backup.Some? ==> IsBackup(s.backup))
  }

  /** Staged and waiting: nothing of the target has been touched. */
  predicate Waiting(files: Files, original: Files, s: Staged) {
    && !s.backed && !s.applied && Intact(files, original, s.plan.target)
    && IsTemp(s.temp) && s.temp.value in files && files[s.temp.value] == s.plan.Output()
    && (if s.plan.present then IsBackup(s.backup) else s.backup.None?)
  }

  predicate AtBackup(files: Files, original: Files, s: Staged) {
    && IsBackup(s.backup) && s.backup.value in files
    && Target(s.plan.target) in original && files[s.backup.value] == original[Target(s.plan.target)]
  }

  /** The original is at its backup and the target is vacant. */
  predicate Moved(files: Files, original: Files, s: Staged) {
    && s.backed && !s.applied && Target(s.plan.target) !in files && AtBackup(files, original, s) && IsTemp(s.temp)
  }

  /** The output is in place, and the original, if any, at its backup. */
  predicate Applied(files: Files, original: Files, s: Staged) {
    && s.applied && s.temp.None? && Wanted(files, s.plan)
    && (if s.backed then AtBackup(files, original, s) else s.backup.None? && Target(s.plan.target) !in original)
  }

  predicate Touched(files: Files, original: Files, s: Staged) {
    Waiting(files, original, s) || Moved(files, original, s) || Applied(files, original, s)
  }

  predicate Apart(a: Staged, b: Staged) {
    && a.plan.target != b.plan.target
    && (a.temp.Some? ==> a.temp != b.temp)
    && (a.backup.Some? ==> a.backup != b.backup)
  }

  predicate AllApart(staged: seq<Staged>) {
    forall i, j :: 0 <= i < |staged| && 0 <= j < |staged| && i != j ==> Apart(staged[i], staged[j])
  }

  /** The staged files are exactly the plans that change something, in order. */
  function Changing(plans: seq<Plan>): (r: seq<Plan>)
    ensures forall p :: p in r <==> p in plans && Changes(p)
  {
    if |plans| == 0 then []
    else
      var n := |plans| - 1;
      if Changes(plans[n]) then Changing(plans[..n]) + [plans[n]] else Changing(plans[..n])
  }

  function PlansOf(staged: seq<Staged>): seq<Plan> {
    seq(|staged|, i requires 0 <= i < |staged| => staged[i].plan)
  }

  // ----- staging -----

  /** The trace continues an earlier one with moments in which no target differs from the original. */
  ghost predicate QuietTrace(trace: seq<Files>, earlier: seq<Files>, original: Files) {
    && |earlier| <= |trace| && trace[..|earlier|] == earlier
    && forall k :: |earlier| <= k < |trace| ==> AllIntact(trace[k], original)
  }

  lemma SelfQuiet(trace: seq<Files>, original: Files)
    ensures QuietTrace(trace, trace, original)
  {
  }

  lemma QuietContinues(a: seq<Files>, b: seq<Files>, c: seq<Files>, original: Files, before: Files)
    requires QuietTrace(b, a, original) && QuietTrace(c, b, before) && AllIntact(before, original)
    ensures QuietTrace(c, a, original)
  {
    hide AllIntact;
    forall k | |a| <= k < |c| ensures AllIntact(c[k], original) {
      if k < |b| {
        assert c[..|b|][k] == b[k];
      } else {
        StillIntact(original, before, c[k]);
      }
    }
    assert c[..|a|] == c[..|b|][..|a|];
  }

  method StageOne(fs: FileSystem, p: Plan) returns (s: Option<Staged>, ok: bool)
    modifies fs
    ensures AllIntact(fs.files, old(fs.files))
    ensures QuietTrace(fs.trace, old(fs.trace), old(fs.files))
    ensures forall q :: q in old(fs.files) ==> q in fs.files && fs.files[q] == old(fs.files)[q]
    ensures s.Some? ==> s.value.plan == p && Paths(s.value) && !s.value.backed && !s.value.applied
    ensures s.Some? && s.value.temp.Some? ==> s.value.temp.value !in old(fs.files) && s.value.temp.value in fs.files
    ensures s.Some? && s.value.backup.Some? ==> s.value.backup.value !in old(fs.files) && s.value.backup.value in fs.files
    ensures ok ==> s.Some? && s.value.temp.Some? && Waiting(fs.files, fs.files, s.value)
  {
    var n: nat := *;
    var created, written := fs.Create(Temp(n), p.Output());
    if !created { return None, false; }
    s := Some(Staged(p, Some(Temp(n)), None, false, false));
    if !written { return s, false; }
    if p.present {
      var b: nat := *;
      var made, closed := fs.Create(Backup(b), File(NO_ID, 384));
      if !made { return s, false; }
      s := Some(s.value.(backup := Some(Backup(b))));
      if !closed { return s, false; }
    }
    return s, true;
  }

  /** Everything staged so far is complete, untouched and owns its own paths. */
  predicate Ready(files: Files, staged: seq<Staged>) {
    && AllApart(staged) && AllPaths(staged)
    && forall j :: 0 <= j < |staged| ==>
         Waiting(files, files, staged[j]) && (staged[j].backup.Some? ==> staged[j].backup.value in files)
  }

  lemma ReadyGrows(before: Files, files: Files, staged: seq<Staged>, s: Staged)
    requires Ready(before, staged) && AllIntact(files, before)
    requires forall q :: q in before ==> q in files && files[q] == before[q]
    requires Paths(s) && Waiting(files, files, s)
    requires s.temp.value !in before && (s.backup.Some? ==> s.backup.value !in before && s.backup.value in files)
    requires forall j :: 0 <= j < |staged| ==> staged[j].plan.target != s.plan.target
    ensures Ready(files, staged + [s])
  {
    hide AllIntact;
    forall j | 0 <= j < |staged|
      ensures Waiting(files, files, staged[j]) && Apart(staged[j], s) && Apart(s, staged[j])
    {
      assert Waiting(before, before, staged[j]);
    }
  }

  method StageAll(fs: FileSystem, plans: seq<Plan>) returns (staged: seq<Staged>, ok: bool)
    requires DistinctTargets(plans)
    modifies fs
    ensures AllIntact(fs.files, old(fs.files))
    ensures QuietTrace(fs.trace, old(fs.trace), old(fs.files))
    ensures AllPaths(staged)
    ensures ok ==> Ready(fs.files, staged) && PlansOf(staged) == Changing(plans)
  {
    SelfIntact(fs.files);
    SelfQuiet(fs.trace, fs.files);
    staged, ok := [], true;
    var i := 0;
    while i < |plans|
      invariant i <= |plans|
      invariant AllIntact(fs.files, old(fs.files))
      invariant QuietTrace(fs.trace, old(fs.trace), old(fs.files))
      invariant PlansOf(staged) == Changing(plans[..i]) && Ready(fs.files, staged)
    {
      hide AllIntact, QuietTrace, Waiting, Apart, Paths, Changing, PlansOf, DistinctTargets;
      var p := plans[i];
      if !Changes(p) {
        SkipsPlan(plans, i);
      } else {
        var cancelled: bool := *;
        if cancelled { return staged, false; }
        ghost var before, earlier := fs.files, fs.trace;
        var s, staging := StageOne(fs, p);
        StillIntact(old(fs.files), before, fs.files);
        QuietContinues(old(fs.trace), earlier, fs.trace, old(fs.files), before);
        if !staging { return (if s.Some? then staged + [s.value] else staged), false; }
        NewTarget(plans, i, staged);
        StagesPlan(plans, i, staged, s.value);
        ReadyGrows(before, fs.files, staged, s.value);
        staged := staged + [s.value];
      }
      i := i + 1;
    }
    assert plans[..i] == plans;
  }

  lemma SkipsPlan(plans: seq<Plan>, i: nat)
    requires i < |plans| && !Changes(plans[i])
    ensures Changing(plans[..i + 1]) == Changing(plans[..i])
  {
    assert plans[..i + 1][..i] == plans[..i];
  }

  lemma StagesPlan(plans: seq<Plan>, i: nat, staged: seq<Staged>, s: Staged)
    requires i < |plans| && Changes(plans[i]) && PlansOf(staged) == Changing(plans[..i]) && s.plan == plans[i]
    ensures PlansOf(staged + [s]) == Changing(plans[..i + 1])
  {
    assert plans[..i + 1][..i] == plans[..i];
    assert PlansOf(staged + [s]) == PlansOf(staged) + [s.plan];
  }

  lemma NewTarget(plans: seq<Plan>, i: nat, staged: seq<Staged>)
    requires DistinctTargets(plans) && i < |plans| && PlansOf(staged) == Changing(plans[..i])
    ensures forall j :: 0 <= j < |staged| ==> staged[j].plan.target != plans[i].target
  {
    forall j | 0 <= j < |staged| ensures staged[j].plan.target != plans[i].target {
      var k := PlannedFor(plans[..i], staged, j);
      assert plans[k].target != plans[i].target;
    }
  }

  // ----- committing -----

  /** What planning read is still what is there, for every file about to be replaced. */
  method SnapshotsHold(fs: FileSystem, staged: seq<Staged>) returns (ok: bool)
    ensures ok ==> forall i :: 0 <= i < |staged| ==> Planned(fs.files, staged[i].plan)
  {
    var i := 0;
    while i < |staged|
      invariant i <= |staged|
      invariant forall j :: 0 <= j < i ==> Planned(fs.files, staged[j].plan)
    {
      var p := staged[i].plan;
      var unreadable: bool := *;
      if unreadable || p.present != (Target(p.target) in fs.files) { return false; }
      if p.present && fs.files[Target(p.target)] != p.before { return false; }
      i := i + 1;
    }
    return true;
  }

  predicate Planned(files: Files, p: Plan) {
    (p.present <==> Target(p.target) in files) && (p.present ==> files[Target(p.target)] == p.before)
  }

  /** Nothing but the paths of `s` changed between two moments. */
  ghost predicate OnlyTouches(before: Files, files: Files, s: Staged) {
    forall q :: q != Target(s.plan.target) && Some(q) != s.temp && Some(q) != s.backup ==>
      (q in files <==> q in before) && (q in files ==> files[q] == before[q])
  }

  lemma OthersStayTouched(original: Files, before: Files, files: Files, s: Staged, other: Staged)
    requires Touched(before, original, other) && OnlyTouches(before, files, s) && Apart(other, s)
    requires Paths(other) && Paths(s)
    ensures Touched(files, original, other)
    ensures Waiting(before, original, other) ==> Waiting(files, original, other)
    ensures Applied(before, original, other) ==> Applied(files, original, other)
  {
  }

  /** Moves one original to its backup and its output into place; stops at the first failure. */
  method CommitOne(fs: FileSystem, s: Staged, ghost original: Files) returns (s': Staged, ok: bool)
    requires Waiting(fs.files, original, s) && Planned(original, s.plan)
    modifies fs
    ensures s'.plan == s.plan && Touched(fs.files, original, s') && (ok ==> Applied(fs.files, original, s'))
    ensures OnlyTouches(old(fs.files), fs.files, s)
    ensures s'.backup == s.backup && (s'.temp == s.temp || s'.temp.None?)
    ensures |fs.trace| >= |old(fs.trace)| && fs.trace[..|old(fs.trace)|] == old(fs.trace)
    ensures forall k :: |old(fs.trace)| <= k < |fs.trace| ==>
              OnlyTouches(old(fs.files), fs.trace[k], s) && TargetKept(fs.trace[k], original, s.plan.target)
  {
    s' := s;
    var stop: bool := *;
    if stop { return s', false; }
    if s.plan.present {
      var moved := fs.Rename(Target(s.plan.target), s.backup.value);
      if !moved { return s', false; }
      s' := s'.(backed := true);
    }
    var placed := fs.Rename(s.temp.value, Target(s.plan.target));
    if !placed { return s', false; }
    s' := s'.(applied := true, temp := None);
    return s', true;
  }

  ghost predicate TargetKept(files: Files, original: Files, t: Id) {
    Target(t) in original ==> Kept(files, original[Target(t)], t)
  }

  /** Targets that are not staged are as they were. */
  ghost predicate StagedOnly(files: Files, original: Files, staged: seq<Staged>) {
    forall t :: (forall i :: 0 <= i < |staged| ==> staged[i].plan.target != t) ==> Intact(files, original, t)
  }

  ghost predicate InHand(files: Files, original: Files, staged: seq<Staged>) {
    && StagedOnly(files, original, staged)
    && forall i :: 0 <= i < |staged| ==> Touched(files, original, staged[i])
  }

  predicate AllPaths(staged: seq<Staged>) {
    forall i :: 0 <= i < |staged| ==> Paths(staged[i])
  }

  lemma TouchedKeeps(files: Files, original: Files, s: Staged)
    requires Touched(files, original, s)
    ensures TargetKept(files, original, s.plan.target)
  {
    if s.backup.Some? && s.backup.value.Backup? && AtBackup(files, original, s) {
      assert Backup(s.backup.value.n) == s.backup.value;
    }
  }

  /** While every staged file is in one of its states, nothing is lost; one file may even be in between. */
  lemma InHandKeeps(before: Files, files: Files, original: Files, staged: seq<Staged>, i: nat)
    requires InHand(before, original, staged) && AllApart(staged) && AllPaths(staged) && i < |staged|
    requires OnlyTouches(before, files, staged[i]) && TargetKept(files, original, staged[i].plan.target)
    ensures NothingLost(files, original)
    ensures StagedOnly(files, original, staged)
    ensures forall j :: 0 <= j < |staged| && j != i ==> Touched(files, original, staged[j])
  {
    forall j | 0 <= j < |staged| && j != i
      ensures Touched(files, original, staged[j]) && TargetKept(files, original, staged[j].plan.target)
    {
      OthersStayTouched(original, before, files, staged[i], staged[j]);
      TouchedKeeps(files, original, staged[j]);
    }
    hide Touched, Apart, Paths;
    forall t ensures TargetKept(files, original, t) {
      if forall j :: 0 <= j < |staged| ==> staged[j].plan.target != t {
        assert Intact(before, original, t);
      }
    }
    forall t | Target(t) in original ensures Kept(files, original[Target(t)], t) {
      assert TargetKept(files, original, t);
    }
    NotStagedIntact(before, files, original, staged, i);
  }

  lemma NotStagedIntact(before: Files, files: Files, original: Files, staged: seq<Staged>, i: nat)
    requires StagedOnly(before, original, staged) && AllPaths(staged) && i < |staged| && OnlyTouches(before, files, staged[i])
    ensures StagedOnly(files, original, staged)
  {
    forall t | forall j :: 0 <= j < |staged| ==> staged[j].plan.target != t ensures Intact(files, original, t) {
      assert Intact(before, original, t) && Paths(staged[i]);
    }
  }

  method CommitAll(fs: FileSystem, staged: seq<Staged>, ghost original: Files) returns (staged': seq<Staged>, ok: bool)
    requires AllApart(staged) && AllPaths(staged) && StagedOnly(fs.files, original, staged)
    requires forall i :: 0 <= i < |staged| ==> Waiting(fs.files, original, staged[i]) && Planned(original, staged[i].plan)
    modifies fs
    ensures PlansOf(staged') == PlansOf(staged) && AllApart(staged') && AllPaths(staged')
    ensures InHand(fs.files, original, staged')
    ensures ok ==> forall i :: 0 <= i < |staged'| ==> Applied(fs.files, original, staged'[i])
    ensures |fs.trace| >= |old(fs.trace)| && fs.trace[..|old(fs.trace)|] == old(fs.trace)
    ensures forall k :: |old(fs.trace)| <= k < |fs.trace| ==> NothingLost(fs.trace[k], original)
  {
    staged' := staged;
    var i := 0;
    while i < |staged|
      invariant i <= |staged| == |staged'| && PlansOf(staged') == PlansOf(staged)
      invariant AllApart(staged') && AllPaths(staged') && StagedOnly(fs.files, original, staged')
      invariant forall j :: 0 <= j < i ==> Applied(fs.files, original, staged'[j])
      invariant forall j :: i <= j < |staged| ==> Waiting(fs.files, original, staged'[j]) && Planned(original, staged'[j].plan)
      invariant |fs.trace| >= |old(fs.trace)| && fs.trace[..|old(fs.trace)|] == old(fs.trace)
      invariant forall k :: |old(fs.trace)| <= k < |fs.trace| ==> NothingLost(fs.trace[k], original)
    {
      ghost var before, steps, was := fs.files, |fs.trace|, staged';
      var s, placed := CommitOne(fs, staged'[i], original);
      CommittedOne(before, fs.files, original, was, i, s);
      forall k | steps <= k < |fs.trace| ensures NothingLost(fs.trace[k], original) {
        InHandKeeps(before, fs.trace[k], original, was, i);
      }
      staged' := staged'[i := s];
      if !placed { return staged', false; }
      i := i + 1;
    }
    return staged', true;
  }

  lemma CommittedOne(before: Files, files: Files, original: Files, staged: seq<Staged>, i: nat, s: Staged)
    requires InHand(before, original, staged) && AllApart(staged) && AllPaths(staged) && i < |staged|
    requires OnlyTouches(before, files, staged[i]) && Touched(files, original, s) && s.plan == staged[i].plan
    requires s.backup == staged[i].backup && (s.temp == staged[i].temp || s.temp.None?)
    ensures InHand(files, original, staged[i := s]) && AllApart(staged[i := s]) && AllPaths(staged[i := s])
    ensures PlansOf(staged[i := s]) == PlansOf(staged)
    ensures forall j :: 0 <= j < |staged| && j != i && Waiting(before, original, staged[j]) ==> Waiting(files, original, staged[j])
    ensures forall j :: 0 <= j < |staged| && j != i && Applied(before, original, staged[j]) ==> Applied(files, original, staged[j])
  {
    forall j | 0 <= j < |staged| && j != i
      ensures Touched(files, original, staged[j])
      ensures Waiting(before, original, staged[j]) ==> Waiting(files, original, staged[j])
      ensures Applied(before, original, staged[j]) ==> Applied(files, original, staged[j])
      ensures Apart(staged[j], s) && Apart(s, staged[j])
    {
      OthersStayTouched(original, before, files, staged[i], staged[j]);
    }
    NotStagedIntact(before, files, original, staged, i);
    var after := staged[i := s];
    forall t | forall j :: 0 <= j < |after| ==> after[j].plan.target != t ensures Intact(files, original, t) {
      assert after[i].plan.target != t;
      assert forall j :: 0 <= j < |staged| ==> staged[j].plan.target == after[j].plan.target;
    }
  }

  // ----- rolling back -----

  /** Where an original may be after its rollback: home, or at a backup no longer owned by the record. */
  predicate Rolled(files: Files, original: Files, was: Staged, s: Staged) {
    && s.plan == was.plan && s.temp == was.temp && (s.backup == was.backup || s.backup.None?)
    && (|| Intact(files, original, s.plan.target)
        || (s.backup.None? && AtBackup(files, original, was))
        || Target(s.plan.target) !in original)
  }

  method RollbackOne(fs: FileSystem, s: Staged, ghost original: Files) returns (s': Staged, ok: bool)
    requires Touched(fs.files, original, s) && Paths(s)
    modifies fs
    ensures Rolled(fs.files, original, s, s') && Paths(s') && (ok ==> Intact(fs.files, original, s.plan.target))
    ensures OnlyTouches(old(fs.files), fs.files, s)
    ensures |fs.trace| >= |old(fs.trace)| && fs.trace[..|old(fs.trace)|] == old(fs.trace)
    ensures forall k :: |old(fs.trace)| <= k < |fs.trace| ==>
              OnlyTouches(old(fs.files), fs.trace[k], s) && TargetKept(fs.trace[k], original, s.plan.target)
  {
    s', ok := s, true;
    TouchedKeeps(fs.files, original, s);
    if s.backed {
      ok := fs.Rename(s.backup.value, Target(s.plan.target));
      if !ok { s' := s'.(backup := None); }
    } else if s.applied {
      ok := fs.Remove(Target(s.plan.target));
    }
  }

  /** In reverse order; failures are collected, and their backups are given up to be left alone. */
  method Rollback(fs: FileSystem, staged: seq<Staged>, ghost original: Files) returns (staged': seq<Staged>, complete: bool)
    requires AllApart(staged) && AllPaths(staged) && InHand(fs.files, original, staged)
    modifies fs
    ensures |staged'| == |staged| && AllPaths(staged') && StagedOnly(fs.files, original, staged)
    ensures forall i :: 0 <= i < |staged| ==> Rolled(fs.files, original, staged[i], staged'[i])
    ensures complete ==> forall i :: 0 <= i < |staged| ==> Intact(fs.files, original, staged[i].plan.target)
    ensures |fs.trace| >= |old(fs.trace)| && fs.trace[..|old(fs.trace)|] == old(fs.trace)
    ensures forall k :: |old(fs.trace)| <= k < |fs.trace| ==> NothingLost(fs.trace[k], original)
  {
    staged', complete := staged, true;
    var i := |staged|;
    while i > 0
      invariant 0 <= i <= |staged| == |staged'| && AllPaths(staged')
      invariant StagedOnly(fs.files, original, staged)
      invariant forall j :: 0 <= j < i ==> staged'[j] == staged[j] && Touched(fs.files, original, staged[j])
      invariant forall j :: i <= j < |staged| ==> Rolled(fs.files, original, staged[j], staged'[j])
      invariant complete ==> forall j :: i <= j < |staged| ==> Intact(fs.files, original, staged[j].plan.target)
      invariant |fs.trace| >= |old(fs.trace)| && fs.trace[..|old(fs.trace)|] == old(fs.trace)
      invariant forall k :: |old(fs.trace)| <= k < |fs.trace| ==> NothingLost(fs.trace[k], original)
    {
      i := i - 1;
      ghost var before, steps, was := fs.files, |fs.trace|, staged';
      var s, ok := RollbackOne(fs, staged'[i], original);
      forall k | steps <= k < |fs.trace| ensures NothingLost(fs.trace[k], original) {
        RolledNothingLost(before, fs.trace[k], original, staged, was, i);
      }
      RolledOne(before, fs.files, original, staged, was, i);
      staged' := staged'[i := s];
      complete := complete && ok;
    }
  }

  /** The step for record `i` disturbs neither the records before nor the ones after it. */
  lemma RolledOne(before: Files, files: Files, original: Files, staged: seq<Staged>, now: seq<Staged>, i: nat)
    requires AllApart(staged) && AllPaths(staged) && StagedOnly(before, original, staged) && i < |staged| == |now|
    requires forall j :: 0 <= j < i ==> Touched(before, original, staged[j])
    requires forall j :: i < j < |staged| ==> Rolled(before, original, staged[j], now[j])
    requires OnlyTouches(before, files, staged[i])
    ensures StagedOnly(files, original, staged)
    ensures forall j :: 0 <= j < i ==> Touched(files, original, staged[j])
    ensures forall j :: i < j < |staged| ==> Rolled(files, original, staged[j], now[j])
    ensures forall j :: i < j < |staged| && Intact(before, original, staged[j].plan.target) ==> Intact(files, original, staged[j].plan.target)
  {
    NotStagedIntact(before, files, original, staged, i);
    forall j | 0 <= j < i ensures Touched(files, original, staged[j]) {
      OthersStayTouched(original, before, files, staged[i], staged[j]);
    }
    forall j | i < j < |staged|
      ensures Rolled(files, original, staged[j], now[j])
      ensures Intact(before, original, staged[j].plan.target) ==> Intact(files, original, staged[j].plan.target)
    {
      assert Apart(staged[j], staged[i]) && Paths(staged[i]) && Paths(staged[j]);
    }
  }

  lemma RolledNothingLost(before: Files, files: Files, original: Files, staged: seq<Staged>, now: seq<Staged>, i: nat)
    requires AllApart(staged) && AllPaths(staged) && StagedOnly(before, original, staged) && i < |staged| == |now|
    requires forall j :: 0 <= j < i ==> Touched(before, original, staged[j])
    requires forall j :: i < j < |staged| ==> Rolled(before, original, staged[j], now[j])
    requires OnlyTouches(before, files, staged[i]) && TargetKept(files, original, staged[i].plan.target)
    ensures NothingLost(files, original)
  {
    RolledOne(before, files, original, staged, now, i);
    forall j | 0 <= j < |staged| ensures TargetKept(files, original, staged[j].plan.target) {
      if j < i {
        TouchedKeeps(files, original, staged[j]);
      } else if j > i {
        RolledKeeps(files, original, staged[j], now[j]);
      }
    }
    StagedNothingLost(files, original, staged);
  }

  lemma RolledKeeps(files: Files, original: Files, was: Staged, s: Staged)
    requires Rolled(files, original, was, s)
    ensures TargetKept(files, original, was.plan.target)
  {
    if AtBackup(files, original, was) {
      assert Backup(was.backup.value.n) == was.backup.value;
    }
  }

  lemma StagedNothingLost(files: Files, original: Files, staged: seq<Staged>)
    requires StagedOnly(files, original, staged)
    requires forall j :: 0 <= j < |staged| ==> TargetKept(files, original, staged[j].plan.target)
    ensures NothingLost(files, original)
  {
    forall t | Target(t) in original ensures Kept(files, original[Target(t)], t) {
      if forall j :: 0 <= j < |staged| ==> staged[j].plan.target != t {
        assert Intact(files, original, t);
      } else {
        var j :| 0 <= j < |staged| && staged[j].plan.target == t;
        assert TargetKept(files, original, staged[j].plan.target);
      }
    }
  }

  // ----- cleaning up -----

  predicate Owned(staged: seq<Staged>, q: Path) {
    exists i :: 0 <= i < |staged| && (staged[i].temp == Some(q) || staged[i].backup == Some(q))
  }

  ghost predicate OnlyCleans(before: Files, files: Files, staged: seq<Staged>) {
    forall q :: !Owned(staged, q) ==> (q in files <==> q in before) && (q in files ==> files[q] == before[q])
  }

  /** Removes what staging left; failures are ignored. */
  method Cleanup(fs: FileSystem, staged: seq<Staged>)
    modifies fs
    ensures OnlyCleans(old(fs.files), fs.files, staged)
    ensures |fs.trace| >= |old(fs.trace)| && fs.trace[..|old(fs.trace)|] == old(fs.trace)
    ensures forall k :: |old(fs.trace)| <= k < |fs.trace| ==> OnlyCleans(old(fs.files), fs.trace[k], staged)
  {
    var i := 0;
    while i < |staged|
      invariant i <= |staged|
      invariant OnlyCleans(old(fs.files), fs.files, staged)
      invariant |fs.trace| >= |old(fs.trace)| && fs.trace[..|old(fs.trace)|] == old(fs.trace)
      invariant forall k :: |old(fs.trace)| <= k < |fs.trace| ==> OnlyCleans(old(fs.files), fs.trace[k], staged)
    {
      if staged[i].temp.Some? {
        assert Owned(staged, staged[i].temp.value);
        var removed := fs.Remove(staged[i].temp.value);
      }
      if staged[i].backup.Some? {
        assert Owned(staged, staged[i].backup.value);
        var removed := fs.Remove(staged[i].backup.value);
      }
      i := i + 1;
    }
  }

  /** Targets are never owned, and a backup given up by a failed rollback is not owned either. */
  lemma CleanKeepsRolled(before: Files, files: Files, original: Files, staged: seq<Staged>, now: seq<Staged>)
    requires AllApart(staged) && AllPaths(staged) && AllPaths(now) && |now| == |staged|
    requires StagedOnly(before, original, staged)
    requires forall i :: 0 <= i < |staged| ==> Rolled(before, original, staged[i], now[i])
    requires OnlyCleans(before, files, now)
    ensures NothingLost(files, original)
    ensures forall t :: Intact(before, original, t) ==> Intact(files, original, t)
  {
    forall t ensures !Owned(now, Target(t)) {
      assert forall i :: 0 <= i < |now| ==> Paths(now[i]);
    }
    forall i | 0 <= i < |staged| ensures TargetKept(files, original, staged[i].plan.target) {
      CleanKeepsOne(before, files, original, staged, now, i);
    }
    assert StagedOnly(files, original, staged) by {
      forall t | forall i :: 0 <= i < |staged| ==> staged[i].plan.target != t ensures Intact(files, original, t) {
        assert Intact(before, original, t);
      }
    }
    StagedNothingLost(files, original, staged);
  }

  lemma CleanKeepsOne(before: Files, files: Files, original: Files, staged: seq<Staged>, now: seq<Staged>, i: nat)
    requires AllApart(staged) && AllPaths(staged) && AllPaths(now) && |now| == |staged| && i < |staged|
    requires forall j :: 0 <= j < |staged| ==> Rolled(before, original, staged[j], now[j])
    requires OnlyCleans(before, files, now)
    requires forall t :: !Owned(now, Target(t))
    ensures TargetKept(files, original, staged[i].plan.target)
  {
    assert Rolled(before, original, staged[i], now[i]);
    if now[i].backup.None? && AtBackup(before, original, staged[i]) {
      var q := staged[i].backup.value;
      forall j | 0 <= j < |now| ensures now[j].temp != Some(q) && now[j].backup != Some(q) {
        assert Rolled(before, original, staged[j], now[j]) && Paths(now[j]);
        if j != i { assert Apart(staged[i], staged[j]); }
      }
      assert !Owned(now, q) && Backup(q.n) == q;
    }
  }

  // ----- the whole commit -----

  lemma StagedFor(plans: seq<Plan>, staged: seq<Staged>, i: nat) returns (j: nat)
    requires PlansOf(staged) == Changing(plans) && i < |plans| && Changes(plans[i])
    ensures j < |staged| && staged[j].plan == plans[i]
  {
    assert plans[i] in Changing(plans);
    var changing := Changing(plans);
    j :| 0 <= j < |changing| && changing[j] == plans[i];
    assert PlansOf(staged)[j] == staged[j].plan;
  }

  lemma PlannedFor(plans: seq<Plan>, staged: seq<Staged>, j: nat) returns (i: nat)
    requires PlansOf(staged) == Changing(plans) && j < |staged|
    ensures i < |plans| && Changes(plans[i]) && plans[i] == staged[j].plan
  {
    assert PlansOf(staged)[j] in Changing(plans);
    i :| 0 <= i < |plans| && plans[i] == staged[j].plan;
  }

  lemma AppliedIsWanted(files: Files, original: Files, plans: seq<Plan>, staged: seq<Staged>)
    requires PlansOf(staged) == Changing(plans) && StagedOnly(files, original, staged)
    requires forall i :: 0 <= i < |staged| ==> Applied(files, original, staged[i])
    ensures AllWanted(files, plans) && OthersIntact(files, original, plans)
  {
    forall i | 0 <= i < |plans| && Changes(plans[i]) ensures Wanted(files, plans[i]) {
      var j := StagedFor(plans, staged, i);
      assert Applied(files, original, staged[j]);
    }
    forall t | forall i :: 0 <= i < |plans| && Changes(plans[i]) ==> plans[i].target != t ensures Intact(files, original, t) {
      forall j | 0 <= j < |staged| ensures staged[j].plan.target != t {
        var i := PlannedFor(plans, staged, j);
      }
    }
  }

  lemma CleanKeepsTargets(before: Files, files: Files, original: Files, staged: seq<Staged>, t: Id)
    requires OnlyCleans(before, files, staged) && AllPaths(staged)
    ensures Target(t) in files <==> Target(t) in before
    ensures Target(t) in files ==> files[Target(t)] == before[Target(t)]
  {
    assert forall i :: 0 <= i < |staged| ==> Paths(staged[i]);
    assert !Owned(staged, Target(t));
  }

  lemma CleanKeepsWanted(before: Files, files: Files, original: Files, plans: seq<Plan>, staged: seq<Staged>)
    requires OnlyCleans(before, files, staged) && AllPaths(staged)
    requires AllWanted(before, plans) && OthersIntact(before, original, plans)
    ensures AllWanted(files, plans) && OthersIntact(files, original, plans)
  {
    forall i | 0 <= i < |plans| && Changes(plans[i]) ensures Wanted(files, plans[i]) {
      CleanKeepsTargets(before, files, original, staged, plans[i].target);
    }
    forall t | forall i :: 0 <= i < |plans| && Changes(plans[i]) ==> plans[i].target != t ensures Intact(files, original, t) {
      assert Intact(before, original, t);
      CleanKeepsTargets(before, files, original, staged, t);
    }
  }

  lemma CleanKeepsIntact(before: Files, files: Files, original: Files, staged: seq<Staged>)
    requires OnlyCleans(before, files, staged) && AllPaths(staged) && AllIntact(before, original)
    ensures AllIntact(files, original)
  {
    forall t ensures Intact(files, original, t) {
      assert Intact(before, original, t);
      CleanKeepsTargets(before, files, original, staged, t);
    }
  }

  /**
    All or nothing: on success every changed target has its planned bytes and nothing else
    changed; after a complete rollback every target is as it was; and at every moment each
    original is at its target or at a backup, until all outputs are in place.
   */
  method CommitPlans(fs: FileSystem, plans: seq<Plan>) returns (result: Result)
    requires DistinctTargets(plans)
    modifies fs
    ensures result.Done? ==> AllWanted(fs.files, plans) && OthersIntact(fs.files, old(fs.files), plans)
    ensures result.RolledBack? ==> AllIntact(fs.files, old(fs.files))
    ensures result.RollbackIncomplete? ==> NothingLost(fs.files, old(fs.files)) && OthersIntact(fs.files, old(fs.files), plans)
    ensures |fs.trace| >= |old(fs.trace)|
    ensures forall k :: |old(fs.trace)| <= k < |fs.trace| ==>
              NothingLost(fs.trace[k], old(fs.files)) || AllWanted(fs.trace[k], plans)
  {
    ghost var original := fs.files;
    var staged, ok := StageAll(fs, plans);
    AllIntactTrace(fs.trace, |old(fs.trace)|, original);
    if ok {
      ok := SnapshotsHold(fs, staged);
    }
    if !ok {
      ghost var before, steps := fs.files, |fs.trace|;
      Cleanup(fs, staged);
      CleanKeepsIntact(before, fs.files, original, staged);
      forall k | steps <= k < |fs.trace| ensures NothingLost(fs.trace[k], original) {
        CleanKeepsIntact(before, fs.trace[k], original, staged);
        IntactKeeps(fs.trace[k], original);
      }
      return RolledBack;
    }
    StagedWaits(fs.files, original, staged);
    result := CommitStaged(fs, plans, staged, original);
  }

  lemma AllIntactTrace(trace: seq<Files>, from: nat, original: Files)
    requires from <= |trace| && forall k :: from <= k < |trace| ==> AllIntact(trace[k], original)
    ensures forall k :: from <= k < |trace| ==> NothingLost(trace[k], original)
  {
    forall k | from <= k < |trace| ensures NothingLost(trace[k], original) {
      IntactKeeps(trace[k], original);
    }
  }

  lemma StagedWaits(files: Files, original: Files, staged: seq<Staged>)
    requires AllIntact(files, original)
    requires forall i :: 0 <= i < |staged| ==> Waiting(files, files, staged[i]) && Planned(files, staged[i].plan)
    ensures StagedOnly(files, original, staged)
    ensures forall i :: 0 <= i < |staged| ==> Waiting(files, original, staged[i]) && Planned(original, staged[i].plan)
  {
    forall i | 0 <= i < |staged| ensures Waiting(files, original, staged[i]) && Planned(original, staged[i].plan) {
      assert Intact(files, original, staged[i].plan.target);
    }
  }

  method CommitStaged(fs: FileSystem, ghost plans: seq<Plan>, staged: seq<Staged>, ghost original: Files) returns (result: Result)
    requires AllApart(staged) && AllPaths(staged) && PlansOf(staged) == Changing(plans) && StagedOnly(fs.files, original, staged)
    requires forall i :: 0 <= i < |staged| ==> Waiting(fs.files, original, staged[i]) && Planned(original, staged[i].plan)
    modifies fs
    ensures result.Done? ==> AllWanted(fs.files, plans) && OthersIntact(fs.files, original, plans)
    ensures result.RolledBack? ==> AllIntact(fs.files, original)
    ensures result.RollbackIncomplete? ==> NothingLost(fs.files, original) && OthersIntact(fs.files, original, plans)
    ensures |fs.trace| >= |old(fs.trace)| && fs.trace[..|old(fs.trace)|] == old(fs.trace)
    ensures forall k :: |old(fs.trace)| <= k < |fs.trace| ==> NothingLost(fs.trace[k], original) || AllWanted(fs.trace[k], plans)
  {
    hide Touched, Applied, Waiting, Rolled, Intact, Planned, Apart, Paths, Kept;
    var committed, ok := CommitAll(fs, staged, original);
    ghost var before, steps := fs.files, |fs.trace|;
    if ok {
      AppliedIsWanted(fs.files, original, plans, committed);
      Cleanup(fs, committed);
      CleanKeepsWanted(before, fs.files, original, plans, committed);
      forall k | steps <= k < |fs.trace| ensures AllWanted(fs.trace[k], plans) {
        CleanKeepsWanted(before, fs.trace[k], original, plans, committed);
      }
      return Done;
    }
    var rolled, complete := Rollback(fs, committed, original);
    before, steps := fs.files, |fs.trace|;
    Cleanup(fs, rolled);
    CleanKeepsRolled(before, fs.files, original, committed, rolled);
    forall k | steps <= k < |fs.trace| ensures NothingLost(fs.trace[k], original) {
      CleanKeepsRolled(before, fs.trace[k], original, committed, rolled);
    }
    if complete {
      RestoredAll(before, original, committed);
      CleanKeepsIntact(before, fs.files, original, rolled);
      return RolledBack;
    }
    UnplannedIntact(before, fs.files, original, plans, committed);
    return RollbackIncomplete;
  }

  lemma UnplannedIntact(before: Files, files: Files, original: Files, plans: seq<Plan>, staged: seq<Staged>)
    requires PlansOf(staged) == Changing(plans) && StagedOnly(before, original, staged)
    requires forall t :: Intact(before, original, t) ==> Intact(files, original, t)
    ensures OthersIntact(files, original, plans)
  {
    forall t | forall i :: 0 <= i < |plans| && Changes(plans[i]) ==> plans[i].target != t ensures Intact(files, original, t) {
      forall j | 0 <= j < |staged| ensures staged[j].plan.target != t {
        var i := PlannedFor(plans, staged, j);
      }
      assert Intact(before, original, t);
    }
  }

  lemma RestoredAll(files: Files, original: Files, staged: seq<Staged>)
    requires StagedOnly(files, original, staged)
    requires forall i :: 0 <= i < |staged| ==> Intact(files, original, staged[i].plan.target)
    ensures AllIntact(files, original)
  {
    forall t ensures Intact(files, original, t) {
      if exists j :: 0 <= j < |staged| && staged[j].plan.target == t {
        var j :| 0 <= j < |staged| && staged[j].plan.target == t;
      }
    }
  }
}
