/**
 * Swapping a validated workspace into place by renames, with rollback, while operations fail before or after
 * taking effect and other processes change the target path between any two system calls.
 */
module WorkspaceRestore {
  import opened Prelude

  /** What is at a path; a link may point nowhere. */
  datatype Node = Absent | Folder(files: map<string, string>) | File(content: string) | Link(destination: string, dangling: bool)

  /** How a system call ends: `Before` fails without effect, `After` has its effect and still raises. */
  datatype Fault = Fine | Before | After

  datatype Outcome = Restored | Raised

  predicate HasContents(n: Node) {
    match n
    case Absent => false
    case Folder(files) => files != map[]
    case _ => true
  }

  predicate Exists(n: Node) {
    n.Folder? || n.File? || (n.Link? && !n.dangling)
  }

  /** rename(2): a folder replaces nothing or an empty folder, anything else replaces nothing or a non-folder. */
  predicate CanRename(source: Node, target: Node) {
    match source
    case Absent => false
    case Folder(_) => target.Absent? || (target.Folder? && target.files == map[])
    case _ => !target.Folder?
  }

  /** A folder never renames over content. */
  lemma FolderRenameIsSafe(source: Node, target: Node)
    requires source.Folder? && CanRename(source, target)
    ensures !HasContents(target)
  {
  }

  // ---- The run as a function of failures and interference ----

  /** When which system call fails, and what other processes make of the target before it. */
  datatype World = World(faults: nat -> Fault, others: (nat, Node) -> Node)

  /**
   * The target and the two private paths in the scratch directory; `theirs` is what other processes last made of the
   * target and was not taken away since, `taken` what the restore moved into the scratch directory.
   */
  datatype Moment = Moment(target: Node, staged: Node, previous: Node, clock: nat, theirs: Node, taken: Node)

  function Elapse(w: World, m: Moment): Moment {
    var now := w.others(m.clock, m.target);
    m.(target := now, clock := m.clock + 1, theirs := if now != m.target then now else m.theirs)
  }

  function Ticked(m: Moment): Moment {
    m.(clock := m.clock + 1)
  }

  function There(w: World, m: Moment): (bool, Moment) {
    var m1 := Elapse(w, m);
    if Exists(m1.target) then (true, m1)
    else
      var m2 := Elapse(w, m1);
      (m2.target.Link?, m2)
  }

  function Contents(w: World, m: Moment): (Result<bool>, Moment) {
    var m1 := Elapse(w, m);
    if m1.target.Link? then (Success(true), m1)
    else
      var m2 := Elapse(w, m1);
      if !Exists(m2.target) then (Success(false), m2)
      else
        var m3 := Elapse(w, m2);
        if !m3.target.Folder? then (Success(true), m3)
        else
          var m4 := Elapse(w, m3);
          if !m4.target.Folder? then (Failure, m4) else (Success(m4.target.files != map[]), m4)
  }

  function Take(w: World, m: Moment): (bool, Moment) {
    var m1 := Elapse(w, m);
    var fault, m2 := w.faults(m1.clock), Ticked(m1);
    if fault == Before || m2.target.Absent? then (false, m2)
    else (fault != After, m2.(previous := m2.target, target := Absent, taken := m2.target, theirs := Absent))
  }

  function RemoveEmpty(w: World, m: Moment): (bool, Moment) {
    var m1 := Elapse(w, m);
    var fault, m2 := w.faults(m1.clock), Ticked(m1);
    if fault == Before || m2.target != Folder(map[]) then (false, m2)
    else (fault != After, m2.(target := Absent, theirs := Absent))
  }

  function Put(w: World, m: Moment): (bool, Moment) {
    var m1 := Elapse(w, m);
    var fault, m2 := w.faults(m1.clock), Ticked(m1);
    if fault == Before || !CanRename(m2.staged, m2.target) then (false, m2)
    else (fault != After, m2.(target := m2.staged, staged := Absent))
  }

  /** Whether the swap succeeded, whether an empty target was removed, and where things are. */
  function Swapped(w: World, m: Moment, force: bool): (bool, bool, Moment) {
    var (there, m1) := There(w, m);
    if !there then var (ok, m2) := Put(w, m1); (ok, false, m2)
    else if force then
      var (ok, m2) := Take(w, m1);
      if !ok then (false, false, m2) else var (put, m3) := Put(w, m2); (put, false, m3)
    else
      var (full, m2) := Contents(w, m1);
      if full != Success(false) then (false, false, m2)
      else
        var (ok, m3) := RemoveEmpty(w, m2);
        if !ok then (false, false, m3) else var (put, m4) := Put(w, m3); (put, true, m4)
  }

  /** The rollback's last moment before its rename: nothing seen at the target, then others once more. */
  function BeforeRollback(w: World, m: Moment): Moment {
    Elapse(w, There(w, m).1)
  }

  /** The rollback's rename takes place. */
  predicate RollsBack(w: World, m: Moment) {
    var now := BeforeRollback(w, m);
    && !m.previous.Absent? && !There(w, m).0
    && w.faults(now.clock) != Before && CanRename(m.previous, now.target)
  }

  function Recovered(w: World, m: Moment, emptied: bool): (bool, Moment) {
    if !m.previous.Absent? then
      var (there, m1) := There(w, m);
      if there then (true, m1)
      else
        var m2 := BeforeRollback(w, m);
        if !RollsBack(w, m) then (true, Ticked(m2))
        else (w.faults(m2.clock) == After, Ticked(m2).(target := m.previous, previous := Absent))
    else if emptied then
      var m1 := Elapse(w, m);
      if Exists(m1.target) then (false, m1)
      else
        var m2 := Elapse(w, m1);
        var fault, m3 := w.faults(m2.clock), Ticked(m2);
        (false, if fault != Before && m3.target.Absent? then m3.(target := Folder(map[])) else m3)
    else (false, m)
  }

  /** The preflight and everything up to the start of the swap; None if it raises before. */
  function Prepared(w: World, m: Moment, force: bool, workspace: Result<map<string, string>>): (bool, Moment) {
    var (there, m1) := There(w, m);
    var (full, m2) := if there then Contents(w, m1) else (Success(false), m1);
    if full.Failure? || (full.value && !force) then (false, m2)
    else
      var m3 := Elapse(w, m2);
      if workspace.Failure? then (false, m3) else (true, m3.(staged := Folder(workspace.value)))
  }

  function Restore(w: World, m: Moment, force: bool, workspace: Result<map<string, string>>): (Outcome, Moment) {
    var (ready, m1) := Prepared(w, m, force, workspace);
    if !ready then (Raised, m1)
    else
      var (ok, emptied, m2) := Swapped(w, m1, force);
      if ok then (Restored, m2.(previous := Absent, staged := Absent))
      else
        var (preserve, m3) := Recovered(w, m2, emptied);
        (Raised, m3.(previous := if preserve then m3.previous else Absent, staged := Absent))
  }

  // ---- Exactly when the rollback replaces what others have put at the target ----

  /** Content that other processes have at the target is still there. */
  predicate Kept(m: Moment) {
    HasContents(m.theirs) ==> m.target == m.theirs
  }

  /**
   * What was taken is no folder, nothing is seen at the target, something else that is no folder appears before the
   * rename, and the rename takes effect.
   */
  predicate RollbackReplaces(w: World, m: Moment) {
    && RollsBack(w, m) && !m.previous.Folder?
    && HasContents(BeforeRollback(w, m).target) && BeforeRollback(w, m).target != m.previous
  }

  /** Where the swap of a run ends, before any recovery. */
  function SwapEnd(w: World, m: Moment, force: bool, workspace: Result<map<string, string>>): (bool, bool, Moment) {
    Swapped(w, Prepared(w, m, force, workspace).1, force)
  }

  /** The rollback of a whole run replaces what other processes have put at the target. */
  predicate Replaces(w: World, m: Moment, force: bool, workspace: Result<map<string, string>>) {
    && Prepared(w, m, force, workspace).0
    && !SwapEnd(w, m, force, workspace).0 && RollbackReplaces(w, SwapEnd(w, m, force, workspace).2)
  }

  // ---- A run that loses another process's file ----

  /** The final rename of the swap fails, and `b` is created between the rollback's check and its rename. */
  function LosingWorld(): World {
    World(k => if k == 9 then Before else Fine, (k, n) => if k == 12 then File("b") else n)
  }

  const LOSING_START := Moment(File("a"), Absent, Absent, 0, File("a"), Absent)

  lemma LosingSwap()
    ensures var w, ready := LosingWorld(), LOSING_START.(clock := 5, staged := Folder(map[]));
      && Prepared(w, LOSING_START, true, Success(map[])) == (true, ready)
      && Swapped(w, ready, true) == (false, false, Moment(Absent, Folder(map[]), File("a"), 10, Absent, File("a")))
  {
    var w := LosingWorld();
    assert There(w, LOSING_START) == (true, LOSING_START.(clock := 1));
    assert Contents(w, LOSING_START.(clock := 1)) == (Success(true), LOSING_START.(clock := 4));
    var ready := LOSING_START.(clock := 5, staged := Folder(map[]));
    assert There(w, ready) == (true, ready.(clock := 6));
    assert Take(w, ready.(clock := 6)) == (true, Moment(Absent, Folder(map[]), File("a"), 8, Absent, File("a")));
  }

  /** With `force`, restoring over a file can replace a file that another process has just created there. */
  lemma ForcedRestoreLosesFile()
    ensures Replaces(LosingWorld(), LOSING_START, true, Success(map[]))
    ensures var (outcome, m) := Restore(LosingWorld(), LOSING_START, true, Success(map[]));
      outcome == Raised && m.target == File("a") && m.theirs == File("b") && !Kept(m)
  {
    LosingSwap();
    var w, m := LosingWorld(), Moment(Absent, Folder(map[]), File("a"), 10, Absent, File("a"));
    assert There(w, m) == (false, m.(clock := 12));
    assert BeforeRollback(w, m) == m.(clock := 13, target := File("b"), theirs := File("b"));
  }

  // ---- An empty target ----

  /** Where removing an empty target, the rename into place and re-creating the target stand among the system calls. */
  const RMDIR := 12
  const RENAME := 14
  const MKDIR := 17

  /**
   * Restoring to an empty folder that nobody else touches.  If the rename into place fails the folder is there again,
   * unless creating it fails too; it stays removed when removing it succeeds and still raises.
   */
  lemma EmptyTargetComesBack(w: World, m: Moment, files: map<string, string>)
    requires (forall k, n :: w.others(k, n) == n)
    requires m.target == Folder(map[]) && m.previous.Absent?
    ensures var (outcome, m') := Restore(w, m, false, Success(files));
      var rmdir, rename, mkdir :=
        w.faults(m.clock + RMDIR), w.faults(m.clock + RENAME), w.faults(m.clock + MKDIR);
      && (rmdir == Before ==> outcome == Raised && m'.target == Folder(map[]))
      && (rmdir == After ==> outcome == Raised && m'.target == Absent)
      && (rmdir == Fine && rename == Before ==>
            outcome == Raised && m'.target == if mkdir == Before then Absent else Folder(map[]))
      && (rmdir == Fine && rename == After ==> outcome == Raised && m'.target == Folder(files))
      && (rmdir == Fine && rename == Fine ==> outcome == Restored && m'.target == Folder(files))
  {
    assert There(w, m) == (true, m.(clock := m.clock + 1));
    assert Contents(w, m.(clock := m.clock + 1)) == (Success(false), m.(clock := m.clock + 5));
    var ready := m.(clock := m.clock + 6, staged := Folder(files));
    assert Prepared(w, m, false, Success(files)) == (true, ready);
    assert There(w, ready) == (true, ready.(clock := m.clock + 7));
    assert Contents(w, ready.(clock := m.clock + 7)) == (Success(false), ready.(clock := m.clock + 11));
    EmptiedSwap(w, ready.(clock := m.clock + 11));
  }

  /** From the removal of the empty target on. */
  lemma EmptiedSwap(w: World, m: Moment)
    requires (forall k, n :: w.others(k, n) == n)
    requires m.target == Folder(map[]) && m.previous.Absent? && m.staged.Folder?
    ensures var (ok, m3) := RemoveEmpty(w, m);
      var rmdir, rename, mkdir := w.faults(m.clock + 1), w.faults(m.clock + 3), w.faults(m.clock + 6);
      && (ok <==> rmdir == Fine) && m3.clock == m.clock + 2 && m3.previous.Absent?
      && m3.target == (if rmdir == Before then Folder(map[]) else Absent)
      && (ok ==>
          var (put, m4) := Put(w, m3);
          && (put <==> rename == Fine) && m4.previous.Absent?
          && m4.target == (if rename == Before then Absent else m.staged)
          && var back := if rename == After then m.staged else if mkdir == Before then Absent else Folder(map[]);
             (!put ==> Recovered(w, m4, true).1.target == back))
  {
  }

  /** The paths as the restore changes them, one system call after the other. */
  class Disk {
    var target: Node
    var staged: Node
    var previous: Node
    var clock: nat
    const faults: nat -> Fault
    const others: (nat, Node) -> Node
    /** What other processes last made of the target and was not taken away since. */
    ghost var theirs: Node
    /** What the restore moved into the scratch directory. */
    ghost var taken: Node

    constructor (target: Node, faults: nat -> Fault, others: (nat, Node) -> Node)
      ensures this.target == target == theirs && staged == previous == taken == Absent
    {
      this.target, this.theirs := target, target;
      staged, previous, taken, clock := Absent, Absent, Absent, 0;
      this.faults, this.others := faults, others;
    }

    ghost function Now(): Moment
      reads this
    {
      Moment(target, staged, previous, clock, theirs, taken)
    }

    ghost function Surroundings(): World {
      World(faults, others)
    }

    /** Content other processes have at the target is still there. */
    ghost predicate TheirsKept()
      reads this
    {
      Kept(Now())
    }

    /** Before the original is taken: the target is as others left it. */
    ghost predicate Untouched(workspace: Node)
      reads this
    {
      target == theirs && staged == workspace && previous.Absent? && taken.Absent?
    }

    /** After the original is taken: it is in the scratch directory, whatever is at the target is not ours. */
    ghost predicate Taken(workspace: Node)
      reads this
    {
      target == theirs && staged == workspace && !taken.Absent? && previous == taken
    }

    /** No operation fails and nobody else touches the target. */
    ghost predicate Quiet() {
      (forall k, n :: others(k, n) == n) && (forall k :: faults(k) == Fine)
    }

    /** Another process may run: anything may happen to the target. */
    method Others()
      modifies this`target, this`clock, this`theirs
      ensures target == theirs || (target == old(target) && theirs == old(theirs))
      ensures target == others(old(clock), old(target))
      ensures Now() == Elapse(Surroundings(), old(Now()))
    {
      var now := others(clock, target);
      clock := clock + 1;
      if now != target { theirs := now; }
      target := now;
    }

    /** The next system call's fate. */
    method NextFault() returns (f: Fault)
      modifies this`clock
      ensures f == faults(old(clock))
      ensures Now() == Ticked(old(Now()))
    {
      f := faults(clock);
      clock := clock + 1;
    }

    /** `target.exists() or target.is_symlink()`, two system calls. */
    method TargetThere() returns (r: bool)
      modifies this`target, this`clock, this`theirs
      ensures target == theirs || (target == old(target) && theirs == old(theirs))
      ensures Quiet() ==> target == old(target) && (r <==> !target.Absent?)
      ensures (r, Now()) == There(Surroundings(), old(Now()))
    {
      Others();
      if Exists(target) { return true; }
      Others();
      r := target.Link?;
    }

    /** `_target_has_contents`: link, existence, folder and listing are looked at one after the other. */
    method TargetHasContents() returns (r: Result<bool>)
      modifies this`target, this`clock, this`theirs
      ensures target == theirs || (target == old(target) && theirs == old(theirs))
      ensures r == Success(false) ==> !Exists(target) || !HasContents(target)
      ensures Quiet() ==> target == old(target) && r == Success(HasContents(target))
      ensures (r, Now()) == Contents(Surroundings(), old(Now()))
    {
      Others();
      if target.Link? { return Success(true); }
      Others();
      if !Exists(target) { return Success(false); }
      Others();
      if !target.Folder? { return Success(true); }
      Others();
      if !target.Folder? { return Failure; }
      return Success(target.files != map[]);
    }

    /** `target.replace(previous)`. */
    method TakeTarget(ghost workspace: Node) returns (r: Result<()>)
      requires Untouched(workspace)
      modifies this
      ensures staged == old(staged)
      ensures r.Success? ==> Taken(workspace) && target.Absent?
      ensures r.Failure? ==> Taken(workspace) || Untouched(workspace)
      ensures Quiet() && !old(target).Absent? ==> r.Success? && taken == old(target)
      ensures (r.Success?, Now()) == Take(Surroundings(), old(Now()))
    {
      Others();
      var fault := NextFault();
      if fault == Before || target.Absent? { return Failure; }
      taken, theirs := target, Absent;
      previous, target := target, Absent;
      return if fault == After then Failure else Success(());
    }

    /** `target.rmdir()`. */
    method RemoveEmptyTarget(ghost workspace: Node) returns (r: Result<()>)
      requires Untouched(workspace)
      modifies this
      ensures Untouched(workspace)
      ensures r.Success? ==> target.Absent?
      ensures Quiet() && old(target) == Folder(map[]) ==> r.Success?
      ensures (r.Success?, Now()) == RemoveEmpty(Surroundings(), old(Now()))
    {
      Others();
      var fault := NextFault();
      if fault == Before || target != Folder(map[]) { return Failure; }
      target, theirs := Absent, Absent;
      return if fault == After then Failure else Success(());
    }

    /** `staged.replace(target)`. */
    method PutStaged(ghost workspace: Node) returns (r: Result<()>)
      requires workspace.Folder? && (Untouched(workspace) || Taken(workspace))
      modifies this
      ensures taken == old(taken) && previous == old(previous) && TheirsKept()
      ensures r.Success? ==> target == workspace
      ensures r.Failure? ==> target == workspace || (old(Untouched(workspace)) && Untouched(workspace)) || Taken(workspace)
      ensures Quiet() && old(target).Absent? ==> r.Success?
      ensures (r.Success?, Now()) == Put(Surroundings(), old(Now()))
    {
      Others();
      var fault := NextFault();
      if fault == Before || !CanRename(staged, target) { return Failure; }
      FolderRenameIsSafe(staged, target);
      target, staged := staged, Absent;
      return if fault == After then Failure else Success(());
    }

    /** The body of the inner `try`: `emptied` says that an empty target folder was removed. */
    method Swap(force: bool, ghost workspace: Node) returns (r: Result<()>, emptied: bool)
      requires workspace.Folder? && Untouched(workspace)
      modifies this
      ensures TheirsKept() && (!force ==> taken.Absent?) && (taken.Absent? ==> previous.Absent?)
      ensures !taken.Absent? ==> previous == taken
      ensures r.Success? ==> target == workspace
      ensures r.Failure? ==> target == workspace || target == theirs
      ensures Quiet() && (force || !HasContents(old(target))) ==> r.Success?
      ensures (r.Success?, emptied, Now()) == Swapped(Surroundings(), old(Now()), force)
    {
      emptied := false;
      var there := TargetThere();
      if there {
        if force {
          r := TakeTarget(workspace);
          if r.Failure? { return; }
        } else {
          var full := TargetHasContents();
          if full != Success(false) { return Failure, false; }
          r := RemoveEmptyTarget(workspace);
          if r.Failure? { return; }
          emptied := true;
        }
      }
      r := PutStaged(workspace);
    }

    /** The `except BaseException` handler; true means that the scratch directory must be kept. */
    method Recover(emptied: bool) returns (preserve: bool)
      requires TheirsKept() && (target == theirs || Exists(target))
      requires (taken.Absent? ==> previous.Absent?) && (!taken.Absent? ==> previous == taken)
      modifies this
      ensures taken == old(taken)
      ensures !taken.Absent? ==> (preserve && previous == taken) || target == taken
      ensures taken.Absent? ==> !preserve
      ensures TheirsKept() <==> !RollbackReplaces(Surroundings(), old(Now()))
      ensures (preserve, Now()) == Recovered(Surroundings(), old(Now()), emptied)
    {
      preserve := false;
      if !previous.Absent? {
        var there := TargetThere();
        if there { return true; }
        Others();
        var fault := NextFault();
        if fault == Before || !CanRename(previous, target) { return true; }
        target, previous := previous, Absent;
        preserve := fault == After;
      } else if emptied {
        Others();
        if !Exists(target) {
          Others();
          var fault := NextFault();
          if fault != Before && target.Absent? { target := Folder(map[]); }
        }
      }
    }

    /** The preflight, and the workspace put into the scratch directory; false if something raises before that. */
    method Prepare(force: bool, workspace: Result<map<string, string>>) returns (ready: bool)
      requires target == theirs && staged == previous == taken == Absent
      modifies this
      ensures (ready, Now()) == Prepared(Surroundings(), old(Now()), force, workspace)
      ensures target == theirs && previous == taken == Absent
      ensures if ready then workspace.Success? && staged == Folder(workspace.value) else staged.Absent?
      ensures Quiet() ==> target == old(target) && (ready <==> workspace.Success? && (force || !HasContents(target)))
    {
      var there := TargetThere();
      if there {
        var full := TargetHasContents();
        if full.Failure? || (full.value && !force) { return false; }
      }
      Others();
      if workspace.Failure? { return false; }
      staged := Folder(workspace.value);
      return true;
    }

    /**
     * The whole restore, once the archive has been read; `workspace` is what extraction and validation give.
     * On return the target is the validated workspace.  On any error the original is at the target or in the
     * preserved scratch directory.  What other processes have put at the target is lost exactly when the rollback
     * replaces it, which takes `force` and an original that is no folder; otherwise nothing of theirs is lost.
     */
    method RestoreBackup(force: bool, workspace: Result<map<string, string>>) returns (outcome: Outcome)
      requires target == theirs && staged == previous == taken == Absent
      modifies this
      ensures outcome == Restored ==> workspace.Success? && target == Folder(workspace.value)
      ensures outcome == Raised && !taken.Absent? ==> target == taken || previous == taken
      ensures TheirsKept() <==> !Replaces(Surroundings(), old(Now()), force, workspace)
      ensures outcome == Restored || !force || taken.Folder? ==> TheirsKept()
      ensures !force ==> taken.Absent?
      ensures (outcome, Now()) == Restore(Surroundings(), old(Now()), force, workspace)
      ensures staged.Absent?
      ensures Quiet() && workspace.Success? ==> (outcome == Restored <==> force || !HasContents(old(target)))
      ensures Quiet() && outcome == Raised ==> target == old(target)
    {
      var ready := Prepare(force, workspace);
      if !ready { return Raised; }
      var r, emptied := Swap(force, Folder(workspace.value));
      if r.Success? {
        previous, staged := Absent, Absent;
        return Restored;
      }
      var preserve := Recover(emptied);
      if !preserve { previous := Absent; }
      staged := Absent;
      return Raised;
    }
  }
}
