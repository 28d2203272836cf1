/** Crash-atomic replacement of a durable JSON state file.

    The journal, the product store and the invocation arbiter all persist by writing a
    temporary file and renaming it over the primary. Where the platform refuses to rename
    over an existing file they fall back to: primary -> backup, temporary -> primary, remove
    the backup. Whoever next owns the state lock recovers from a left-over backup; when both
    files exist it first asks a progression gate whether the primary may follow the backup.

    Every file operation can succeed, throw (before or after taking effect: the directory
    sync that follows a rename can throw too) or be interrupted by a crash. */
module FileReplacement {
  import opened Prelude

  datatype Files<+T> = Files(primary: Option<T>, backup: Option<T>, temporary: Option<T>)

  datatype Fate = Done | FailsBefore | FailsAfter | CrashesBefore | CrashesAfter

  datatype Status = Ran | Threw | Crashed | Rejected

  datatype Step<+T> = Step(files: Files<T>, status: Status)

  /** The journal and the store report a failed backup removal; the arbiter keeps the backup
      silently and tolerates a missing primary. */
  datatype Dialect = JournalDialect | ArbiterDialect

  datatype ReplaceFates = ReplaceFates(
    overwrite: Fate, denied: bool, away: Fate, into: Fate, cleanup: Fate, restore: Fate, discard: Fate)

  datatype RecoverFates = RecoverFates(rename: Fate, remove: Fate, scavenge: Fate)

  const ALL_DONE := RecoverFates(Done, Done, Done)

  /** One file operation that would turn `before` into `after`. */
  function Do<T>(fate: Fate, before: Files<T>, after: Files<T>): Step<T> {
    match fate
    case Done => Step(after, Ran)
    case FailsBefore => Step(before, Threw)
    case FailsAfter => Step(after, Threw)
    case CrashesBefore => Step(before, Crashed)
    case CrashesAfter => Step(after, Crashed)
  }

  /** The caller's last cleanup: remove the temporary file, ignoring errors, and rethrow. */
  function Discard<T>(f: Files<T>, fates: ReplaceFates): Step<T> {
    var s := Do(fates.discard, f, f.(temporary := None));
    if s.status == Crashed then s else Step(s.files, Threw)
  }

  /** Put the backup back when the primary is missing, then rethrow. */
  function Restore<T>(f: Files<T>, fates: ReplaceFates): Step<T> {
    if f.primary.Some? || f.backup.None? then
      Discard(f, fates)
    else
      var s := Do(fates.restore, f, Files(f.backup, None, f.temporary));
      if s.status == Crashed then s else Discard(s.files, fates)
  }

  function Cleanup<T>(dialect: Dialect, f: Files<T>, fates: ReplaceFates): Step<T> {
    var s := Do(fates.cleanup, f, f.(backup := None));
    if s.status == Threw then
      if dialect == ArbiterDialect then Step(s.files, Ran) else Restore(s.files, fates)
    else
      s
  }

  function MoveIn<T>(dialect: Dialect, f: Files<T>, fates: ReplaceFates): Step<T> {
    if f.temporary.None? then
      Restore(f, fates)
    else
      var s := Do(fates.into, f, Files(f.temporary, f.backup, None));
      match s.status
      case Ran => Cleanup(dialect, s.files, fates)
      case Threw => Restore(s.files, fates)
      case _ => s
  }

  /** The path taken after the platform refused the overwriting rename. */
  function Fallback<T>(dialect: Dialect, f: Files<T>, fates: ReplaceFates): Step<T> {
    if f.backup.Some? then
      Discard(f, fates)
    else if f.primary.None? then
      if dialect == ArbiterDialect then MoveIn(dialect, f, fates) else Restore(f, fates)
    else
      var s := Do(fates.away, f, Files(None, f.primary, f.temporary));
      match s.status
      case Ran => MoveIn(dialect, s.files, fates)
      case Threw => Restore(s.files, fates)
      case _ => s
  }

  /** Persist `image`: write the temporary file, then replace the primary with it. */
  function Replace<T>(dialect: Dialect, f: Files<T>, image: T, fates: ReplaceFates): Step<T> {
    var staged := f.(temporary := Some(image));
    var s := Do(fates.overwrite, staged, Files(Some(image), f.backup, None));
    if s.status != Threw then s
    else if fates.denied then Fallback(dialect, s.files, fates)
    else Discard(s.files, fates)
  }

  function Scavenge<T>(f: Files<T>, fates: RecoverFates): Step<T> {
    Do(fates.scavenge, f, f.(temporary := None))
  }

  /** What the next owner of the state lock does before it reads the primary. */
  function Recover<T>(f: Files<T>, gate: (T, T) -> bool, fates: RecoverFates): Step<T> {
    if f.backup.None? then
      Scavenge(f, fates)
    else if f.primary.None? then
      var s := Do(fates.rename, f, Files(f.backup, None, f.temporary));
      if s.status == Ran then Scavenge(s.files, fates) else s
    else if !gate(f.backup.value, f.primary.value) then
      Step(f, Rejected)
    else
      var s := Do(fates.remove, f, f.(backup := None));
      if s.status == Ran then Scavenge(s.files, fates) else s
  }

  /** Successive recovery attempts; all may fail or crash except that the last one listed
      here is the one whose status is reported. */
  function RecoverAll<T>(f: Files<T>, gate: (T, T) -> bool, attempts: seq<RecoverFates>): Step<T>
    decreases |attempts|
  {
    if attempts == [] then
      Recover(f, gate, ALL_DONE)
    else
      RecoverAll(Recover(f, gate, attempts[0]).files, gate, attempts[1..])
  }

  /** The image recovery will end up with. */
  function Survivor<T>(f: Files<T>): Option<T> {
    if f.primary.Some? then f.primary else f.backup
  }

  /** Every shape the files can have while `image` replaces `prior`. */
  ghost predicate Interrupted<T>(f: Files<T>, prior: Option<T>, image: T) {
    || (f.backup.None? && (f.primary == prior || f.primary == Some(image)))
    || (f.primary.None? && f.backup.Some? && (f.backup == prior || f.backup == Some(image)))
    || (f.primary == Some(image) && f.backup.Some? && f.backup == prior)
  }

  /** A recovered directory: no backup, so the primary alone decides. */
  ghost predicate Clean<T>(f: Files<T>) {
    f.backup.None?
  }

  /** A failing replacement puts back what it can and never reports success. */
  lemma RestoreIsAtomic<T>(f: Files<T>, prior: Option<T>, image: T, fates: ReplaceFates)
    requires Interrupted(f, prior, image)
    ensures Interrupted(Restore(f, fates).files, prior, image)
    ensures Restore(f, fates).status == Threw || Restore(f, fates).status == Crashed
  {
  }

  predicate Succeeds<T(==)>(s: Step<T>, image: T) {
    s.status != Rejected && (s.status == Ran ==> s.files.primary == Some(image))
  }

  lemma MoveInIsAtomic<T>(dialect: Dialect, f: Files<T>, prior: Option<T>, image: T, fates: ReplaceFates)
    requires f.primary.None? && f.backup == prior && (f.temporary.None? || f.temporary == Some(image))
    ensures Interrupted(MoveIn(dialect, f, fates).files, prior, image) && Succeeds(MoveIn(dialect, f, fates), image)
  {
    var moved := Files(f.temporary, f.backup, None);
    RestoreIsAtomic(f, prior, image, fates);
    if f.temporary.Some? {
      RestoreIsAtomic(moved, prior, image, fates);
      RestoreIsAtomic(moved.(backup := None), prior, image, fates);
    }
  }

  lemma FallbackIsAtomic<T>(dialect: Dialect, f: Files<T>, prior: Option<T>, image: T, fates: ReplaceFates)
    requires f.backup.None? && (f.temporary.None? || f.temporary == Some(image))
    requires f.primary == prior || (f.primary == Some(image) && f.temporary.None?)
    ensures Interrupted(Fallback(dialect, f, fates).files, prior, image) && Succeeds(Fallback(dialect, f, fates), image)
  {
    RestoreIsAtomic(f, prior, image, fates);
    if f.primary.None? {
      MoveInIsAtomic(dialect, f, None, image, fates);
    } else {
      var away := Files(None, f.primary, f.temporary);
      RestoreIsAtomic(away, prior, image, fates);
      if f.temporary.Some? { MoveInIsAtomic(dialect, away, prior, image, fates); }
    }
  }

  /** From a clean directory, whatever happens during a replacement leaves one of the
      interrupted shapes: the survivor is exactly the old or the new image, and it is the new
      one when the caller was told the write succeeded. */
  lemma ReplaceIsAtomic<T>(dialect: Dialect, f: Files<T>, image: T, fates: ReplaceFates)
    requires Clean(f)
    ensures
      var s := Replace(dialect, f, image, fates);
      && s.status != Rejected
      && Interrupted(s.files, f.primary, image)
      && (Survivor(s.files) == f.primary || Survivor(s.files) == Some(image))
      && (s.status == Ran ==> s.files.primary == Some(image))
  {
    FallbackIsAtomic(dialect, f.(temporary := Some(image)), f.primary, image, fates);
    FallbackIsAtomic(dialect, Files(Some(image), f.backup, None), f.primary, image, fates);
  }

  /** An interrupted recovery never changes which image survives. */
  lemma RecoverKeepsSurvivor<T>(f: Files<T>, prior: Option<T>, image: T, gate: (T, T) -> bool, fates: RecoverFates)
    requires Interrupted(f, prior, image)
    requires prior.Some? ==> gate(prior.value, image)
    ensures
      var s := Recover(f, gate, fates);
      && s.status != Rejected
      && Interrupted(s.files, prior, image)
      && Survivor(s.files) == Survivor(f)
      && (s.status == Ran ==> s.files == Files(Survivor(f), None, None))
  {
  }

  /** Crash atomicity. Interrupt a replacement anywhere, then interrupt any number of
      recoveries anywhere: the first recovery that runs to its end leaves no backup, no
      temporary file, and a primary equal to exactly the old or the new image; if the writer
      was told that its write succeeded, it is the new one. */
  lemma {:induction false} ReplacementIsCrashAtomic<T>(
    dialect: Dialect, f: Files<T>, image: T, fates: ReplaceFates, gate: (T, T) -> bool, attempts: seq<RecoverFates>)
    requires Clean(f)
    requires f.primary.Some? ==> gate(f.primary.value, image)
    ensures
      var written := Replace(dialect, f, image, fates);
      var s := RecoverAll(written.files, gate, attempts);
      && s == Step(Files(Survivor(written.files), None, None), Ran)
      && (s.files.primary == f.primary || s.files.primary == Some(image))
      && (written.status == Ran ==> s.files.primary == Some(image))
  {
    ReplaceIsAtomic(dialect, f, image, fates);
    RecoverAllSettles(Replace(dialect, f, image, fates).files, f.primary, image, gate, attempts);
  }

  lemma {:induction false} RecoverAllSettles<T>(
    f: Files<T>, prior: Option<T>, image: T, gate: (T, T) -> bool, attempts: seq<RecoverFates>)
    requires Interrupted(f, prior, image)
    requires prior.Some? ==> gate(prior.value, image)
    ensures RecoverAll(f, gate, attempts) == Step(Files(Survivor(f), None, None), Ran)
    decreases |attempts|
  {
    if attempts == [] {
      RecoverKeepsSurvivor(f, prior, image, gate, ALL_DONE);
    } else {
      RecoverKeepsSurvivor(f, prior, image, gate, attempts[0]);
      RecoverAllSettles(Recover(f, gate, attempts[0]).files, prior, image, gate, attempts[1..]);
    }
  }

  /** A crash between the removal of the old primary and the arrival of the new one is where
      the gate matters: if it rejects the pair, recovery is stuck for ever. */
  lemma {:induction false} RejectedGateBlocksRecovery<T>(
    f: Files<T>, gate: (T, T) -> bool, attempts: seq<RecoverFates>)
    requires f.backup.Some? && f.primary.Some?
    requires !gate(f.backup.value, f.primary.value)
    ensures RecoverAll(f, gate, attempts) == Step(f, Rejected)
    decreases |attempts|
  {
    if attempts != [] {
      RejectedGateBlocksRecovery(f, gate, attempts[1..]);
    }
  }

  /** Overwriting is denied, both renames succeed, and the crash comes before the backup is removed. */
  const LEAVES_BOTH := ReplaceFates(FailsBefore, true, Done, Done, CrashesBefore, Done, Done)

  /** So a write that its gate rejects can wedge the state file. */
  lemma {:induction false} RejectedWriteCanWedge<T>(before: T, after: T, gate: (T, T) -> bool, attempts: seq<RecoverFates>)
    requires !gate(before, after)
    ensures
      var written := Replace(JournalDialect, Files(Some(before), None, None), after, LEAVES_BOTH);
      && written == Step(Files(Some(after), Some(before), None), Crashed)
      && RecoverAll(written.files, gate, attempts) == Step(written.files, Rejected)
  {
    RejectedGateBlocksRecovery(Files(Some(after), Some(before), None), gate, attempts);
  }

  /** The directory entries of one state file, changed one operation at a time. */
  class StateFiles<T(==)> {
    var primary: Option<T>
    var backup: Option<T>
    var temporary: Option<T>

    function Entries(): Files<T>
      reads this
    {
      Files(primary, backup, temporary)
    }

    constructor ()
      ensures Entries() == Files(None, None, None)
    {
      primary, backup, temporary := None, None, None;
    }

    /** Runs one operation towards `after`; the status says whether the caller sees an error
        or is gone. */
    method Attempt(fate: Fate, after: Files<T>) returns (status: Status)
      modifies this
      ensures Step(Entries(), status) == Do(fate, old(Entries()), after)
    {
      match fate {
        case Done => primary, backup, temporary := after.primary, after.backup, after.temporary; status := Ran;
        case FailsBefore => status := Threw;
        case FailsAfter => primary, backup, temporary := after.primary, after.backup, after.temporary; status := Threw;
        case CrashesBefore => status := Crashed;
        case CrashesAfter => primary, backup, temporary := after.primary, after.backup, after.temporary; status := Crashed;
      }
    }

    method RestoreBackup(fates: ReplaceFates) returns (status: Status)
      modifies this
      ensures Step(Entries(), status) == Restore(old(Entries()), fates)
    {
      if primary.None? && backup.Some? {
        status := Attempt(fates.restore, Files(backup, None, temporary));
        if status == Crashed { return; }
      }
      status := Attempt(fates.discard, Files(primary, backup, None));
      if status != Crashed { status := Threw; }
    }

    /** The replacement as the source performs it, one file operation after another. */
    method ReplaceStateFile(dialect: Dialect, image: T, fates: ReplaceFates) returns (status: Status)
      modifies this
      ensures Step(Entries(), status) == Replace(dialect, old(Entries()), image, fates)
    {
      temporary := Some(image);
      status := Attempt(fates.overwrite, Files(temporary, backup, None));
      if status != Threw { return; }
      if !fates.denied || backup.Some? {
        status := Attempt(fates.discard, Files(primary, backup, None));
        if status != Crashed { status := Threw; }
        return;
      }
      if primary.Some? {
        status := Attempt(fates.away, Files(None, primary, temporary));
        if status == Crashed { return; }
        if status == Threw { status := RestoreBackup(fates); return; }
      } else if dialect != ArbiterDialect {
        status := RestoreBackup(fates);
        return;
      }
      if temporary.None? { status := RestoreBackup(fates); return; }
      status := Attempt(fates.into, Files(temporary, backup, None));
      if status == Crashed { return; }
      if status == Threw { status := RestoreBackup(fates); return; }
      status := Attempt(fates.cleanup, Files(primary, None, temporary));
      if status == Threw {
        if dialect == ArbiterDialect { status := Ran; } else { status := RestoreBackup(fates); }
      }
    }

    method RecoverReplacement(gate: (T, T) -> bool, fates: RecoverFates) returns (status: Status)
      modifies this
      ensures Step(Entries(), status) == Recover(old(Entries()), gate, fates)
    {
      if backup.Some? {
        if primary.None? {
          status := Attempt(fates.rename, Files(backup, None, temporary));
        } else {
          if !gate(backup.value, primary.value) { return Rejected; }
          status := Attempt(fates.remove, Files(primary, None, temporary));
        }
        if status != Ran { return; }
      }
      status := Attempt(fates.scavenge, Files(primary, backup, None));
    }
  }
}
