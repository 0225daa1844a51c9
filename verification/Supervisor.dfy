/**
 The node supervisor's rating file and its write-ahead rollback.

 A restart that carries a new rating saves the old one, marks the change as pending, writes the new one, and
 restarts the node.  The mark is removed once the node is ready; a failed restart, or the next start of the
 supervisor, puts the saved rating back.  Every write may fail before or after the file is replaced, and the
 process may be killed between any two effects.
 */
module SupervisorFiles {
  import opened Options

  type Content = nat

  datatype Path = RatingFile | BackupFile | JournalFile

  type Disk = map<Path, Content>

  /** The mark that a rating change is in progress. */
  const PENDING: Content := 0

  /** How an atomic write ends; `Killed…` means that the process dies there. */
  datatype Write = Done | FailsBefore | FailsAfter | KilledBefore | KilledAfter

  function AtomicWrite(disk: Disk, path: Path, content: Content, w: Write): Disk {
    if w.Done? || w.FailsAfter? || w.KilledAfter? then disk[path := content] else disk
  }

  /** Removing the mark: done, refused with an error, or killed just before. */
  datatype Unlink = Removed | Refused | KilledFirst

  /** Stopping and starting the node and waiting for readiness. */
  datatype Bounce = Ready | NotReady | Raised | KilledMeanwhile

  datatype Ending = Returns | Raises | Dies

  /** What the environment does to one call of `restart`, effect by effect. */
  datatype Fate = Fate(backup: Write, journal: Write, rating: Write, bounce: Bounce, unlink: Unlink,
                       rollback: Write, again: Bounce, clear: Unlink)

  /**
   `commits` says that the rating in place now counts: the node was ready and the mark was then removed, or
   there was no rating and the default was written.
   */
  datatype Outcome = Outcome(disk: Disk, ending: Ending, commits: bool)

  function Failure(w: Write): Ending
    requires !w.Done?
  {
    if w.KilledBefore? || w.KilledAfter? then Dies else Raises
  }

  function RemoveMark(disk: Disk, u: Unlink, ending: Ending): Outcome {
    match u
    case Removed => Outcome(disk - {JournalFile}, ending, true)
    case Refused => Outcome(disk, Raises, false)
    case KilledFirst => Outcome(disk, Dies, false)
  }

  /** The three writes of a rating change, up to the first one that does not return. */
  function Apply(disk: Disk, rating: Content, f: Fate): Outcome
    requires RatingFile in disk
  {
    var d1 := AtomicWrite(disk, BackupFile, disk[RatingFile], f.backup);
    var d2 := AtomicWrite(d1, JournalFile, PENDING, f.journal);
    var d3 := AtomicWrite(d2, RatingFile, rating, f.rating);
    if !f.backup.Done? then Outcome(d1, Failure(f.backup), false)
    else if !f.journal.Done? then Outcome(d2, Failure(f.journal), false)
    else if !f.rating.Done? then Outcome(d3, Failure(f.rating), false)
    else Outcome(d3, Returns, false)
  }

  /** The handler of a failed bounce. */
  function Rollback(disk: Disk, f: Fate): Outcome {
    if JournalFile !in disk || BackupFile !in disk then Outcome(disk, Raises, false)
    else
      var restored := AtomicWrite(disk, RatingFile, disk[BackupFile], f.rollback);
      if !f.rollback.Done? then Outcome(restored, Failure(f.rollback), false)
      else match f.again
        case Ready => RemoveMark(restored, f.clear, Raises)
        case KilledMeanwhile => Outcome(restored, Dies, false)
        case _ => Outcome(restored, Raises, false)
  }

  function Bounced(disk: Disk, f: Fate): Outcome {
    match f.bounce
    case Ready => RemoveMark(disk, f.unlink, Returns)
    case KilledMeanwhile => Outcome(disk, Dies, false)
    case _ => Rollback(disk, f)
  }

  function Restart(disk: Disk, rating: Option<Content>, f: Fate): Outcome {
    if rating.None? then Bounced(disk, f)
    else if RatingFile !in disk then Outcome(disk, Raises, false)
    else
      var applied := Apply(disk, rating.value, f);
      if applied.ending.Returns? then Bounced(applied.disk, f) else applied
  }

  /** Start of the supervisor: an interrupted change is taken back; a missing rating is created. */
  function Startup(disk: Disk, default: Content, rollback: Write, clear: Unlink, create: Write): Outcome {
    if JournalFile in disk then
      if BackupFile !in disk then Outcome(disk, Raises, false)
      else
        var restored := AtomicWrite(disk, RatingFile, disk[BackupFile], rollback);
        if !rollback.Done? then Outcome(restored, Failure(rollback), false)
        else RemoveMark(restored, clear, Returns).(commits := false)
    else if RatingFile !in disk then
      var created := AtomicWrite(disk, RatingFile, default, create);
      Outcome(created, if create.Done? then Returns else Failure(create), true)
    else Outcome(disk, Returns, false)
  }

  // ---------------------------------------------------------------- crash consistency

  /**
   The committed rating is on disk: in the rating file, or in the backup while a change is pending.  Before the
   first start there is none.
   */
  predicate Recoverable(disk: Disk, committed: Option<Content>) {
    if JournalFile in disk
    then RatingFile in disk && BackupFile in disk && committed == Some(disk[BackupFile])
    else committed == (if RatingFile in disk then Some(disk[RatingFile]) else None)
  }

  /** Otherwise a pending change has another rating in place, and saving that would lose the saved one. */
  predicate SafeToApply(disk: Disk) {
    JournalFile in disk ==> RatingFile in disk && BackupFile in disk && disk[BackupFile] == disk[RatingFile]
  }

  function Committed(o: Outcome, committed: Option<Content>): Option<Content> {
    if o.commits && RatingFile in o.disk then Some(o.disk[RatingFile]) else committed
  }

  lemma RestartKeepsRecoverable(disk: Disk, committed: Option<Content>, rating: Option<Content>, f: Fate)
    requires Recoverable(disk, committed) && (rating.Some? ==> SafeToApply(disk))
    ensures var o := Restart(disk, rating, f);
            Recoverable(o.disk, Committed(o, committed))
  {
  }

  /** Commit happens only at the removal of the mark after readiness, and to what was asked for or saved. */
  lemma CommitsOnlyWhenReady(disk: Disk, committed: Option<Content>, rating: Option<Content>, f: Fate)
    requires Recoverable(disk, committed) && (rating.Some? ==> SafeToApply(disk))
    ensures var o := Restart(disk, rating, f);
            && (Committed(o, committed) != committed ==>
                  && f.bounce.Ready? && f.unlink.Removed? && JournalFile !in o.disk && o.ending.Returns?
                  && (rating.Some? ==> Committed(o, committed) == rating))
            && (rating.Some? && o.ending.Returns? ==> Committed(o, committed) == rating)
  {
  }

  /**
   However often a start is interrupted, the rating stays recoverable; once it returns, the committed rating is
   in place, or the default if there was none.
   */
  lemma StartupRestores(disk: Disk, committed: Option<Content>, default: Content, rollback: Write, clear: Unlink, create: Write)
    requires Recoverable(disk, committed)
    ensures var o := Startup(disk, default, rollback, clear, create);
            && Recoverable(o.disk, Committed(o, committed))
            && (committed.Some? ==> Committed(o, committed) == committed)
            && (o.ending.Returns? ==> Restored(o.disk, committed.GetOr(default)))
  {
  }

  /** No change is pending and this rating is in place. */
  predicate Restored(disk: Disk, rating: Content) {
    JournalFile !in disk && RatingFile in disk && disk[RatingFile] == rating
  }

  function CleanStart(disk: Disk, default: Content): Disk {
    Startup(disk, default, Done, Removed, Done).disk
  }

  const QUIET := Fate(Done, Done, Done, Ready, Removed, Done, Ready, Removed)

  /**
   The exact condition: a rating change that starts from a recoverable disk is crash consistent for every
   fate if and only if no older change is pending with a different rating in place.
   */
  lemma ConsistentIffSafe(disk: Disk, committed: Option<Content>, rating: Content, default: Content)
    requires Recoverable(disk, committed)
    ensures SafeToApply(disk) <==>
            forall f: Fate :: var o := Restart(disk, Some(rating), f);
                              Restored(CleanStart(o.disk, default), Committed(o, committed).GetOr(default))
  {
    if SafeToApply(disk) {
      forall f: Fate
        ensures var o := Restart(disk, Some(rating), f);
                Restored(CleanStart(o.disk, default), Committed(o, committed).GetOr(default))
      {
        var o := Restart(disk, Some(rating), f);
        RestartKeepsRecoverable(disk, committed, Some(rating), f);
        StartupRestores(o.disk, Committed(o, committed), default, Done, Removed, Done);
      }
    } else {
      var f := QUIET.(backup := KilledAfter);
      var o := Restart(disk, Some(rating), f);
      assert CleanStart(o.disk, default)[RatingFile] == disk[RatingFile] && Committed(o, committed) == committed;
    }
  }

  /**
   A restart is reported as done if and only if every write of the new rating got through, the node became ready
   with it and the mark could be removed; then the rating asked for is in place and nothing is pending.
   */
  lemma ReturnsIff(disk: Disk, rating: Option<Content>, f: Fate)
    ensures var o := Restart(disk, rating, f);
            && (o.ending.Returns? <==>
                  && (rating.Some? ==> RatingFile in disk && f.backup.Done? && f.journal.Done? && f.rating.Done?)
                  && f.bounce.Ready? && f.unlink.Removed?)
            && (o.ending.Returns? ==>
                  && JournalFile !in o.disk
                  && (rating.Some? ==> RatingFile in o.disk && o.disk[RatingFile] == rating.value)
                  && (rating.None? ==> o.disk == disk - {JournalFile}))
  {
  }

  /** The mark of a pending change goes only when the node was seen ready, with the new rating or with the saved one. */
  lemma MarkGoesOnlyWhenReady(disk: Disk, rating: Option<Content>, f: Fate)
    requires JournalFile in disk
    ensures var o := Restart(disk, rating, f);
            JournalFile !in o.disk ==>
              || (f.bounce.Ready? && f.unlink.Removed?)
              || (&& f.again.Ready? && f.clear.Removed? && BackupFile in o.disk && RatingFile in o.disk
                  && o.disk[RatingFile] == o.disk[BackupFile])
  {
  }

  /** A node that did not become ready with a new rating is started again with the saved one, if it can be put back. */
  lemma FailedChangeIsTakenBack(disk: Disk, rating: Content, f: Fate)
    requires RatingFile in disk && f.backup.Done? && f.journal.Done? && f.rating.Done?
    requires (f.bounce.NotReady? || f.bounce.Raised?) && f.rollback.Done?
    ensures var o := Restart(disk, Some(rating), f);
            && RatingFile in o.disk && o.disk[RatingFile] == disk[RatingFile] && !o.ending.Returns?
            && (JournalFile !in o.disk <==> f.again.Ready? && f.clear.Removed?)
  {
  }

  // ---------------------------------------------------------------- runs

  datatype Event =
    | Request(rating: Option<Content>, fate: Fate)
    | Start(rollback: Write, clear: Unlink, create: Write)
    | Kill

  /** `up` says that the process is serving; a killed or failed start leaves it down. */
  datatype Machine = Machine(disk: Disk, up: bool, committed: Option<Content>)

  predicate Can(m: Machine, e: Event) {
    match e
    case Request(_, _) => m.up
    case Start(_, _, _) => !m.up
    case Kill => true
  }

  function Next(m: Machine, default: Content, e: Event): Machine
    requires Can(m, e)
  {
    match e
    case Request(rating, f) =>
      var o := Restart(m.disk, rating, f);
      Machine(o.disk, !o.ending.Dies?, Committed(o, m.committed))
    case Start(rollback, clear, create) =>
      var o := Startup(m.disk, default, rollback, clear, create);
      Machine(o.disk, o.ending.Returns?, Committed(o, m.committed))
    case Kill => m.(up := false)
  }

  ghost predicate Run(m: Machine, default: Content, events: seq<Event>, m': Machine)
    decreases |events|
  {
    if events == [] then m == m'
    else Can(m, events[0]) && Run(Next(m, default, events[0]), default, events[1..], m')
  }

  /** Every rating change of the run starts from a disk on which it is safe. */
  ghost predicate SafeRun(m: Machine, default: Content, events: seq<Event>)
    decreases |events|
  {
    events == [] ||
    (&& Can(m, events[0])
     && (events[0].Request? && events[0].rating.Some? ==> SafeToApply(m.disk))
     && SafeRun(Next(m, default, events[0]), default, events[1..]))
  }

  /** After any safe run, a start that gets through leaves exactly the last committed rating. */
  lemma {:induction false} RollbackIsCrashConsistent(m: Machine, default: Content, events: seq<Event>, m': Machine,
                                                     rollback: Write, clear: Unlink, create: Write)
    requires Recoverable(m.disk, m.committed) && Run(m, default, events, m') && SafeRun(m, default, events)
    ensures Recoverable(m'.disk, m'.committed)
    ensures var o := Startup(m'.disk, default, rollback, clear, create);
            o.ending.Returns? ==> Restored(o.disk, m'.committed.GetOr(default))
    decreases |events|
  {
    if events == [] {
      StartupRestores(m.disk, m.committed, default, rollback, clear, create);
    } else {
      match events[0] {
        case Request(rating, f) => RestartKeepsRecoverable(m.disk, m.committed, rating, f);
        case Start(r, c, n) => StartupRestores(m.disk, m.committed, default, r, c, n);
        case Kill =>
      }
      RollbackIsCrashConsistent(Next(m, default, events[0]), default, events[1..], m', rollback, clear, create);
    }
  }

  /** In particular from an empty directory: the first start that gets through leaves the default. */
  lemma FirstStart(default: Content, events: seq<Event>, m: Machine, rollback: Write, clear: Unlink, create: Write)
    requires Run(Machine(map[], false, None), default, events, m) && SafeRun(Machine(map[], false, None), default, events)
    ensures var o := Startup(m.disk, default, rollback, clear, create);
            o.ending.Returns? ==> Restored(o.disk, m.committed.GetOr(default))
  {
    RollbackIsCrashConsistent(Machine(map[], false, None), default, events, m, rollback, clear, create);
  }

  /**
   Kills are harmless anywhere; what makes a later change unsafe is an error that leaves the process running
   with the new rating in place and the mark set.
   */
  predicate Gentle(e: Event) {
    e.Request? ==> !e.fate.rating.FailsAfter? && !e.fate.rollback.FailsBefore? && !e.fate.unlink.Refused?
  }

  lemma {:induction false} GentleRunsAreSafe(m: Machine, default: Content, events: seq<Event>, m': Machine)
    requires Recoverable(m.disk, m.committed) && (m.up ==> SafeToApply(m.disk))
    requires Run(m, default, events, m') && forall i :: 0 <= i < |events| ==> Gentle(events[i])
    ensures SafeRun(m, default, events)
    decreases |events|
  {
    if events != [] {
      assert Gentle(events[0]);
      match events[0] {
        case Request(rating, f) => RestartKeepsRecoverable(m.disk, m.committed, rating, f);
        case Start(r, c, n) => StartupRestores(m.disk, m.committed, default, r, c, n);
        case Kill =>
      }
      GentleRunsAreSafe(Next(m, default, events[0]), default, events[1..], m');
    }
  }

  /** Without that: the write of B reports an error after replacing the file, C saves B, and B survives. */
  lemma UncommittedRatingSurvives(a: Content, b: Content, c: Content) returns (events: seq<Event>, m: Machine)
    requires a != b
    ensures var fresh' := Machine(map[RatingFile := a], true, Some(a));
            Run(fresh', a, events, m) && m.up && m.committed == Some(a)
    ensures JournalFile !in m.disk && RatingFile in m.disk && m.disk[RatingFile] == b
  {
    var m0 := Machine(map[RatingFile := a], true, Some(a));
    events := [Request(Some(b), QUIET.(rating := FailsAfter)), Request(Some(c), QUIET.(backup := KilledAfter)),
               Start(Done, Removed, Done)];
    var m1 := Next(m0, a, events[0]);
    var m2 := Next(m1, a, events[1]);
    m := Next(m2, a, events[2]);
    assert Run(m, a, events[2..][1..], m);
    assert Run(m2, a, events[1..][1..], m);
  }

  // ---------------------------------------------------------------- the supervisor

  class Supervisor {
    var files: Disk

    constructor (files: Disk)
      ensures this.files == files
    {
      this.files := files;
    }

    method Replace(path: Path, content: Content, w: Write) returns (ending: Ending)
      modifies this
      ensures files == AtomicWrite(old(files), path, content, w)
      ensures ending == if w.Done? then Returns else Failure(w)
    {
      match w {
        case Done =>
          files := files[path := content];
          return Returns;
        case FailsBefore => return Raises;
        case FailsAfter =>
          files := files[path := content];
          return Raises;
        case KilledBefore => return Dies;
        case KilledAfter =>
          files := files[path := content];
          return Dies;
      }
    }

    method RemoveJournal(u: Unlink) returns (ending: Ending)
      modifies this
      ensures files == RemoveMark(old(files), u, Returns).disk && ending == RemoveMark(old(files), u, Returns).ending
    {
      match u {
        case Removed =>
          files := files - {JournalFile};
          return Returns;
        case Refused => return Raises;
        case KilledFirst => return Dies;
      }
    }

    method HandleFailure(f: Fate) returns (ending: Ending)
      modifies this
      ensures var o := Rollback(old(files), f); files == o.disk && ending == o.ending
    {
      if JournalFile !in files || BackupFile !in files {
        return Raises;
      }
      ending := Replace(RatingFile, files[BackupFile], f.rollback);
      if !ending.Returns? {
        return;
      }
      if f.again.KilledMeanwhile? {
        return Dies;
      }
      if f.again.Ready? {
        ending := RemoveJournal(f.clear);
      }
      if ending.Returns? {
        ending := Raises;
      }
    }

    method ApplyRating(rating: Content, f: Fate) returns (ending: Ending)
      requires RatingFile in files
      modifies this
      ensures var o := Apply(old(files), rating, f); files == o.disk && ending == o.ending
    {
      var previous := files[RatingFile];
      ending := Replace(BackupFile, previous, f.backup);
      if ending.Returns? {
        ending := Replace(JournalFile, PENDING, f.journal);
      }
      if ending.Returns? {
        ending := Replace(RatingFile, rating, f.rating);
      }
    }

    /** `restart`; the bounce outcomes stand for `stop`, `start` and `ready`. */
    method RestartNode(rating: Option<Content>, f: Fate) returns (ending: Ending)
      modifies this
      ensures var o := Restart(old(files), rating, f); files == o.disk && ending == o.ending
    {
      if rating.Some? {
        if RatingFile !in files {
          return Raises;
        }
        ending := ApplyRating(rating.value, f);
        if !ending.Returns? {
          return;
        }
      }
      match f.bounce {
        case Ready => ending := RemoveJournal(f.unlink);
        case KilledMeanwhile => ending := Dies;
        case _ => ending := HandleFailure(f);
      }
    }

    /** The startup part of `lifespan`. */
    method Lifespan(default: Content, rollback: Write, clear: Unlink, create: Write) returns (ending: Ending)
      modifies this
      ensures var o := Startup(old(files), default, rollback, clear, create); files == o.disk && ending == o.ending
    {
      if JournalFile in files {
        if BackupFile !in files {
          return Raises;
        }
        ending := Replace(RatingFile, files[BackupFile], rollback);
        if ending.Returns? {
          ending := RemoveJournal(clear);
        }
      } else if RatingFile !in files {
        ending := Replace(RatingFile, default, create);
      } else {
        ending := Returns;
      }
    }
  }
}
