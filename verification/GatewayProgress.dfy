/**
 The journal record of one request as the node's code keeps it: fields changed in place, copied to disk after
 each change.  Every method is proved to be the corresponding function on a record and its file.
 */
module GatewayProgressObject {
  import opened Options
  import opened SessionRows
  import J = NodeJournal
  import opened NodeJournal

  class Disk {
    var files: map<Id, File>

    constructor ()
      ensures files == map[]
    {
      files := map[];
    }
  }

  /** Whether a request that names a stake limit may transfer this amount. */
  method CheckGatewayStake(limit: Option<int>, amount: int) returns (ok: bool)
    ensures limit.None? ==> ok
    ensures limit.Some? && ok ==> amount <= limit.value
    ensures limit.Some? && !ok && limit.value > 0 ==> amount > limit.value
    ensures limit.Some? && limit.value <= 0 ==> !ok
  {
    if limit.Some? && (limit.value <= 0 || amount > limit.value) {
      return false;
    }
    return true;
  }

  class GatewayProgress {
    const path: Option<Id>
    var stage: Stage
    var completed: bool
    var httpStatus: nat
    var sessionId: Option<Id>
    var transactions: seq<Tx>

    ghost function View(): Progress
      reads this
    {
      Progress(stage, completed, httpStatus, sessionId, transactions)
    }

    /** The journal file was created when the request began, and nothing removes it. */
    ghost predicate HasFile(disk: Disk)
      reads disk
    {
      path.Some? ==> path.value in disk.files
    }

    /** The record and its file; a request without an operation id has no file. */
    ghost function Rec(disk: Disk): Entry
      reads this, disk
    {
      Entry(View(), if path.Some? && path.value in disk.files then disk.files[path.value] else Blank)
    }

    ghost function Effective(how: Persist): Persist {
      if path.None? then Stored else how
    }

    ghost function FilesAfter(files: map<Id, File>, e: Entry): map<Id, File> {
      if path.None? then files else files[path.value := e.file]
    }

    /** This record and this disk became `e`. */
    twostate predicate Became(disk: Disk, e: Entry)
      reads this, disk
    {
      View() == e.memory && disk.files == FilesAfter(old(disk.files), e)
    }

    constructor (path: Option<Id>)
      ensures View() == BEGUN && this.path == path
    {
      this.path := path;
      stage, completed, httpStatus, sessionId, transactions := StageNotSubmitted, false, 0, None, [];
    }

    /** An id is accepted once: the file is created exclusively, before anything is tried. */
    static method BeginGatewayOperation(disk: Disk, id: Option<Id>, configured: bool, created: bool, how: Persist)
      returns (p: GatewayProgress?)
      modifies disk
      ensures p != null ==> fresh(p) && p.View() == BEGUN && p.path == id
      ensures id.None? ==> p != null && disk.files == old(disk.files)
      ensures var n := Node(old(disk.files), map[], {}, map[]);
              id.Some? ==>
                var n' := BeginOn(n, id.value, OpenTx, true, configured && created, how);
                disk.files == n'.files && (p != null <==> id.value in n'.jobs)
    {
      if id.None? {
        p := new GatewayProgress(None);
        return;
      }
      if !configured || id.value in disk.files || !created {
        return null;
      }
      disk.files := disk.files[id.value := Blank];
      var record := new GatewayProgress(id);
      var ok := record.Persist(disk, how);
      p := if ok then record else null;
    }

    method Persist(disk: Disk, how: J.Persist) returns (ok: bool)
      requires HasFile(disk)
      modifies disk
      ensures ok <==> Effective(how).Stored?
      ensures disk.files == FilesAfter(old(disk.files), Entry(View(), Copy(old(Rec(disk)).file, View(), how)))
    {
      if path.None? {
        return true;
      }
      match how {
        case Stored =>
          disk.files := disk.files[path.value := Written(Progress(stage, completed, httpStatus, sessionId, transactions))];
          return true;
        case Lost =>
          return false;
        case StoredButFailed =>
          disk.files := disk.files[path.value := Written(Progress(stage, completed, httpStatus, sessionId, transactions))];
          return false;
      }
    }

    method Attempt(disk: Disk, kind: TxKind, how: J.Persist) returns (ok: bool)
      requires HasFile(disk)
      modifies `stage, disk
      ensures Became(disk, J.Attempt(old(Rec(disk)), kind, Effective(how)))
      ensures ok <==> Effective(how).Stored?
    {
      var previous := stage;
      stage := StageSubmitting(kind);
      ok := Persist(disk, how);
      if !ok {
        stage := previous;
      }
    }

    method Record(disk: Disk, tx: Option<Tx>, how: J.Persist)
      requires HasFile(disk)
      modifies `transactions, disk
      ensures tx.Some? ==> Became(disk, J.Record(old(Rec(disk)), tx.value, Effective(how)))
      ensures tx.None? ==> View() == old(View()) && disk.files == old(disk.files)
    {
      if tx.Some? {
        transactions := transactions + [tx.value];
        var _ := Persist(disk, how);
      }
    }

    method Session(disk: Disk, session: Id, how: J.Persist)
      requires HasFile(disk)
      modifies `sessionId, disk
      ensures Became(disk, NameSession(old(Rec(disk)), session, Effective(how)))
    {
      sessionId := Some(session);
      var _ := Persist(disk, how);
    }

    method Finish(disk: Disk, status: nat, how: J.Persist)
      requires HasFile(disk)
      modifies `completed, `httpStatus, disk
      ensures Became(disk, J.Finish(old(Rec(disk)), status, Effective(how)))
    {
      completed, httpStatus := true, status;
      var _ := Persist(disk, how);
    }

    method BuildFailure(disk: Disk, kind: TxKind, how: J.Persist)
      requires HasFile(disk)
      modifies `stage, disk
      ensures Became(disk, J.BuildFailure(old(Rec(disk)), kind, Effective(how)))
    {
      for i := 0 to |transactions|
        invariant forall k :: 0 <= k < i ==> transactions[k].kind != kind
      {
        if transactions[i].kind == kind {
          return;
        }
      }
      stage := StageNotSubmitted;
      var _ := Persist(disk, how);
    }
  }
}
