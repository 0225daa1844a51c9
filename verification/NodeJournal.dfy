/**
 The node's operation journal, and why the gateway may believe it.

 Every money-moving request carries an operation id.  The node keeps one progress record per request in
 memory and copies it to a file of its own; a copy may fail before or after the new file is in place, and the
 node may die at any point.  The gateway later reads that file through the helper.
 */
module NodeJournal {
  import opened Options
  import opened SessionRows

  /** How one copy to disk ends: in place, not in place with an error, in place but reported as an error. */
  datatype Persist = Stored | Lost | StoredButFailed

  /** A journal file: just created, or holding a record. */
  datatype File = Blank | Written(progress: Progress)

  const BEGUN := Progress(StageNotSubmitted, false, 0, None, [])

  function Copy(file: File, progress: Progress, how: Persist): File {
    if how.Lost? then file else Written(progress)
  }

  /** A record together with its file. */
  datatype Entry = Entry(memory: Progress, file: File)

  /** `GatewayAttempt`: announce the kind; on a failed copy take the announcement back and refuse. */
  function Attempt(e: Entry, kind: TxKind, how: Persist): Entry {
    var announced := e.memory.(stage := StageSubmitting(kind));
    Entry(if how.Stored? then announced else e.memory, Copy(e.file, announced, how))
  }

  function Record(e: Entry, tx: Tx, how: Persist): Entry {
    var memory := e.memory.(transactions := e.memory.transactions + [tx]);
    Entry(memory, Copy(e.file, memory, how))
  }

  predicate Recorded(transactions: seq<Tx>, kind: TxKind) {
    exists i :: 0 <= i < |transactions| && transactions[i].kind == kind
  }

  /** `GatewayBuildFailure`: nothing of this kind was recorded, so nothing of this kind was sent. */
  function BuildFailure(e: Entry, kind: TxKind, how: Persist): Entry {
    if Recorded(e.memory.transactions, kind) then e
    else
      var memory := e.memory.(stage := StageNotSubmitted);
      Entry(memory, Copy(e.file, memory, how))
  }

  function NameSession(e: Entry, session: Id, how: Persist): Entry {
    var memory := e.memory.(sessionId := Some(session));
    Entry(memory, Copy(e.file, memory, how))
  }

  function Finish(e: Entry, status: nat, how: Persist): Entry {
    var memory := e.memory.(completed := true, httpStatus := status);
    Entry(memory, Copy(e.file, memory, how))
  }

  // ---------------------------------------------------------------- the node

  /** A request being served. `building` is the kind whose builder is running. */
  datatype Job = Job(main: TxKind, noSend: bool, mainTried: bool, building: Option<TxKind>, memory: Progress)

  /** `sent` remembers what each operation ever broadcast, `quiet` the kind of each operation that builds without sending. */
  datatype Node = Node(files: map<Id, File>, jobs: map<Id, Job>, sent: set<(Id, Tx)>, quiet: map<Id, TxKind>)

  datatype NodeStep =
    | Begin(id: Id, main: TxKind, noSend: bool, created: bool, how: Persist)
    | Try(id: Id, kind: TxKind, how: Persist)
    | Build(id: Id, failed: bool, tx: Option<Tx>, leaked: Option<Tx>, undo: Persist, how: Persist)
    | Broadcast(id: Id, i: nat)
    | Name(id: Id, session: Id, how: Persist)
    | End(id: Id, status: nat, how: Persist)
    | NodeCrash

  /**
   The order of a request: approvals, only for an open, come before the first attempt at the mutation itself.
   A builder that must not send returns what it built; one that sends may have sent even if it returns nothing.
   */
  predicate CanStep(n: Node, step: NodeStep) {
    match step
    case Begin(_, main, _, _, _) => !main.ApprovalTx?
    case Try(id, kind, _) =>
      && id in n.jobs && n.jobs[id].building.None?
      && (kind == n.jobs[id].main || (kind.ApprovalTx? && n.jobs[id].main.OpenTx? && !n.jobs[id].mainTried))
    case Build(id, _, tx, leaked, _, _) =>
      && id in n.jobs && n.jobs[id].building.Some?
      && (tx.Some? ==> tx.value.kind == n.jobs[id].building.value)
      && (leaked.Some? ==> !n.jobs[id].noSend && leaked.value.kind == n.jobs[id].building.value)
    case Broadcast(id, i) => id in n.jobs && i < |n.jobs[id].memory.transactions|
    case Name(id, _, _) => id in n.jobs
    case End(id, _, _) => id in n.jobs
    case NodeCrash => true
  }

  /** What the builder's return does to the record. */
  function Built(e: Entry, kind: TxKind, noSend: bool, failed: bool, tx: Option<Tx>, undo: Persist, how: Persist): Entry {
    var undone := if noSend && failed && tx.None? && !kind.WithdrawTx? then BuildFailure(e, kind, undo) else e;
    if tx.Some? then Record(undone, tx.value, how) else undone
  }

  function EntryOf(n: Node, id: Id): Entry
    requires id in n.jobs && id in n.files
  {
    Entry(n.jobs[id].memory, n.files[id])
  }

  function Put(n: Node, id: Id, job: Job, e: Entry): Node {
    n.(files := n.files[id := e.file], jobs := n.jobs[id := job.(memory := e.memory)])
  }

  /** Opening the file exclusively refuses every id used before. */
  function BeginOn(n: Node, id: Id, main: TxKind, noSend: bool, created: bool, how: Persist): Node {
    if id in n.files || !created then n
    else
      var files := n.files[id := Copy(Blank, BEGUN, how)];
      if how.Stored? then n.(files := files, jobs := n.jobs[id := Job(main, noSend, false, None, BEGUN)],
                              quiet := if noSend then n.quiet[id := main] else n.quiet)
      else n.(files := files)
  }

  function BuildOn(n: Node, id: Id, failed: bool, tx: Option<Tx>, leaked: Option<Tx>, undo: Persist, how: Persist): Node
    requires id in n.jobs && id in n.files && n.jobs[id].building.Some?
  {
    var job := n.jobs[id];
    var e := Built(EntryOf(n, id), job.building.value, job.noSend, failed, tx, undo, how);
    var n' := Put(n, id, job.(building := None), e);
    if leaked.Some? then n'.(sent := n.sent + {(id, leaked.value)}) else n'
  }

  /** Every request being served has its file. */
  predicate Filed(n: Node) {
    forall id :: id in n.jobs ==> id in n.files
  }

  function NodeApply(n: Node, step: NodeStep): Node
    requires CanStep(n, step) && Filed(n)
  {
    match step
    case Begin(id, main, noSend, created, how) => BeginOn(n, id, main, noSend, created, how)
    case Try(id, kind, how) =>
      var job := n.jobs[id];
      Put(n, id, if how.Stored? then job.(building := Some(kind), mainTried := job.mainTried || kind == job.main) else job,
          Attempt(EntryOf(n, id), kind, how))
    case Build(id, failed, tx, leaked, undo, how) => BuildOn(n, id, failed, tx, leaked, undo, how)
    case Broadcast(id, i) => n.(sent := n.sent + {(id, n.jobs[id].memory.transactions[i])})
    case Name(id, session, how) => Put(n, id, n.jobs[id], NameSession(EntryOf(n, id), session, how))
    case End(id, status, how) =>
      n.(files := n.files[id := Finish(EntryOf(n, id), status, how).file], jobs := n.jobs - {id})
    case NodeCrash => n.(jobs := map[])
  }

  ghost predicate NodeRun(n: Node, steps: seq<NodeStep>, n': Node)
    decreases |steps|
  {
    if steps == [] then n == n'
    else
      && CanStep(n, steps[0]) && Filed(n)
      && NodeRun(NodeApply(n, steps[0]), steps[1..], n')
  }

  const NEW_NODE := Node(map[], map[], {}, map[])

  // ---------------------------------------------------------------- what the record knows

  /** Anything but an approval that was or may be sent is announced as submitting, and stays announced. */
  ghost predicate JobSound(job: Job, id: Id, sent: set<(Id, Tx)>) {
    && !job.main.ApprovalTx? && !job.memory.completed
    && (forall tx :: (id, tx) in sent && !tx.kind.ApprovalTx? ==>
          tx.kind == job.main && job.mainTried && job.memory.stage == StageSubmitting(job.main))
    && (forall tx :: (id, tx) in sent && job.noSend ==> tx in job.memory.transactions)
    && (forall i :: 0 <= i < |job.memory.transactions| && !job.memory.transactions[i].kind.ApprovalTx? ==>
          && job.memory.transactions[i].kind == job.main && job.mainTried
          && job.memory.stage == StageSubmitting(job.main))
    && (job.building.Some? ==>
          && job.memory.stage == StageSubmitting(job.building.value)
          && (job.building.value == job.main || (job.building.value.ApprovalTx? && !job.mainTried))
          && (job.building.value == job.main ==> job.mainTried))
  }

  predicate Silent(file: File) {
    file.Written? && file.progress.completed && file.progress.stage.StageNotSubmitted?
  }

  predicate Completed(file: File) {
    file.Written? && file.progress.completed
  }

  ghost predicate NodeInv(n: Node) {
    Filed(n) && forall id :: OneSound(n, id)
  }

  /** A completed file is the last word: nothing serves it, and for a quiet operation it lists all that was sent. */
  ghost predicate OneSound(n: Node, id: Id) {
    && (id in n.jobs ==> && id in n.files && JobSound(n.jobs[id], id, n.sent) && !Completed(n.files[id])
                         && (id in n.quiet <==> n.jobs[id].noSend)
                         && (id in n.quiet ==> n.quiet[id] == n.jobs[id].main))
    && (id in n.quiet ==> id in n.files)
    && (forall tx :: (id, tx) in n.sent ==>
          && id in n.files
          && (Silent(n.files[id]) ==> tx.kind.ApprovalTx?)
          && (Completed(n.files[id]) && id in n.quiet ==> tx in n.files[id].progress.transactions))
  }

  /** The part of the state that one operation's steps touch. */
  ghost predicate OnlyTouches(n: Node, n': Node, id: Id) {
    && (forall x :: x != id ==> (x in n'.files <==> x in n.files) && (x in n'.jobs <==> x in n.jobs))
    && (forall x :: x != id && x in n.files ==> n'.files[x] == n.files[x])
    && (forall x :: x != id && x in n.jobs ==> n'.jobs[x] == n.jobs[x])
    && (forall x, tx :: x != id ==> ((x, tx) in n'.sent <==> (x, tx) in n.sent))
    && (forall x :: x != id ==> (x in n'.quiet <==> x in n.quiet))
    && (forall x :: x != id && x in n.quiet ==> n'.quiet[x] == n.quiet[x])
  }

  lemma LocalStep(n: Node, n': Node, id: Id)
    requires NodeInv(n) && OnlyTouches(n, n', id) && OneSound(n', id)
    ensures NodeInv(n')
  {
    forall x ensures OneSound(n', x) {
      assert OneSound(n, x);
    }
    forall x | x in n'.jobs ensures x in n'.files {
      assert OneSound(n', x);
    }
  }

  lemma TryKeeps(n: Node, id: Id, kind: TxKind, how: Persist)
    requires NodeInv(n) && CanStep(n, Try(id, kind, how))
    ensures NodeInv(NodeApply(n, Try(id, kind, how)))
  {
    assert OneSound(n, id);
    LocalStep(n, NodeApply(n, Try(id, kind, how)), id);
  }

  lemma RecordedGrows(transactions: seq<Tx>, tx: Tx, kind: TxKind)
    ensures Recorded(transactions, kind) ==> Recorded(transactions + [tx], kind)
    ensures tx.kind == kind ==> Recorded(transactions + [tx], kind)
  {
    if Recorded(transactions, kind) {
      var i :| 0 <= i < |transactions| && transactions[i].kind == kind;
      assert (transactions + [tx])[i].kind == kind;
    }
    assert (transactions + [tx])[|transactions|] == tx;
  }

  lemma BuildKeeps(n: Node, id: Id, failed: bool, tx: Option<Tx>, leaked: Option<Tx>, undo: Persist, how: Persist)
    requires NodeInv(n) && CanStep(n, Build(id, failed, tx, leaked, undo, how))
    ensures NodeInv(BuildOn(n, id, failed, tx, leaked, undo, how))
  {
    var job := n.jobs[id];
    assert OneSound(n, id);
    var n' := BuildOn(n, id, failed, tx, leaked, undo, how);
    if tx.Some? {
      RecordedGrows(job.memory.transactions, tx.value, job.main);
    }
    assert JobSound(n'.jobs[id], id, n'.sent);
    LocalStep(n, n', id);
  }

  lemma BroadcastKeeps(n: Node, id: Id, i: nat)
    requires NodeInv(n) && CanStep(n, Broadcast(id, i))
    ensures NodeInv(NodeApply(n, Broadcast(id, i)))
  {
    assert OneSound(n, id);
    assert Recorded(n.jobs[id].memory.transactions, n.jobs[id].memory.transactions[i].kind);
    LocalStep(n, NodeApply(n, Broadcast(id, i)), id);
  }

  lemma BeginKeeps(n: Node, id: Id, main: TxKind, noSend: bool, created: bool, how: Persist)
    requires NodeInv(n) && CanStep(n, Begin(id, main, noSend, created, how))
    ensures NodeInv(BeginOn(n, id, main, noSend, created, how))
  {
    assert OneSound(n, id);
    LocalStep(n, BeginOn(n, id, main, noSend, created, how), id);
  }

  lemma NameKeeps(n: Node, id: Id, session: Id, how: Persist)
    requires NodeInv(n) && CanStep(n, Name(id, session, how))
    ensures NodeInv(NodeApply(n, Name(id, session, how)))
  {
    assert OneSound(n, id);
    LocalStep(n, NodeApply(n, Name(id, session, how)), id);
  }

  lemma EndKeeps(n: Node, id: Id, status: nat, how: Persist)
    requires NodeInv(n) && CanStep(n, End(id, status, how))
    ensures NodeInv(NodeApply(n, End(id, status, how)))
  {
    assert OneSound(n, id);
    LocalStep(n, NodeApply(n, End(id, status, how)), id);
  }

  lemma CrashKeeps(n: Node)
    requires NodeInv(n)
    ensures NodeInv(n.(jobs := map[]))
  {
    forall x ensures OneSound(n.(jobs := map[]), x) {
      assert OneSound(n, x);
    }
  }

  lemma NodeStepKeeps(n: Node, step: NodeStep)
    requires NodeInv(n) && CanStep(n, step)
    ensures NodeInv(NodeApply(n, step))
  {
    hide OneSound;
    hide JobSound;
    match step
    case Begin(id, main, noSend, created, how) => BeginKeeps(n, id, main, noSend, created, how);
    case Try(id, kind, how) => TryKeeps(n, id, kind, how);
    case Build(id, failed, tx, leaked, undo, how) => BuildKeeps(n, id, failed, tx, leaked, undo, how);
    case Broadcast(id, i) => BroadcastKeeps(n, id, i);
    case Name(id, session, how) => NameKeeps(n, id, session, how);
    case End(id, status, how) => EndKeeps(n, id, status, how);
    case NodeCrash => CrashKeeps(n);
  }

  lemma {:induction false} NodeRunKeeps(n: Node, steps: seq<NodeStep>, n': Node)
    requires NodeInv(n) && NodeRun(n, steps, n')
    ensures NodeInv(n')
    decreases |steps|
  {
    if steps != [] {
      NodeStepKeeps(n, steps[0]);
      NodeRunKeeps(NodeApply(n, steps[0]), steps[1..], n');
    }
  }

  // ---------------------------------------------------------------- theorems

  /** The operation is over: its file exists and nothing serves it. */
  predicate Over(n: Node, id: Id) {
    id in n.files && id !in n.jobs
  }

  /** An operation id is never executed a second time, so what is over stays as it is. */
  lemma {:induction false} OverStaysOver(n: Node, steps: seq<NodeStep>, n': Node, id: Id)
    requires NodeRun(n, steps, n') && Over(n, id)
    ensures Over(n', id) && n'.files[id] == n.files[id]
    ensures forall tx :: (id, tx) in n'.sent <==> (id, tx) in n.sent
    decreases |steps|
  {
    if steps != [] {
      OverStaysOver(NodeApply(n, steps[0]), steps[1..], n', id);
    }
  }

  /**
   A journal on disk that is completed and not submitted: nothing but approvals was broadcast for that
   operation when it was read, and nothing else will be in any continuation.
   */
  lemma SilentMeansNeverSent(steps: seq<NodeStep>, n: Node, id: Id, later: seq<NodeStep>, n': Node)
    requires NodeRun(NEW_NODE, steps, n) && NodeRun(n, later, n')
    requires id in n.files && Silent(n.files[id])
    ensures forall tx :: (id, tx) in n'.sent ==> tx.kind.ApprovalTx?
    ensures id in n'.files && n'.files[id] == n.files[id]
  {
    NodeRunKeeps(NEW_NODE, steps, n);
    assert OneSound(n, id);
    OverStaysOver(n, later, n', id);
  }

  /** A completed journal of an operation that builds without sending lists all it ever sent or will send. */
  lemma CompletedListsAllSent(steps: seq<NodeStep>, n: Node, id: Id, later: seq<NodeStep>, n': Node)
    requires NodeRun(NEW_NODE, steps, n) && NodeRun(n, later, n')
    requires id in n.files && Completed(n.files[id]) && id in n.quiet
    ensures forall tx :: (id, tx) in n'.sent ==> tx in n.files[id].progress.transactions
  {
    NodeRunKeeps(NEW_NODE, steps, n);
    assert OneSound(n, id);
    OverStaysOver(n, later, n', id);
  }

  /** What the helper answers about an operation. */
  function HelperAnswer(n: Node, id: Id): Option<Progress> {
    if id in n.files && n.files[id].Written? then Some(n.files[id].progress) else None
  }

  // ---------------------------------------------------------------- why the order of attempts matters

  /** One more attempt, as `Try` then `Build`, whose builder fails without sending. */
  function FailedAttempt(e: Entry, kind: TxKind): Entry {
    Built(Attempt(e, kind, Stored), kind, true, true, None, Stored, Stored)
  }

  /**
   Exactly when a failed attempt erases the announcement of an earlier mutation: when nothing of its own kind
   was recorded.  An approval retried after an open was recorded and broadcast makes the journal claim that
   nothing was submitted; an open retried after an open never does.
   */
  lemma FailedAttemptErasesIff(e: Entry, kind: TxKind)
    requires !kind.WithdrawTx?
    ensures FailedAttempt(e, kind).memory.stage.StageNotSubmitted? <==> !Recorded(e.memory.transactions, kind)
    ensures Silent(Finish(FailedAttempt(e, kind), 500, Stored).file) <==> !Recorded(e.memory.transactions, kind)
  {
  }

  lemma ApprovalAfterOpenErases()
    ensures var after := Record(Attempt(Entry(BEGUN, Blank), OpenTx, Stored), Tx(OpenTx, 5, true), Stored);
            && Recorded(after.memory.transactions, OpenTx)
            && Silent(Finish(FailedAttempt(after, ApprovalTx), 500, Stored).file)
            && !Silent(Finish(FailedAttempt(after, OpenTx), 500, Stored).file)
  {
    var open := Tx(OpenTx, 5, true);
    var after := Record(Attempt(Entry(BEGUN, Blank), OpenTx, Stored), open, Stored);
    assert after.memory.transactions == [open];
    assert after.memory.transactions[0].kind == OpenTx;
  }

  // ---------------------------------------------------------------- what each call leaves in record and file

  /** An announced kind is in memory and on disk, or else the announcement is taken back and nothing is built. */
  lemma TryLeaves(n: Node, id: Id, kind: TxKind, how: Persist)
    requires Filed(n) && CanStep(n, Try(id, kind, how))
    ensures var n' := NodeApply(n, Try(id, kind, how));
            var announced := n.jobs[id].memory.(stage := StageSubmitting(kind));
            && n'.sent == n.sent && id in n'.jobs
            && (if how.Stored? then
                  n'.jobs[id].memory == announced && n'.files[id] == Written(announced) && n'.jobs[id].building == Some(kind)
                else
                  n'.jobs[id].memory == n.jobs[id].memory && n'.jobs[id].building.None?
                  && n'.files[id] == if how.Lost? then n.files[id] else Written(announced))
  {
  }

  /** What a builder returned is appended, and after its failure the announcement is withdrawn unless something is recorded. */
  lemma BuildLeaves(n: Node, id: Id, failed: bool, tx: Option<Tx>, leaked: Option<Tx>, undo: Persist, how: Persist)
    requires Filed(n) && CanStep(n, Build(id, failed, tx, leaked, undo, how))
    ensures var n' := NodeApply(n, Build(id, failed, tx, leaked, undo, how));
            var job, kind := n.jobs[id], n.jobs[id].building.value;
            && id in n'.jobs && n'.jobs[id].building.None?
            && n'.jobs[id].memory.transactions == job.memory.transactions + (if tx.Some? then [tx.value] else [])
            && (n'.jobs[id].memory.stage ==
                  if (&& job.noSend && failed && tx.None? && !kind.WithdrawTx?
                      && forall i :: 0 <= i < |job.memory.transactions| ==> job.memory.transactions[i].kind != kind)
                  then StageNotSubmitted else job.memory.stage)
            && (tx.Some? && how.Stored? ==> n'.files[id] == Written(n'.jobs[id].memory))
            && n'.sent == n.sent + (if leaked.Some? then {(id, leaked.value)} else {})
  {
  }

  /** The session id and the final answer are on record, and the request is over. */
  lemma NameAndEndLeave(n: Node, id: Id, session: Id, status: nat, how: Persist)
    requires Filed(n) && id in n.jobs
    ensures var named := NodeApply(n, Name(id, session, how));
            && id in named.jobs && named.jobs[id].memory == n.jobs[id].memory.(sessionId := Some(session))
            && (how.Stored? ==> named.files[id] == Written(named.jobs[id].memory))
    ensures var ended := NodeApply(n, End(id, status, how));
            && id !in ended.jobs && id in ended.files
            && ended.files[id] == if how.Lost? then n.files[id]
                                  else Written(n.jobs[id].memory.(completed := true, httpStatus := status))
  {
  }

  /** An id is accepted if and only if it was never used and its file could be created and written. */
  lemma AcceptsIff(n: Node, id: Id, main: TxKind, noSend: bool, created: bool, how: Persist)
    requires Filed(n) && id !in n.jobs && !main.ApprovalTx?
    ensures var n' := NodeApply(n, Begin(id, main, noSend, created, how));
            && (id in n'.jobs <==> id !in n.files && created && how.Stored?)
            && (id in n'.jobs ==> n'.jobs[id].memory == Progress(StageNotSubmitted, false, 0, None, []) && n'.jobs[id].building.None?)
            && (id in n'.files <==> id in n.files || created)
            && (id in n.files ==> n' == n)
  {
  }
}
