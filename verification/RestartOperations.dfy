/**
 The helper's `/restart` endpoint: one durable record per operation id, written before the supervisor is asked
 to do anything and updated when it is done.
 */
module RestartOperations {
  import opened Options
  import opened SupervisorFiles

  type OpId = nat
  type Task = nat
  type Fingerprint = nat
  type Answer = nat

  datatype RunState = Running | Succeeded(result: Answer) | Failed | Interrupted

  datatype Record = Record(state: RunState, fingerprint: Fingerprint)

  /** Reply to a request whose id is already on record. */
  datatype Reply = Replay(result: Answer) | AlreadyAttempted | Reused

  function ReplyFor(record: Record, fingerprint: Fingerprint): Reply {
    if record.fingerprint != fingerprint then Reused
    else match record.state
      case Succeeded(result) => Replay(result)
      case _ => AlreadyAttempted
  }

  /** How `Supervisor.restart` ended inside the handler's `try`. */
  datatype Result = Ok(answer: Answer) | Error | Cancelled

  /** A handler waiting for the supervisor. */
  datatype Handler = Handler(id: Option<OpId>, fingerprint: Fingerprint)

  /** How the run of an id ended: its result and how the one or two record writes went. */
  datatype End = End(result: Result, first: Write, second: Write)

  /** The one run of an operation id, as history: what was asked and, once over, how it ended. */
  datatype History = History(fingerprint: Fingerprint, end: Option<End>)

  /** `runs` counts the calls of `Supervisor.restart` per id and `history` describes them. */
  datatype Helper = Helper(records: map<OpId, Record>, handlers: map<Task, Handler>,
                           runs: map<OpId, nat>, history: map<OpId, History>)

  function RecordWrite(records: map<OpId, Record>, id: OpId, record: Record, w: Write): map<OpId, Record> {
    if w.Done? || w.FailsAfter? || w.KilledAfter? then records[id := record] else records
  }

  predicate Deadly(w: Write) {
    w.KilledBefore? || w.KilledAfter?
  }

  function Died(h: Helper): Helper {
    h.(handlers := map[])
  }

  function Count(runs: map<OpId, nat>, id: OpId): nat {
    if id in runs then runs[id] else 0
  }

  /** From the request to the call of the supervisor, without an await in between. */
  function Accept(h: Helper, task: Task, id: Option<OpId>, fingerprint: Fingerprint, w: Write): Helper {
    if id.None? then h.(handlers := h.handlers[task := Handler(None, fingerprint)])
    else if id.value in h.records then h
    else
      var h' := h.(records := RecordWrite(h.records, id.value, Record(Running, fingerprint), w));
      if Deadly(w) then Died(h')
      else if !w.Done? then h'
      else h'.(handlers := h.handlers[task := Handler(id, fingerprint)],
               runs := h.runs[id.value := Count(h.runs, id.value) + 1],
               history := h.history[id.value := History(fingerprint, None)])
  }

  function StateOf(result: Result): RunState {
    match result
    case Ok(answer) => Succeeded(answer)
    case Error => Failed
    case Cancelled => Interrupted
  }

  /** The write of a success may itself fail, which the handler treats as a failure of the run. */
  function RecordsAfter(records: map<OpId, Record>, id: OpId, fingerprint: Fingerprint, end: End): map<OpId, Record> {
    var first := RecordWrite(records, id, Record(StateOf(end.result), fingerprint), end.first);
    if end.result.Ok? && !end.first.Done? && !Deadly(end.first)
    then RecordWrite(first, id, Record(Failed, fingerprint), end.second) else first
  }

  predicate EndsDeadly(end: End) {
    Deadly(end.first) || (end.result.Ok? && !end.first.Done? && Deadly(end.second))
  }

  function Complete(h: Helper, task: Task, end: End): Helper
    requires task in h.handlers
  {
    var handler := h.handlers[task];
    if handler.id.None? then h.(handlers := h.handlers - {task})
    else
      var id := handler.id.value;
      var h' := h.(records := RecordsAfter(h.records, id, handler.fingerprint, end), handlers := h.handlers - {task},
                   history := h.history[id := History(handler.fingerprint, Some(end))]);
      if EndsDeadly(end) then Died(h') else h'
  }

  datatype Step =
    | Arrive(task: Task, id: Option<OpId>, fingerprint: Fingerprint, write: Write)
    | Conclude(task: Task, end: End)
    | Crash

  predicate Enabled(h: Helper, step: Step) {
    match step
    case Arrive(task, _, _, _) => task !in h.handlers
    case Conclude(task, _) => task in h.handlers
    case Crash => true
  }

  function Next(h: Helper, step: Step): Helper
    requires Enabled(h, step)
  {
    match step
    case Arrive(task, id, fingerprint, w) => Accept(h, task, id, fingerprint, w)
    case Conclude(task, end) => Complete(h, task, end)
    case Crash => Died(h)
  }

  ghost predicate RunOf(h: Helper, steps: seq<Step>, h': Helper)
    decreases |steps|
  {
    if steps == [] then h == h' else Enabled(h, steps[0]) && RunOf(Next(h, steps[0]), steps[1..], h')
  }

  const NEW := Helper(map[], map[], map[], map[])

  /** The record on disk after the run ended, in terms of what happened. */
  function FinalState(end: End): RunState {
    var kept := end.first.Done? || end.first.FailsAfter? || end.first.KilledAfter?;
    if end.result.Ok? && !end.first.Done? && !Deadly(end.first)
       && (end.second.Done? || end.second.FailsAfter? || end.second.KilledAfter?) then Failed
    else if kept then StateOf(end.result) else Running
  }

  ghost predicate IdSound(h: Helper, id: OpId) {
    && (id in h.history <==> id in h.runs)
    && (id in h.runs ==> h.runs[id] == 1 && id in h.records)
    && (id in h.history ==>
          && h.records[id].fingerprint == h.history[id].fingerprint
          && h.records[id].state == (if h.history[id].end.Some? then FinalState(h.history[id].end.value) else Running))
    && (id in h.records && id !in h.history ==> h.records[id].state.Running?)
  }

  /** A waiting handler with an id is that id's run, not yet over, and no other handler waits for it. */
  ghost predicate Inv(h: Helper) {
    && (forall id :: IdSound(h, id))
    && (forall t :: t in h.handlers && h.handlers[t].id.Some? ==>
          && h.handlers[t].id.value in h.history
          && h.history[h.handlers[t].id.value] == History(h.handlers[t].fingerprint, None))
    && (forall t, u :: t in h.handlers && u in h.handlers && h.handlers[t].id.Some? && t != u ==>
          h.handlers[u].id != h.handlers[t].id)
  }

  lemma ArriveKeeps(h: Helper, task: Task, id: Option<OpId>, fingerprint: Fingerprint, w: Write)
    requires Inv(h) && task !in h.handlers
    ensures Inv(Accept(h, task, id, fingerprint, w))
  {
    var h' := Accept(h, task, id, fingerprint, w);
    forall x ensures IdSound(h', x) {
      assert IdSound(h, x);
    }
    if id.Some? {
      assert IdSound(h, id.value);
    }
  }

  lemma CompleteKeeps(h: Helper, task: Task, end: End)
    requires Inv(h) && task in h.handlers
    ensures Inv(Complete(h, task, end))
  {
    var h' := Complete(h, task, end);
    forall x ensures IdSound(h', x) {
      assert IdSound(h, x);
    }
  }

  lemma {:induction false} RunKeepsInv(h: Helper, steps: seq<Step>, h': Helper)
    requires Inv(h) && RunOf(h, steps, h')
    ensures Inv(h')
    decreases |steps|
  {
    if steps != [] {
      match steps[0] {
        case Arrive(task, id, fingerprint, w) => ArriveKeeps(h, task, id, fingerprint, w);
        case Conclude(task, end) => CompleteKeeps(h, task, end);
        case Crash =>
          forall x ensures IdSound(Died(h), x) {
            assert IdSound(h, x);
          }
      }
      RunKeepsInv(Next(h, steps[0]), steps[1..], h');
    }
  }

  // ---------------------------------------------------------------- theorems

  /** Each operation id runs the supervisor at most once, whatever is retried and wherever the helper dies. */
  lemma RunsAtMostOnce(steps: seq<Step>, h: Helper, id: OpId)
    requires RunOf(NEW, steps, h)
    ensures Count(h.runs, id) <= 1
  {
    RunKeepsInv(NEW, steps, h);
    assert IdSound(h, id);
  }

  /** An identified request runs the supervisor if and only if its id is new and its record was written first. */
  lemma RunsIff(h: Helper, task: Task, id: OpId, fingerprint: Fingerprint, w: Write)
    requires task !in h.handlers
    ensures var h' := Accept(h, task, Some(id), fingerprint, w);
            && (task in h'.handlers <==> id !in h.records && w.Done?)
            && Count(h'.runs, id) == Count(h.runs, id) + (if id !in h.records && w.Done? then 1 else 0)
            && (task in h'.handlers ==> id in h'.records && h'.records[id] == Record(Running, fingerprint))
            && (id in h.records ==> h' == h)
  {
  }

  /** A run whose record could be written is on record as succeeded, failed or interrupted, as it ended. */
  lemma EndsOnRecord(h: Helper, task: Task, end: End)
    requires task in h.handlers && h.handlers[task].id.Some? && end.first.Done?
    ensures var id := h.handlers[task].id.value;
            var h' := Complete(h, task, end);
            && task !in h'.handlers && id in h'.records && h'.records[id].fingerprint == h.handlers[task].fingerprint
            && (end.result.Ok? ==> h'.records[id].state == Succeeded(end.result.answer))
            && (end.result.Error? ==> h'.records[id].state.Failed?)
            && (end.result.Cancelled? ==> h'.records[id].state.Interrupted?)
  {
  }

  /** The record of a success reached the disk and was not replaced by the handler's own error path. */
  predicate SuccessKept(end: End) {
    && end.result.Ok?
    && (|| end.first.Done? || end.first.KilledAfter?
        || (end.first.FailsAfter? && (end.second.FailsBefore? || end.second.KilledBefore?)))
  }

  /**
   A repeated request gets the stored result exactly when the one run succeeded, with the same fingerprint, and
   its success was kept; a different fingerprint is always refused as reuse.
   */
  lemma ReplayIff(steps: seq<Step>, h: Helper, id: OpId, fingerprint: Fingerprint, answer: Answer)
    requires RunOf(NEW, steps, h) && id in h.records
    ensures ReplyFor(h.records[id], fingerprint) == Replay(answer) <==>
              && id in h.history && h.history[id].fingerprint == fingerprint && h.history[id].end.Some?
              && h.history[id].end.value.result == Ok(answer) && SuccessKept(h.history[id].end.value)
    ensures id in h.history ==> (ReplyFor(h.records[id], fingerprint) == Reused <==> h.history[id].fingerprint != fingerprint)
  {
    RunKeepsInv(NEW, steps, h);
    assert IdSound(h, id);
  }

  /** A success whose record could not be written once is answered as a failed attempt from then on. */
  lemma SuccessForgotten() returns (steps: seq<Step>, h: Helper)
    ensures RunOf(NEW, steps, h) && 4 in h.records && 4 in h.history
    ensures h.history[4].end.Some? && h.history[4].end.value.result == Ok(9)
    ensures ReplyFor(h.records[4], 6) == AlreadyAttempted
  {
    steps := [Arrive(0, Some(4), 6, Done), Conclude(0, End(Ok(9), FailsBefore, Done))];
    var h1 := Next(NEW, steps[0]);
    h := Next(h1, steps[1]);
    assert RunOf(h, steps[1..][1..], h);
  }

  // ---------------------------------------------------------------- the endpoint

  /** The records on disk; the supervisor's part is passed in as its result. */
  class RestartEndpoint {
    var records: map<OpId, Record>

    constructor ()
      ensures records == map[]
    {
      records := map[];
    }

    method Replace(id: OpId, record: Record, w: Write) returns (ending: Ending)
      modifies this
      ensures records == RecordWrite(old(records), id, record, w)
      ensures ending == if w.Done? then Returns else Failure(w)
    {
      if w.Done? || w.FailsAfter? || w.KilledAfter? {
        records := records[id := record];
      }
      ending := if w.Done? then Returns else Failure(w);
    }

    /** Up to the call of the supervisor; `go` says that it is called. */
    method Begin(id: Option<OpId>, fingerprint: Fingerprint, w: Write) returns (go: bool, reply: Option<Reply>)
      modifies this
      ensures forall h: Helper, task: Task :: h.records == old(records) && task !in h.handlers ==>
                var h' := Accept(h, task, id, fingerprint, w);
                records == h'.records && (go <==> task in h'.handlers)
      ensures reply == if id.Some? && id.value in old(records)
                       then Some(ReplyFor(old(records)[id.value], fingerprint)) else None
    {
      if id.None? {
        return true, None;
      }
      if id.value in records {
        var previous := records[id.value];
        if previous.fingerprint != fingerprint {
          return false, Some(Reused);
        }
        if previous.state.Succeeded? {
          return false, Some(Replay(previous.state.result));
        }
        return false, Some(AlreadyAttempted);
      }
      var ending := Replace(id.value, Record(Running, fingerprint), w);
      return ending.Returns?, None;
    }

    /** From the supervisor's answer to the end of the handler. */
    method Finish(id: Option<OpId>, fingerprint: Fingerprint, end: End)
      modifies this
      ensures records == if id.Some? then RecordsAfter(old(records), id.value, fingerprint, end) else old(records)
    {
      if id.None? {
        return;
      }
      match end.result {
        case Ok(answer) =>
          var ending := Replace(id.value, Record(Succeeded(answer), fingerprint), end.first);
          if ending.Raises? {
            var _ := Replace(id.value, Record(Failed, fingerprint), end.second);
          }
        case Error =>
          var _ := Replace(id.value, Record(Failed, fingerprint), end.first);
        case Cancelled =>
          var _ := Replace(id.value, Record(Interrupted, fingerprint), end.first);
      }
    }
  }
}
