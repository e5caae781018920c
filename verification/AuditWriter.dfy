/**
 The bounded JSONL audit writer as a state machine.

 Request threads admit records, other threads flush or close, and one background thread drains a
 bounded queue in batches.  `Apply` performs one atomic step of one thread; a run is any sequence of
 enabled steps, so every schedule, every disk failure and every failing renderer is covered.  The
 fields `log`, `base` and `written` are history: what was put into the queue of the current lifecycle,
 the file when that lifecycle began, and the records its thread has written.
 */
module AuditWriter {
  import opened Options
  import opened Runs
  import opened Utf8

  const LF: nat := 0x0A
  const CR: nat := 0x0D

  predicate OneLine(line: Chars) {
    LF !in line && CR !in line
  }

  function Utf8Length(c: nat): (n: nat)
    ensures 1 <= n <= 4
  {
    if c < 0x80 then 1 else if c < 0x800 then 2 else if c < 0x10000 then 3 else 4
  }

  function Utf8Lengths(line: Chars): nat {
    if line == [] then 0 else Utf8Length(line[0]) + Utf8Lengths(line[1..])
  }

  /** `len(line.encode("utf-8")) + 1`. */
  function EncodedSize(line: Chars): nat {
    Utf8Lengths(line) + 1
  }

  function EncodedSizes(lines: seq<Chars>): nat {
    if lines == [] then 0 else EncodedSizes(lines[..|lines| - 1]) + EncodedSize(lines[|lines| - 1])
  }

  /** A line, a deferred renderer together with what it will return (None when it raises or does not
      return a string), or a flush or close barrier. */
  datatype Work = Line(text: Chars) | Deferred(render: Option<Chars>) | Barrier(id: nat)

  /** `_render_line`: None is an encode failure. */
  function Render(item: Work): Option<Chars> {
    match item
    case Line(text) => Some(text)
    case Deferred(Some(text)) => if OneLine(text) then Some(text) else None
    case _ => None
  }

  datatype Config = Config(maxPending: nat, batchSize: nat, maxBatchBytes: nat) {
    predicate Valid() {
      maxPending >= 1 && batchSize >= 1 && maxBatchBytes >= 1
    }
  }

  /** Where the writer thread is: about to fetch an item (perhaps a barrier it set aside), collecting a
      batch, or about to write one. */
  datatype Pc =
    | Fetch(deferred: Option<nat>)
    | Collect(records: seq<Chars>, bytes: nat)
    | Write(records: seq<Chars>, deferred: Option<nat>)

  datatype Thread = NoThread | Live(pc: Pc) | Dead(crashed: bool)

  datatype Phase = Putting | Waiting | Finished(failed: bool)

  datatype BarrierState = BarrierState(stop: bool, phase: Phase)

  datatype State = State(
    lock: Option<nat>,
    thread: Thread,
    queue: seq<Work>,
    closing: bool,
    error: bool,
    handleOpen: bool,
    file: Chars,
    barriers: map<nat, BarrierState>,
    log: seq<Work>,
    base: Chars,
    written: seq<Chars>)

  function Init(file: Chars): State {
    State(None, NoThread, [], false, false, false, file, map[], [], file, [])
  }

  // ----- the file

  function Joined(records: seq<Chars>): Chars {
    if records == [] then [] else Joined(records[..|records| - 1]) + records[|records| - 1] + [LF]
  }

  /** A torn last row is terminated before new rows are appended. */
  function Terminated(file: Chars): Chars {
    if file != [] && file[|file| - 1] != LF then file + [LF] else file
  }

  function Published(base: Chars, records: seq<Chars>): Chars {
    if records == [] then base else Terminated(base) + Joined(records)
  }

  // ----- request threads

  datatype Outcome = Accepted | InvalidLine | IsClosing | HasError | QueueFull

  /** `append` and `append_deferred`, which hold the lock throughout and never wait for it to be put. */
  function AdmitOutcome(c: Config, s: State, item: Work): Outcome {
    if item.Line? && !OneLine(item.text) then InvalidLine
    else if s.closing then IsClosing
    else if s.error then HasError
    else if s.thread.Live? && |s.queue| >= c.maxPending then QueueFull
    else Accepted
  }

  /** `_start_locked`. */
  function Started(s: State): State {
    if s.thread.Live? then s
    else s.(error := false, queue := [], thread := Live(Fetch(None)), handleOpen := false,
            log := [], base := s.file, written := [])
  }

  function Put(s: State, item: Work): State {
    s.(queue := s.queue + [item], log := s.log + [item])
  }

  // ----- one step

  datatype WriteResult = WriteOk | OpenFails(separatorWritten: bool) | WriteFails(partial: Chars)

  datatype Step =
    | Admit(item: Work)
    | EnterBarrier(id: nat, stop: bool)
    | PutBarrier(id: nat)
    | FetchItem
    | FinishBarrier(id: nat, flushFails: bool, closeFails: bool)
    | CollectItem
    | EndCollect
    | WriteBatch(result: WriteResult)
    | Reset(id: nat)

  predicate IsWriterStep(step: Step) {
    step.FetchItem? || step.FinishBarrier? || step.CollectItem? || step.EndCollect? || step.WriteBatch?
  }

  predicate BatchHasRoom(c: Config, records: seq<Chars>, bytes: nat) {
    |records| < c.batchSize && bytes < c.maxBatchBytes
  }

  /** The barrier the writer will finish next, without fetching a record first. */
  predicate NextBarrierIs(s: State, id: nat) {
    && s.thread.Live? && s.thread.pc.Fetch?
    && if s.thread.pc.deferred.Some? then s.thread.pc.deferred.value == id
       else s.queue != [] && s.queue[0] == Barrier(id)
  }

  predicate Enabled(c: Config, s: State, step: Step) {
    match step
    case Admit(item) =>
      !item.Barrier? && s.lock == None && AdmitOutcome(c, s, item) == Accepted
    case EnterBarrier(id, stop) =>
      && s.lock == None && id !in s.barriers && s.thread != NoThread && !s.closing && (stop || !s.error)
    case PutBarrier(id) =>
      s.lock == Some(id) && id in s.barriers && |s.queue| < c.maxPending
    case FetchItem =>
      && s.thread.Live? && s.thread.pc == Fetch(None) && s.queue != [] && !s.queue[0].Barrier?
    case FinishBarrier(id, _, _) =>
      NextBarrierIs(s, id) && id in s.barriers
    case CollectItem =>
      && s.thread.Live? && s.thread.pc.Collect? && s.queue != []
      && BatchHasRoom(c, s.thread.pc.records, s.thread.pc.bytes)
    case EndCollect =>
      && s.thread.Live? && s.thread.pc.Collect?
      && (s.queue == [] || !BatchHasRoom(c, s.thread.pc.records, s.thread.pc.bytes))
    case WriteBatch(result) =>
      s.thread.Live? && s.thread.pc.Write? && (result.OpenFails? ==> !s.handleOpen)
    case Reset(id) =>
      && s.lock == None && id in s.barriers && s.barriers[id].stop && s.barriers[id].phase.Finished?
      && s.closing && s.thread == Dead(false)
  }

  /** The writer has taken a record: a rendering failure is sticky; a line that cannot be encoded
      raises outside every handler and ends the thread. */
  function Taken(s: State, item: Work, records: seq<Chars>, bytes: nat): (t: State)
    ensures t == s.(error := t.error, thread := t.thread) && (s.error ==> t.error)
    ensures if t.thread.Live? then t.thread.pc.Collect? else t.thread == Dead(true)
  {
    match Render(item)
    case None => s.(error := true, thread := Live(Collect(records, bytes)))
    case Some(line) =>
      if Encodable(line) then s.(thread := Live(Collect(records + [line], bytes + EncodedSize(line))))
      else s.(thread := Dead(true))
  }

  function AfterWrite(s: State, records: seq<Chars>, result: WriteResult): State {
    if records == [] || s.error then s
    else
      var ready := if s.handleOpen then s.file else Terminated(s.file);
      match result
      case OpenFails(separatorWritten) => s.(error := true, file := if separatorWritten then ready else s.file)
      case WriteFails(partial) => s.(error := true, handleOpen := true, file := ready + partial)
      case WriteOk =>
        s.(handleOpen := true, file := ready + Joined(records), written := s.written + records)
  }

  function Apply(c: Config, s: State, step: Step): State
    requires Enabled(c, s, step)
  {
    match step
    case Admit(item) => Put(Started(s), item)
    case EnterBarrier(id, stop) =>
      s.(lock := Some(id), closing := s.closing || stop, barriers := s.barriers[id := BarrierState(stop, Putting)])
    case PutBarrier(id) =>
      Put(s, Barrier(id)).(lock := None, barriers := s.barriers[id := s.barriers[id].(phase := Waiting)])
    case FetchItem =>
      Taken(s.(queue := s.queue[1..]), s.queue[0], [], 0)
    case FinishBarrier(id, flushFails, closeFails) =>
      var stop := s.barriers[id].stop;
      var error := s.error || (s.handleOpen && flushFails) || (stop && s.handleOpen && closeFails);
      var queue := if s.thread.pc.deferred.Some? then s.queue else s.queue[1..];
      s.(queue := queue, error := error, thread := if stop then Dead(false) else Live(Fetch(None)),
         barriers := s.barriers[id := BarrierState(stop, Finished(error))])
    case CollectItem =>
      var item, rest := s.queue[0], s.(queue := s.queue[1..]);
      if item.Barrier? then rest.(thread := Live(Write(s.thread.pc.records, Some(item.id))))
      else Taken(rest, item, s.thread.pc.records, s.thread.pc.bytes)
    case EndCollect =>
      s.(thread := Live(Write(s.thread.pc.records, None)))
    case WriteBatch(result) =>
      AfterWrite(s, s.thread.pc.records, result).(thread := Live(Fetch(s.thread.pc.deferred)))
    case Reset(id) =>
      s.(thread := NoThread, queue := [], closing := false, error := false,
         log := [], base := s.file, written := [], handleOpen := false)
  }

  /** `path` visits the states of a run. */
  ghost predicate IsRun(c: Config, path: seq<State>, steps: seq<Step>) {
    && |path| == |steps| + 1
    && forall i :: 0 <= i < |steps| ==> Enabled(c, path[i], steps[i]) && path[i + 1] == Apply(c, path[i], steps[i])
  }

  ghost predicate Reachable(c: Config, s: State) {
    exists file, path, steps :: IsRun(c, path, steps) && path[0] == Init(file) && path[|steps|] == s
  }

  // ----- the invariant

  function Texts(items: seq<Work>): seq<Chars> {
    if items == [] then []
    else
      var last := items[|items| - 1];
      Texts(items[..|items| - 1]) + if Render(last).Some? then [Render(last).value] else []
  }

  /** Every record among `items` rendered. */
  predicate AllRender(items: seq<Work>) {
    forall i :: 0 <= i < |items| && !items[i].Barrier? ==> Render(items[i]).Some?
  }

  /** `texts` are the rendered records of `items`, in order, and none failed to render. */
  ghost predicate Accounted(items: seq<Work>, texts: seq<Chars>) {
    AllRender(items) && Texts(items) == texts
  }

  /** The items the writer has taken off the queue in this lifecycle. */
  function TakenItems(s: State): seq<Work>
    requires |s.queue| <= |s.log|
  {
    s.log[..|s.log| - |s.queue|]
  }

  function InHand(s: State): seq<Chars> {
    if s.thread.Live? && !s.thread.pc.Fetch? then s.thread.pc.records else []
  }

  function SetAside(s: State): Option<nat> {
    if s.thread.Live? && !s.thread.pc.Collect? then s.thread.pc.deferred else None
  }

  ghost predicate QueueInv(c: Config, s: State) {
    && |s.queue| <= c.maxPending
    && |s.queue| <= |s.log|
    && s.queue == s.log[|s.log| - |s.queue|..]
    && (s.thread.NoThread? ==> s.log == [])
    && (SetAside(s).Some? ==> TakenItems(s) != [] && TakenItems(s)[|TakenItems(s)| - 1] == Barrier(SetAside(s).value))
  }

  /** Within `batch_size`, and below `max_batch_bytes` before the last record. */
  ghost predicate Batch(c: Config, records: seq<Chars>) {
    |records| <= c.batchSize && (records != [] ==> EncodedSizes(records[..|records| - 1]) < c.maxBatchBytes)
  }

  ghost predicate BatchInv(c: Config, s: State) {
    && Batch(c, InHand(s))
    && (s.thread.Live? && s.thread.pc.Collect? ==> s.thread.pc.bytes == EncodedSizes(s.thread.pc.records))
  }

  ghost predicate FileInv(s: State)
    requires |s.queue| <= |s.log|
  {
    s.thread.Live? && !s.error ==>
      && Accounted(TakenItems(s), s.written + InHand(s))
      && s.file == Published(s.base, s.written)
      && (s.handleOpen <==> s.written != [])
  }

  /** Barrier identities in the queue's log are distinct and known, and nothing follows a close. */
  ghost predicate LogInv(s: State) {
    && (forall i :: 0 <= i < |s.log| && s.log[i].Barrier? ==>
          s.log[i].id in s.barriers && s.barriers[s.log[i].id].phase != Putting)
    && (forall i :: 0 <= i < |s.log| && s.log[i].Line? ==> OneLine(s.log[i].text))
    && (forall i, j :: 0 <= i < j < |s.log| && s.log[i].Barrier? ==> s.log[i] != s.log[j])
    && (forall i :: 0 <= i < |s.log| && s.log[i].Barrier? && s.barriers[s.log[i].id].stop ==>
          i == |s.log| - 1 && s.lock == None && s.closing)
  }

  /** The lock is held exactly by the thread that waits for room to put its barrier. */
  ghost predicate LockInv(s: State) {
    && (s.lock.Some? ==>
          && s.lock.value in s.barriers && s.barriers[s.lock.value].phase == Putting
          && (s.barriers[s.lock.value].stop ==> s.closing))
    && (forall b :: b in s.barriers && s.barriers[b].phase == Putting ==> s.lock == Some(b))
    && (s.thread == Dead(false) ==> s.closing && s.lock == None)
    && (s.thread.NoThread? ==> s.lock == None && !s.closing && !s.error)
  }

  ghost predicate Inv(c: Config, s: State) {
    QueueInv(c, s) && BatchInv(c, s) && FileInv(s) && LogInv(s) && LockInv(s)
  }

  lemma TextsSnoc(items: seq<Work>, item: Work)
    ensures Texts(items + [item]) == Texts(items) + if Render(item).Some? then [Render(item).value] else []
  {
    assert (items + [item])[..|items|] == items;
  }

  lemma AccountedRecord(items: seq<Work>, texts: seq<Chars>, item: Work)
    requires Accounted(items, texts) && Render(item).Some?
    ensures Accounted(items + [item], texts + [Render(item).value])
  {
    TextsSnoc(items, item);
  }

  lemma AccountedBarrier(items: seq<Work>, texts: seq<Chars>, item: Work)
    requires Accounted(items, texts) && item.Barrier?
    ensures Accounted(items + [item], texts)
  {
    TextsSnoc(items, item);
    assert texts + [] == texts;
  }

  lemma {:induction false} JoinedAppend(a: seq<Chars>, b: seq<Chars>)
    ensures Joined(a + b) == Joined(a) + Joined(b)
  {
    if b == [] {
      assert a + b == a;
    } else {
      var m := |b| - 1;
      assert (a + b)[..|a| + m] == a + b[..m];
      JoinedAppend(a, b[..m]);
    }
  }

  /** Taking the head of the queue extends the taken items by exactly that head. */
  lemma TakeHead(c: Config, s: State, t: State)
    requires QueueInv(c, s) && s.queue != [] && t.queue == s.queue[1..] && t.log == s.log
    ensures |t.queue| <= |t.log| && t.queue == t.log[|t.log| - |t.queue|..]
    ensures TakenItems(t) == TakenItems(s) + [s.queue[0]]
  {
    var n := |s.log| - |s.queue|;
    assert s.log[n..][0] == s.log[n];
    assert s.log[..n + 1] == s.log[..n] + [s.log[n]];
    assert s.log[n..][1..] == s.log[n + 1..];
  }

  lemma QueueTaken(c: Config, s: State, t: State)
    requires QueueInv(c, s) && s.queue != [] && t.queue == s.queue[1..] && t.log == s.log
    requires SetAside(t) == None || Barrier(SetAside(t).value) == s.queue[0]
    requires !t.thread.NoThread?
    ensures QueueInv(c, t)
  {
    TakeHead(c, s, t);
  }

  // Frames: a step that leaves the relevant fields alone keeps the corresponding part.

  lemma QueueFrame(c: Config, s: State, t: State)
    requires QueueInv(c, s) && t.queue == s.queue && t.log == s.log
    requires SetAside(t) == None || SetAside(t) == SetAside(s)
    requires t.thread.NoThread? ==> s.thread.NoThread?
    ensures QueueInv(c, t)
  {
  }

  lemma FileFrame(s: State, t: State)
    requires |s.queue| <= |s.log| && FileInv(s) && t.queue == s.queue && t.log == s.log
    requires t.thread.Live? ==> s.thread.Live? && InHand(t) == InHand(s) && (s.error ==> t.error)
    requires t.file == s.file && t.base == s.base && t.written == s.written && t.handleOpen == s.handleOpen
    ensures FileInv(t)
  {
  }

  lemma SyncFrame(s: State, t: State)
    requires LogInv(s) && LockInv(s)
    requires t.log == s.log && t.barriers == s.barriers && t.lock == s.lock && t.closing == s.closing
    requires t.thread.Live? || t.thread == Dead(true)
    ensures LogInv(t) && LockInv(t)
  {
  }

  lemma BatchGrows(c: Config, records: seq<Chars>, line: Chars)
    requires BatchHasRoom(c, records, EncodedSizes(records))
    ensures Batch(c, records + [line]) && EncodedSizes(records + [line]) == EncodedSizes(records) + EncodedSize(line)
  {
    var more := records + [line];
    assert more[..|more| - 1] == records;
  }

  lemma BatchTaken(c: Config, s: State, item: Work, records: seq<Chars>, bytes: nat)
    requires BatchHasRoom(c, records, bytes) && bytes == EncodedSizes(records) && Batch(c, records)
    ensures BatchInv(c, Taken(s, item, records, bytes))
  {
    if Render(item).Some? {
      BatchGrows(c, records, Render(item).value);
    }
  }

  lemma FileTaken(c: Config, s: State, records: seq<Chars>, bytes: nat)
    requires QueueInv(c, s) && FileInv(s) && s.queue != [] && !s.queue[0].Barrier? && s.thread.Live?
    requires InHand(s) == records
    ensures var t := Taken(s.(queue := s.queue[1..]), s.queue[0], records, bytes);
            |t.queue| <= |t.log| && FileInv(t)
  {
    var item := s.queue[0];
    var t := Taken(s.(queue := s.queue[1..]), item, records, bytes);
    TakeHead(c, s, t);
    if !s.error && Render(item).Some? && Encodable(Render(item).value) {
      var line := Render(item).value;
      AccountedRecord(TakenItems(s), s.written + records, item);
      assert s.written + (records + [line]) == s.written + records + [line];
    }
  }

  /** A record joins the batch. */
  lemma TakenKeepsInv(c: Config, s: State, records: seq<Chars>, bytes: nat)
    requires c.Valid() && Inv(c, s) && s.queue != [] && !s.queue[0].Barrier? && s.thread.Live?
    requires InHand(s) == records && SetAside(s) == None && bytes == EncodedSizes(records)
    requires BatchHasRoom(c, records, bytes)
    ensures Inv(c, Taken(s.(queue := s.queue[1..]), s.queue[0], records, bytes))
  {
    var item, mid := s.queue[0], s.(queue := s.queue[1..]);
    var t := Taken(mid, item, records, bytes);
    assert QueueInv(c, t) by {
      QueueTaken(c, s, t);
    }
    assert FileInv(t) by {
      FileTaken(c, s, records, bytes);
    }
    assert BatchInv(c, t) by {
      BatchTaken(c, mid, item, records, bytes);
    }
    assert LogInv(t) && LockInv(t) by {
      SyncFrame(s, t);
    }
  }

  lemma PutKeepsFile(c: Config, s: State, item: Work, t: State)
    requires QueueInv(c, s) && FileInv(s) && |s.queue| < c.maxPending && !s.thread.NoThread?
    requires t.queue == s.queue + [item] && t.log == s.log + [item] && t.thread == s.thread && t.error == s.error
    requires t.file == s.file && t.base == s.base && t.written == s.written && t.handleOpen == s.handleOpen
    ensures QueueInv(c, t) && FileInv(t)
  {
    assert TakenItems(t) == TakenItems(s);
  }

  lemma PutKeepsInv(c: Config, s: State, item: Work)
    requires Inv(c, s) && s.thread.Live? && |s.queue| < c.maxPending && !item.Barrier? && !s.closing
    requires item.Line? ==> OneLine(item.text)
    ensures Inv(c, Put(s, item))
  {
    PutKeepsFile(c, s, item, Put(s, item));
    PutKeepsLog(s, item);
  }

  lemma PutKeepsLog(s: State, item: Work)
    requires LogInv(s) && !item.Barrier? && !s.closing && (item.Line? ==> OneLine(item.text))
    ensures LogInv(Put(s, item))
  {
  }

  lemma StartedKeepsInv(c: Config, s: State)
    requires c.Valid() && Inv(c, s) && !s.closing && s.lock == None
    ensures Inv(c, Started(s))
  {
    if !s.thread.Live? {
      var t := Started(s);
      assert TakenItems(t) == [] && t.written + InHand(t) == [];
    }
  }

  lemma AdmitKeepsInv(c: Config, s: State, item: Work)
    requires c.Valid() && Inv(c, s) && Enabled(c, s, Admit(item))
    ensures Inv(c, Apply(c, s, Admit(item)))
  {
    StartedKeepsInv(c, s);
    PutKeepsInv(c, Started(s), item);
  }

  lemma EnterBarrierKeepsInv(c: Config, s: State, id: nat, stop: bool)
    requires Inv(c, s) && Enabled(c, s, EnterBarrier(id, stop))
    ensures Inv(c, Apply(c, s, EnterBarrier(id, stop)))
  {
    var t := Apply(c, s, EnterBarrier(id, stop));
    QueueFrame(c, s, t);
    FileFrame(s, t);
  }

  lemma PutBarrierKeepsLog(c: Config, s: State, id: nat)
    requires LogInv(s) && LockInv(s) && Enabled(c, s, PutBarrier(id))
    ensures LogInv(Apply(c, s, PutBarrier(id))) && LockInv(Apply(c, s, PutBarrier(id)))
  {
    var t := Apply(c, s, PutBarrier(id));
    assert forall i :: 0 <= i < |s.log| ==> t.log[i] == s.log[i];
    assert forall i :: 0 <= i < |s.log| && s.log[i].Barrier? ==> s.log[i].id != id;
  }

  lemma PutBarrierKeepsInv(c: Config, s: State, id: nat)
    requires Inv(c, s) && Enabled(c, s, PutBarrier(id))
    ensures Inv(c, Apply(c, s, PutBarrier(id)))
  {
    PutKeepsFile(c, s, Barrier(id), Apply(c, s, PutBarrier(id)));
    PutBarrierKeepsLog(c, s, id);
  }

  /** Taking a barrier off the queue does not touch the records. */
  lemma BarrierTaken(c: Config, s: State, t: State)
    requires QueueInv(c, s) && FileInv(s) && s.queue != [] && s.queue[0].Barrier? && s.thread.Live?
    requires t.queue == s.queue[1..] && t.log == s.log && InHand(t) == InHand(s) && (s.error ==> t.error)
    requires t.file == s.file && t.base == s.base && t.written == s.written && t.handleOpen == s.handleOpen
    requires SetAside(t) == None || SetAside(t) == Some(s.queue[0].id)
    requires !t.thread.NoThread?
    ensures QueueInv(c, t) && FileInv(t)
  {
    TakeHead(c, s, t);
    if !s.error {
      AccountedBarrier(TakenItems(s), s.written + InHand(s), s.queue[0]);
    }
  }

  lemma CollectBarrierKeepsInv(c: Config, s: State)
    requires Inv(c, s) && Enabled(c, s, CollectItem) && s.queue[0].Barrier?
    ensures Inv(c, Apply(c, s, CollectItem))
  {
    var t := Apply(c, s, CollectItem);
    BarrierTaken(c, s, t);
    SyncFrame(s, t);
  }

  /** The barrier that finishes is the last item taken. */
  lemma FinishingBarrier(c: Config, s: State, id: nat)
    requires QueueInv(c, s) && NextBarrierIs(s, id)
    ensures var n := |s.log| - |s.queue|;
            if s.thread.pc.deferred.Some? then n > 0 && s.log[n - 1] == Barrier(id)
            else n < |s.log| && s.log[n] == Barrier(id)
  {
  }

  lemma FinishBarrierKeepsSync(c: Config, s: State, step: Step, k: nat)
    requires LogInv(s) && LockInv(s) && step.FinishBarrier? && Enabled(c, s, step)
    requires k < |s.log| && s.log[k] == Barrier(step.id)
    ensures LogInv(Apply(c, s, step)) && LockInv(Apply(c, s, step))
  {
    assert s.barriers[step.id].phase != Putting;
  }

  lemma FinishBarrierKeepsFile(c: Config, s: State, step: Step)
    requires QueueInv(c, s) && FileInv(s) && step.FinishBarrier? && Enabled(c, s, step)
    ensures QueueInv(c, Apply(c, s, step)) && FileInv(Apply(c, s, step))
  {
    var t := Apply(c, s, step);
    if s.thread.pc.deferred.None? {
      BarrierTaken(c, s, t);
    } else {
      QueueFrame(c, s, t);
      FileFrame(s, t);
    }
  }

  lemma FinishBarrierKeepsInv(c: Config, s: State, step: Step)
    requires Inv(c, s) && step.FinishBarrier? && Enabled(c, s, step)
    ensures Inv(c, Apply(c, s, step))
  {
    FinishBarrierKeepsFile(c, s, step);
    FinishingBarrier(c, s, step.id);
    var n := |s.log| - |s.queue|;
    FinishBarrierKeepsSync(c, s, step, if s.thread.pc.deferred.None? then n else n - 1);
  }

  /** Appending a batch to the published records publishes them all. */
  lemma PublishedAppend(base: Chars, written: seq<Chars>, records: seq<Chars>)
    requires records != []
    ensures Published(base, written + records)
         == (if written == [] then Terminated(base) else Published(base, written)) + Joined(records)
  {
    JoinedAppend(written, records);
    if written == [] {
      assert written + records == records;
    }
  }

  lemma WriteBatchKeepsFile(c: Config, s: State, result: WriteResult)
    requires QueueInv(c, s) && FileInv(s) && Enabled(c, s, WriteBatch(result))
    ensures FileInv(Apply(c, s, WriteBatch(result)))
  {
    var t := Apply(c, s, WriteBatch(result));
    var records := s.thread.pc.records;
    assert TakenItems(t) == TakenItems(s);
    assert t.written + [] == t.written;
    if records == [] {
      assert s.written + records == s.written;
    } else if !s.error && result.WriteOk? {
      PublishedAppend(s.base, s.written, records);
    }
  }

  lemma WriteBatchKeepsInv(c: Config, s: State, result: WriteResult)
    requires Inv(c, s) && Enabled(c, s, WriteBatch(result))
    ensures Inv(c, Apply(c, s, WriteBatch(result)))
  {
    var t := Apply(c, s, WriteBatch(result));
    QueueFrame(c, s, t);
    SyncFrame(s, t);
    WriteBatchKeepsFile(c, s, result);
  }

  lemma EndCollectKeepsInv(c: Config, s: State)
    requires Inv(c, s) && Enabled(c, s, EndCollect)
    ensures Inv(c, Apply(c, s, EndCollect))
  {
    var t := Apply(c, s, EndCollect);
    QueueFrame(c, s, t);
    FileFrame(s, t);
    SyncFrame(s, t);
  }

  lemma ResetKeepsInv(c: Config, s: State, id: nat)
    requires Inv(c, s) && Enabled(c, s, Reset(id))
    ensures Inv(c, Apply(c, s, Reset(id)))
  {
  }

  /** Every step of every thread keeps the invariant. */
  lemma StepKeepsInv(c: Config, s: State, step: Step)
    requires c.Valid() && Inv(c, s) && Enabled(c, s, step)
    ensures Inv(c, Apply(c, s, step))
  {
    match step
    case Admit(item) => AdmitKeepsInv(c, s, item);
    case EnterBarrier(id, stop) => EnterBarrierKeepsInv(c, s, id, stop);
    case PutBarrier(id) => PutBarrierKeepsInv(c, s, id);
    case FetchItem => TakenKeepsInv(c, s, [], 0);
    case FinishBarrier(_, _, _) => FinishBarrierKeepsInv(c, s, step);
    case CollectItem =>
      if s.queue[0].Barrier? {
        CollectBarrierKeepsInv(c, s);
      } else {
        TakenKeepsInv(c, s, s.thread.pc.records, s.thread.pc.bytes);
      }
    case EndCollect => EndCollectKeepsInv(c, s);
    case WriteBatch(result) => WriteBatchKeepsInv(c, s, result);
    case Reset(id) => ResetKeepsInv(c, s, id);
  }

  lemma InitInv(c: Config, file: Chars)
    ensures Inv(c, Init(file))
  {
  }

  lemma {:induction false} RunKeepsInv(c: Config, path: seq<State>, steps: seq<Step>, n: nat)
    requires c.Valid() && IsRun(c, path, steps) && Inv(c, path[0]) && n <= |steps|
    ensures Inv(c, path[n])
  {
    if n > 0 {
      RunKeepsInv(c, path, steps, n - 1);
      StepKeepsInv(c, path[n - 1], steps[n - 1]);
    }
  }

  lemma ReachableInv(c: Config, s: State)
    requires c.Valid() && Reachable(c, s)
    ensures Inv(c, s)
  {
    var file, path, steps :| IsRun(c, path, steps) && path[0] == Init(file) && path[|steps|] == s;
    InitInv(c, file);
    RunKeepsInv(c, path, steps, |steps|);
  }

  // ----- ordering and completeness at a barrier

  /** When a barrier reports no error, the file is exactly what it was when the lifecycle began, its
      torn tail terminated, followed by every record admitted before the barrier, once each and in
      admission order.  A lost record therefore makes the barrier report an error. */
  lemma BarrierPublishes(c: Config, s: State, step: Step) returns (k: nat)
    requires c.Valid() && Reachable(c, s) && step.FinishBarrier? && Enabled(c, s, step)
    requires Apply(c, s, step).barriers[step.id].phase == Finished(false)
    ensures k < |s.log| && s.log[k] == Barrier(step.id)
    ensures forall j :: 0 <= j < |s.log| && s.log[j] == Barrier(step.id) ==> j == k
    ensures AllRender(s.log[..k])
    ensures Apply(c, s, step).file == Published(s.base, Texts(s.log[..k]))
    ensures Rows(Apply(c, s, step).file) == (if Texts(s.log[..k]) == [] then Rows(s.base) else Rows(Terminated(s.base)))
                                            + Texts(s.log[..k])
  {
    ReachableInv(c, s);
    k := PublishedBefore(c, s, step.id);
    TextsAreLines(s.log[..k]);
    PublishedRows(s.base, Texts(s.log[..k]));
  }

  /** Everything taken before the barrier that is about to finish has been written. */
  lemma PublishedBefore(c: Config, s: State, id: nat) returns (k: nat)
    requires QueueInv(c, s) && FileInv(s) && NextBarrierIs(s, id) && !s.error
    ensures k < |s.log| && s.log[k] == Barrier(id)
    ensures AllRender(s.log[..k]) && s.file == Published(s.base, Texts(s.log[..k]))
  {
    FinishingBarrier(c, s, id);
    var n := |s.log| - |s.queue|;
    assert s.written + [] == s.written;
    if s.thread.pc.deferred.None? {
      k := n;
    } else {
      k := n - 1;
      assert s.log[..n] == s.log[..k] + [s.log[k]];
      AccountedWithoutBarrier(s.log[..k], s.written, s.log[k]);
    }
  }

  lemma AccountedWithoutBarrier(items: seq<Work>, texts: seq<Chars>, item: Work)
    requires Accounted(items + [item], texts) && item.Barrier?
    ensures Accounted(items, texts)
  {
    TextsSnoc(items, item);
    assert Texts(items) + [] == Texts(items);
    assert forall i :: 0 <= i < |items| ==> (items + [item])[i] == items[i];
  }

  /** The terminated rows of a file. */
  function Rows(file: Chars): seq<Chars> {
    if file == [] then []
    else
      var front, last := file[..|file| - 1], file[|file| - 1];
      if last == LF then Rows(front) + [Tail(front)] else Rows(front)
  }

  /** The characters after the last line feed. */
  function Tail(file: Chars): Chars {
    if file == [] || file[|file| - 1] == LF then [] else Tail(file[..|file| - 1]) + [file[|file| - 1]]
  }

  lemma {:induction false} RowsOfLine(file: Chars, line: Chars)
    requires LF !in line
    ensures Rows(file + line) == Rows(file) && Tail(file + line) == Tail(file) + line
  {
    if line == [] {
      assert file + line == file;
    } else {
      var m := |line| - 1;
      assert (file + line)[..|file| + m] == file + line[..m];
      assert line == line[..m] + [line[m]];
      RowsOfLine(file, line[..m]);
    }
  }

  lemma RowsOfRow(file: Chars, line: Chars)
    requires LF !in line && Tail(file) == []
    ensures Rows(file + line + [LF]) == Rows(file) + [line] && Tail(file + line + [LF]) == []
  {
    RowsOfLine(file, line);
    assert [] + line == line;
    assert (file + line + [LF])[..|file + line|] == file + line;
  }

  lemma {:induction false} RowsOfJoined(file: Chars, records: seq<Chars>)
    requires Tail(file) == [] && forall i :: 0 <= i < |records| ==> LF !in records[i]
    ensures Rows(file + Joined(records)) == Rows(file) + records && Tail(file + Joined(records)) == []
  {
    if records == [] {
      assert file + Joined(records) == file;
    } else {
      var m := |records| - 1;
      RowsOfJoined(file, records[..m]);
      RowsOfRow(file + Joined(records[..m]), records[m]);
      assert file + Joined(records) == file + Joined(records[..m]) + records[m] + [LF];
      assert records == records[..m] + [records[m]];
    }
  }

  lemma PublishedRows(base: Chars, records: seq<Chars>)
    requires forall i :: 0 <= i < |records| ==> LF !in records[i]
    ensures Rows(Published(base, records)) == (if records == [] then Rows(base) else Rows(Terminated(base))) + records
  {
    if records != [] {
      RowsOfJoined(Terminated(base), records);
    }
  }

  lemma {:induction false} TextsAreLines(items: seq<Work>)
    requires forall i :: 0 <= i < |items| && items[i].Line? ==> OneLine(items[i].text)
    ensures forall i :: 0 <= i < |Texts(items)| ==> LF !in Texts(items)[i]
  {
    if items != [] {
      TextsAreLines(items[..|items| - 1]);
    }
  }

  /** No step of any thread removes or rewrites what is already in the file. */
  lemma FileOnlyGrows(c: Config, s: State, step: Step)
    requires Enabled(c, s, step)
    ensures s.file <= Apply(c, s, step).file
  {
  }

  // ----- bounds

  lemma BoundsHold(c: Config, s: State)
    requires c.Valid() && Reachable(c, s)
    ensures |s.queue| <= c.maxPending
    ensures s.thread.Live? && s.thread.pc.Write? ==>
              var batch := s.thread.pc.records;
              && |batch| <= c.batchSize
              && (batch != [] ==> EncodedSizes(batch[..|batch| - 1]) < c.maxBatchBytes)
  {
    ReachableInv(c, s);
  }

  // ----- progress

  /** The barrier `b` of the current lifecycle has not been served yet. */
  predicate Pending(s: State, b: nat) {
    s.lock == Some(b) || Barrier(b) in s.queue || SetAside(s) == Some(b)
  }

  function Index(queue: seq<Work>, b: nat): (i: nat)
    ensures i <= |queue| && (i < |queue| ==> queue[i] == Barrier(b))
    ensures forall j :: 0 <= j < i ==> queue[j] != Barrier(b)
  {
    if queue == [] || queue[0] == Barrier(b) then 0 else 1 + Index(queue[1..], b)
  }

  function PcRank(pc: Pc): nat {
    match pc
    case Fetch(deferred) => if deferred.Some? then 1 else 0
    case Collect(_, _) => 2
    case Write(_, deferred) => if deferred.Some? then 2 else 1
  }

  /** How many steps of the writer, or of the thread putting `b`, are left at most. */
  function Rank(s: State, b: nat): nat
    requires s.thread.Live?
  {
    PcRank(s.thread.pc) +
    if SetAside(s) == Some(b) then 0 else 3 * (Index(s.queue, b) + 1) + if s.lock == Some(b) then 1 else 0
  }

  predicate Serves(step: Step, b: nat) {
    IsWriterStep(step) || step == PutBarrier(b)
  }

  /** The step from `s` to `t` finished `b`, crashed the writer, or left `b` pending and no further away. */
  ghost predicate Advances(s: State, step: Step, t: State, b: nat)
    requires s.thread.Live?
  {
    || t.thread == Dead(true)
    || (b in t.barriers && t.barriers[b].phase.Finished?)
    || (&& t.thread.Live? && Pending(t, b) && Rank(t, b) <= Rank(s, b)
        && (Serves(step, b) ==> Rank(t, b) < Rank(s, b)))
  }

  lemma IndexOfTail(queue: seq<Work>, b: nat)
    requires queue != [] && queue[0] != Barrier(b)
    ensures Index(queue[1..], b) == Index(queue, b) - 1
  {
  }

  lemma {:induction false} IndexOfAppend(queue: seq<Work>, item: Work, b: nat)
    requires item != Barrier(b) ==> Barrier(b) in queue
    ensures Index(queue + [item], b) == Index(queue, b)
  {
    if queue == [] {
      assert [item][0] == Barrier(b);
    } else if queue[0] != Barrier(b) {
      assert (queue + [item])[1..] == queue[1..] + [item];
      IndexOfAppend(queue[1..], item, b);
    }
  }

  /** A pending barrier never waits for the lock: the writer, or the put itself, can always move. */
  lemma PendingIsNotStuck(c: Config, s: State, b: nat) returns (step: Step)
    requires c.Valid() && Inv(c, s) && s.thread.Live? && Pending(s, b)
    ensures Enabled(c, s, step) && Serves(step, b)
  {
    match s.thread.pc
    case Collect(records, bytes) =>
      step := if s.queue == [] || !BatchHasRoom(c, records, bytes) then EndCollect else CollectItem;
    case Write(_, _) =>
      step := WriteBatch(WriteOk);
    case Fetch(deferred) =>
      if deferred.Some? {
        FinishingBarrier(c, s, deferred.value);
        step := FinishBarrier(deferred.value, false, false);
      } else if s.queue == [] {
        step := PutBarrier(b);
      } else if s.queue[0].Barrier? {
        FinishingBarrier(c, s, s.queue[0].id);
        step := FinishBarrier(s.queue[0].id, false, false);
      } else {
        step := FetchItem;
      }
  }

  lemma QueuedIsLogged(c: Config, s: State, b: nat) returns (i: nat)
    requires QueueInv(c, s) && Barrier(b) in s.queue
    ensures |s.log| - |s.queue| <= i < |s.log| && s.log[i] == Barrier(b)
    ensures s.queue[0] != Barrier(b) ==> |s.log| - |s.queue| < i
  {
    var j :| 0 <= j < |s.queue| && s.queue[j] == Barrier(b);
    i := |s.log| - |s.queue| + j;
  }

  /** Serving a different barrier does not end the thread while `b` is pending. */
  lemma OtherBarrierIsNoClose(c: Config, s: State, b: nat, id: nat)
    requires QueueInv(c, s) && LogInv(s) && s.thread.Live? && Pending(s, b) && NextBarrierIs(s, id) && id != b
    ensures id in s.barriers && !s.barriers[id].stop
  {
    FinishingBarrier(c, s, id);
    if Barrier(b) in s.queue {
      var i := QueuedIsLogged(c, s, b);
    }
  }

  lemma FinishRank(c: Config, s: State, step: Step, b: nat)
    requires QueueInv(c, s) && LogInv(s) && s.thread.Live? && Pending(s, b) && Enabled(c, s, step)
    requires step.FinishBarrier?
    ensures Advances(s, step, Apply(c, s, step), b)
  {
    if step.id != b {
      OtherBarrierIsNoClose(c, s, b, step.id);
      HeadLeaves(s, Apply(c, s, step), b);
    }
  }

  /** What happens to the distance of `b` when something else leaves the head of the queue, or nothing does. */
  lemma HeadLeaves(s: State, t: State, b: nat)
    requires s.thread.Live? && t.thread.Live? && Pending(s, b) && SetAside(s) != Some(b) && t.lock == s.lock
    requires t.queue == s.queue || (s.queue != [] && s.queue[0] != Barrier(b) && t.queue == s.queue[1..])
    ensures Pending(t, b)
    ensures SetAside(t) != Some(b) ==>
              Rank(t, b) + PcRank(s.thread.pc) + 3 * (|s.queue| - |t.queue|) == Rank(s, b) + PcRank(t.thread.pc)
  {
    if t.queue != s.queue {
      IndexOfTail(s.queue, b);
      assert s.queue == [s.queue[0]] + s.queue[1..];
    }
  }

  lemma TakeRank(c: Config, s: State, step: Step, b: nat)
    requires s.thread.Live? && Pending(s, b) && Enabled(c, s, step)
    requires step.FetchItem? || step.CollectItem?
    ensures Advances(s, step, Apply(c, s, step), b)
  {
    var t := Apply(c, s, step);
    if t.thread.Live? && s.queue[0] != Barrier(b) {
      HeadLeaves(s, t, b);
    }
  }

  /** Something joins the queue behind `b`, or `b` itself does. */
  lemma TailGrows(s: State, t: State, b: nat, item: Work)
    requires s.thread.Live? && t.thread == s.thread && t.queue == s.queue + [item]
    requires SetAside(s) == Some(b) || Barrier(b) in s.queue || item == Barrier(b)
    ensures Pending(t, b) && Rank(t, b) + (if SetAside(s) != Some(b) && s.lock == Some(b) then 1 else 0)
                          == Rank(s, b) + (if SetAside(s) != Some(b) && t.lock == Some(b) then 1 else 0)
  {
    assert item == t.queue[|s.queue|];
    if SetAside(s) != Some(b) {
      IndexOfAppend(s.queue, item, b);
    }
  }

  lemma AdmitRank(c: Config, s: State, step: Step, b: nat)
    requires s.thread.Live? && Pending(s, b) && Enabled(c, s, step) && step.Admit?
    ensures Advances(s, step, Apply(c, s, step), b)
  {
    TailGrows(s, Apply(c, s, step), b, step.item);
  }

  lemma PutRank(c: Config, s: State, step: Step, b: nat)
    requires s.thread.Live? && Pending(s, b) && Enabled(c, s, step)
    requires step.PutBarrier? && (SetAside(s) == Some(b) ==> s.lock != Some(b))
    ensures Advances(s, step, Apply(c, s, step), b)
  {
    TailGrows(s, Apply(c, s, step), b, Barrier(step.id));
  }

  lemma BatchRank(c: Config, s: State, step: Step, b: nat)
    requires s.thread.Live? && Pending(s, b) && Enabled(c, s, step) && (step.EndCollect? || step.WriteBatch?)
    ensures Advances(s, step, Apply(c, s, step), b)
  {
  }

  lemma EnterRank(c: Config, s: State, step: Step, b: nat)
    requires s.thread.Live? && Pending(s, b) && b in s.barriers && Enabled(c, s, step) && step.EnterBarrier?
    ensures Advances(s, step, Apply(c, s, step), b)
  {
  }

  /** A pending barrier is known, and once put it no longer holds the lock. */
  lemma PendingIsKnown(c: Config, s: State, b: nat)
    requires QueueInv(c, s) && LogInv(s) && LockInv(s) && Pending(s, b)
    ensures b in s.barriers && (SetAside(s) == Some(b) ==> s.lock != Some(b))
  {
    if SetAside(s) == Some(b) {
      assert s.log[|s.log| - |s.queue| - 1] == Barrier(b);
    } else if Barrier(b) in s.queue {
      var i := QueuedIsLogged(c, s, b);
    }
  }

  /** No step moves a pending barrier back, and every step that serves it moves it forward. */
  lemma ProgressStep(c: Config, s: State, step: Step, b: nat)
    requires c.Valid() && Inv(c, s) && s.thread.Live? && Pending(s, b) && Enabled(c, s, step)
    ensures Advances(s, step, Apply(c, s, step), b)
  {
    PendingIsKnown(c, s, b);
    match step
    case FinishBarrier(_, _, _) => FinishRank(c, s, step, b);
    case FetchItem => TakeRank(c, s, step, b);
    case CollectItem => TakeRank(c, s, step, b);
    case Admit(_) => AdmitRank(c, s, step, b);
    case PutBarrier(_) => PutRank(c, s, step, b);
    case EnterBarrier(_, _) => EnterRank(c, s, step, b);
    case EndCollect => BatchRank(c, s, step, b);
    case WriteBatch(_) => BatchRank(c, s, step, b);
    case Reset(_) =>
  }

  function ServingSteps(steps: seq<Step>, n: nat, b: nat): nat
    requires n <= |steps|
  {
    if n == 0 then 0 else ServingSteps(steps, n - 1, b) + if Serves(steps[n - 1], b) then 1 else 0
  }

  /** Along any run in which the writer does not crash, a pending barrier is finished before the writer
      and the putting thread have taken more than `Rank` steps between them. */
  lemma {:induction false} BarrierIsServed(c: Config, path: seq<State>, steps: seq<Step>, b: nat, n: nat)
    requires c.Valid() && IsRun(c, path, steps) && Inv(c, path[0]) && path[0].thread.Live? && Pending(path[0], b)
    requires n <= |steps| && forall i :: 0 <= i <= n ==> path[i].thread != Dead(true)
    requires forall i :: 0 <= i <= n && b in path[i].barriers ==> !path[i].barriers[b].phase.Finished?
    ensures path[n].thread.Live? && Pending(path[n], b)
    ensures ServingSteps(steps, n, b) + Rank(path[n], b) <= Rank(path[0], b)
  {
    if n > 0 {
      BarrierIsServed(c, path, steps, b, n - 1);
      RunKeepsInv(c, path, steps, n - 1);
      ProgressStep(c, path[n - 1], steps[n - 1], b);
    }
  }

  // ----- the one way to lose the thread

  /** The record the writer takes in this step. */
  predicate TakesUnencodable(s: State, step: Step) {
    && (step.FetchItem? || step.CollectItem?) && s.queue != []
    && Render(s.queue[0]).Some? && !Encodable(Render(s.queue[0]).value)
  }

  lemma CrashIffUnencodable(c: Config, s: State, step: Step)
    requires Enabled(c, s, step) && s.thread != Dead(true)
    ensures Apply(c, s, step).thread == Dead(true) <==> TakesUnencodable(s, step)
  {
  }

  predicate AllEncodable(items: seq<Work>) {
    forall i :: 0 <= i < |items| && Render(items[i]).Some? ==> Encodable(Render(items[i]).value)
  }

  /** If every admitted record that renders can be encoded, the writer never crashes. */
  lemma {:induction false} EncodableRunsDoNotCrash(c: Config, path: seq<State>, steps: seq<Step>, n: nat)
    requires c.Valid() && IsRun(c, path, steps) && Inv(c, path[0]) && n <= |steps|
    requires path[0].thread != Dead(true) && AllEncodable(path[0].log)
    requires forall i :: 0 <= i < |steps| && steps[i].Admit? && Render(steps[i].item).Some? ==>
               Encodable(Render(steps[i].item).value)
    ensures path[n].thread != Dead(true) && AllEncodable(path[n].log)
  {
    if n > 0 {
      EncodableRunsDoNotCrash(c, path, steps, n - 1);
      RunKeepsInv(c, path, steps, n - 1);
      EncodableStep(c, path[n - 1], steps[n - 1]);
    }
  }

  lemma HeadIsEncodable(c: Config, s: State)
    requires QueueInv(c, s) && AllEncodable(s.log) && s.thread != Dead(true) && s.queue != []
    ensures Render(s.queue[0]).Some? ==> Encodable(Render(s.queue[0]).value)
  {
    assert s.queue[0] == s.log[|s.log| - |s.queue|];
  }

  lemma LogStaysEncodable(c: Config, s: State, step: Step)
    requires AllEncodable(s.log) && Enabled(c, s, step)
    requires step.Admit? && Render(step.item).Some? ==> Encodable(Render(step.item).value)
    ensures AllEncodable(Apply(c, s, step).log)
  {
  }

  lemma EncodableStep(c: Config, s: State, step: Step)
    requires QueueInv(c, s) && s.thread != Dead(true) && AllEncodable(s.log) && Enabled(c, s, step)
    requires step.Admit? && Render(step.item).Some? ==> Encodable(Render(step.item).value)
    ensures Apply(c, s, step).thread != Dead(true) && AllEncodable(Apply(c, s, step).log)
  {
    CrashIffUnencodable(c, s, step);
    LogStaysEncodable(c, s, step);
    if s.queue != [] {
      HeadIsEncodable(c, s);
    }
  }

  // ----- failures

  /** What a step must be while the sticky error is set, and what it leaves. */
  predicate Sticks(s: State, step: Step, t: State) {
    && t.error && !step.Admit? && (step.EnterBarrier? ==> step.stop)
    && (step.FinishBarrier? ==> step.id in t.barriers && t.barriers[step.id].phase == Finished(true))
  }

  lemma StickyStep(c: Config, s: State, step: Step)
    requires s.error && Enabled(c, s, step) && !step.Reset?
    ensures Sticks(s, step, Apply(c, s, step))
  {
  }

  /** From an error to the next completed close no record is admitted, no flush begins, and every barrier that
      finishes reports the error. */
  lemma {:induction false} ErrorSticks(c: Config, path: seq<State>, steps: seq<Step>, i: nat, n: nat)
    requires IsRun(c, path, steps) && i <= n <= |steps| && path[i].error
    requires forall j :: i <= j < n ==> !steps[j].Reset?
    ensures path[n].error && forall j :: i <= j < n ==> Sticks(path[j], steps[j], path[j + 1])
  {
    if i < n {
      ErrorSticks(c, path, steps, i, n - 1);
      StickyStep(c, path[n - 1], steps[n - 1]);
    }
  }

  /** The step fails: a write, a flush, a close or a renderer. */
  predicate Fails(s: State, step: Step) {
    match step
    case WriteBatch(result) => s.thread.Live? && s.thread.pc.Write? && s.thread.pc.records != [] && !result.WriteOk?
    case FinishBarrier(id, flushFails, closeFails) =>
      s.handleOpen && (flushFails || (closeFails && id in s.barriers && s.barriers[id].stop))
    case FetchItem => s.queue != [] && Render(s.queue[0]).None?
    case CollectItem => s.queue != [] && !s.queue[0].Barrier? && Render(s.queue[0]).None?
    case _ => false
  }

  /** The error is set exactly by a failure. */
  lemma ErrorIffFailure(c: Config, s: State, step: Step)
    requires Enabled(c, s, step) && !s.error
    ensures Apply(c, s, step).error <==> Fails(s, step)
  {
  }

  /** A run without failures has no error, and all its finished barriers are clean. */
  lemma {:induction false} NoFailureNoError(c: Config, file: Chars, path: seq<State>, steps: seq<Step>, n: nat)
    requires IsRun(c, path, steps) && path[0] == Init(file) && n <= |steps|
    requires forall i :: 0 <= i < n ==> !Fails(path[i], steps[i])
    ensures !path[n].error
    ensures forall b :: b in path[n].barriers && path[n].barriers[b].phase.Finished? ==>
              path[n].barriers[b].phase == Finished(false)
  {
    if n > 0 {
      NoFailureNoError(c, file, path, steps, n - 1);
      ErrorIffFailure(c, path[n - 1], steps[n - 1]);
      CleanStep(c, path[n - 1], steps[n - 1]);
    }
  }

  predicate CleanBarriers(s: State) {
    forall b :: b in s.barriers && s.barriers[b].phase.Finished? ==> s.barriers[b].phase == Finished(false)
  }

  lemma CleanStep(c: Config, s: State, step: Step)
    requires Enabled(c, s, step) && !Apply(c, s, step).error && CleanBarriers(s)
    ensures CleanBarriers(Apply(c, s, step))
  {
  }

  // ----- what a whole run promises

  /** What was admitted, and the barriers put in between, since the last close was completed. */
  function Puts(steps: seq<Step>, n: nat): seq<Work>
    requires n <= |steps|
  {
    if n == 0 then []
    else
      match steps[n - 1]
      case Admit(item) => Puts(steps, n - 1) + [item]
      case PutBarrier(id) => Puts(steps, n - 1) + [Barrier(id)]
      case Reset(_) => []
      case _ => Puts(steps, n - 1)
  }

  /** The number of steps up to the last completed close. */
  function Opening(steps: seq<Step>, n: nat): (m: nat)
    requires n <= |steps|
    ensures m <= n
  {
    if n == 0 then 0 else if steps[n - 1].Reset? then n else Opening(steps, n - 1)
  }

  /** An append that finds the thread crashed: it starts a new one with an empty queue. */
  predicate Restarts(s: State, step: Step) {
    step.Admit? && s.thread == Dead(true)
  }

  ghost predicate NoRestart(path: seq<State>, steps: seq<Step>, n: nat)
    requires n <= |steps| && |path| == |steps| + 1
  {
    forall i :: Opening(steps, n) <= i < n ==> !Restarts(path[i], steps[i])
  }

  /** While no thread has ever run, or none since the last close, the file is the base. */
  predicate IdleInv(s: State) {
    && (s.thread.NoThread? ==> s.base == s.file && s.log == [])
    && (s.thread == Dead(true) ==> s.log != [])
  }

  lemma IdleStep(c: Config, s: State, step: Step)
    requires |s.queue| <= |s.log| && (s.thread.NoThread? ==> s.lock == None) && IdleInv(s) && Enabled(c, s, step)
    ensures IdleInv(Apply(c, s, step))
  {
  }

  lemma {:induction false} RunKeepsIdle(c: Config, path: seq<State>, steps: seq<Step>, n: nat)
    requires c.Valid() && IsRun(c, path, steps) && Inv(c, path[0]) && IdleInv(path[0]) && n <= |steps|
    ensures IdleInv(path[n])
  {
    if n > 0 {
      RunKeepsIdle(c, path, steps, n - 1);
      RunKeepsInv(c, path, steps, n - 1);
      IdleStep(c, path[n - 1], steps[n - 1]);
    }
  }

  /** How one step changes the log of the lifecycle and its base. */
  lemma LogStep(c: Config, s: State, step: Step)
    requires IdleInv(s) && (s.thread == Dead(false) ==> s.closing) && Enabled(c, s, step)
    ensures var t := Apply(c, s, step);
            match step
            case Admit(item) => t.log == (if Restarts(s, step) then [] else s.log) + [item]
            case PutBarrier(id) => t.log == s.log + [Barrier(id)]
            case Reset(_) => t.log == []
            case _ => t.log == s.log
    ensures !Restarts(s, step) ==> Apply(c, s, step).base == if step.Reset? then Apply(c, s, step).file else s.base
  {
  }

  /** The log is never longer than what was put since the last close, and it is all of that exactly as long
      as no append had to restart a crashed thread. */
  lemma {:induction false} LogIsWholeIff(c: Config, path: seq<State>, steps: seq<Step>, n: nat)
    requires c.Valid() && IsRun(c, path, steps) && Inv(c, path[0]) && IdleInv(path[0]) && path[0].log == []
    requires n <= |steps|
    ensures path[n].log == Puts(steps, n) <==> NoRestart(path, steps, n)
    ensures |path[n].log| <= |Puts(steps, n)| && (path[n].log != Puts(steps, n) ==> |path[n].log| < |Puts(steps, n)|)
  {
    if n > 0 {
      var s, step := path[n - 1], steps[n - 1];
      LogIsWholeIff(c, path, steps, n - 1);
      RunKeepsInv(c, path, steps, n - 1);
      RunKeepsIdle(c, path, steps, n - 1);
      LogStep(c, s, step);
      if !step.Reset? {
        assert NoRestart(path, steps, n) <==> NoRestart(path, steps, n - 1) && !Restarts(s, step);
      }
    }
  }

  lemma {:induction false} BaseIsOpening(c: Config, path: seq<State>, steps: seq<Step>, n: nat)
    requires c.Valid() && IsRun(c, path, steps) && Inv(c, path[0]) && IdleInv(path[0]) && path[0].base == path[0].file
    requires n <= |steps|
    requires NoRestart(path, steps, n)
    ensures path[n].base == path[Opening(steps, n)].file
  {
    if n > 0 {
      RunKeepsInv(c, path, steps, n - 1);
      RunKeepsIdle(c, path, steps, n - 1);
      LogStep(c, path[n - 1], steps[n - 1]);
      if !steps[n - 1].Reset? {
        assert NoRestart(path, steps, n - 1);
        BaseIsOpening(c, path, steps, n - 1);
      }
    }
  }

  /** What a barrier that reports no error promises over a whole run: everything admitted before it since
      the last close is in the file, once each and in order, behind what was there at that close. */
  ghost predicate Visible(path: seq<State>, steps: seq<Step>, n: nat, k: nat)
    requires n < |steps| && |path| == |steps| + 1 && steps[n].FinishBarrier?
  {
    var puts := Puts(steps, n);
    && k < |puts| && puts[k] == Barrier(steps[n].id) && AllRender(puts[..k])
    && path[n + 1].file == Published(path[Opening(steps, n)].file, Texts(puts[..k]))
  }

  ghost predicate Reported(path: seq<State>, steps: seq<Step>, n: nat) {
    && n < |steps| && |path| == |steps| + 1 && steps[n].FinishBarrier? && steps[n].id in path[n + 1].barriers
    && path[n + 1].barriers[steps[n].id].phase == Finished(false)
  }

  lemma PathReaches(c: Config, file: Chars, path: seq<State>, steps: seq<Step>, n: nat)
    requires IsRun(c, path, steps) && path[0] == Init(file) && n <= |steps|
    ensures Reachable(c, path[n])
  {
    var path', steps' := path[..n + 1], steps[..n];
    assert IsRun(c, path', steps') && path'[0] == Init(file) && path'[|steps'|] == path[n];
  }

  /** In every run whose records all encode or fail to render, a flush or close that reports no error has
      published everything admitted before it since the last close. */
  lemma EncodableFlushPublishes(c: Config, file: Chars, path: seq<State>, steps: seq<Step>, n: nat) returns (k: nat)
    requires c.Valid() && IsRun(c, path, steps) && path[0] == Init(file) && Reported(path, steps, n)
    requires forall i :: 0 <= i < |steps| && steps[i].Admit? && Render(steps[i].item).Some? ==>
               Encodable(Render(steps[i].item).value)
    ensures Visible(path, steps, n, k)
  {
    InitInv(c, file);
    forall i | Opening(steps, n) <= i < n
      ensures !Restarts(path[i], steps[i])
    {
      EncodableRunsDoNotCrash(c, path, steps, i);
    }
    k := UninterruptedFlushPublishes(c, file, path, steps, n);
  }

  /** The same for any run in which no append since the last close had to restart a crashed thread. */
  lemma UninterruptedFlushPublishes(c: Config, file: Chars, path: seq<State>, steps: seq<Step>, n: nat) returns (k: nat)
    requires c.Valid() && IsRun(c, path, steps) && path[0] == Init(file) && Reported(path, steps, n)
    requires NoRestart(path, steps, n)
    ensures Visible(path, steps, n, k)
  {
    InitInv(c, file);
    LogIsWholeIff(c, path, steps, n);
    BaseIsOpening(c, path, steps, n);
    PathReaches(c, file, path, steps, n);
    k := FinishPublishes(c, path[n], steps[n], path[n + 1]);
  }

  lemma FinishPublishes(c: Config, s: State, step: Step, t: State) returns (k: nat)
    requires c.Valid() && Reachable(c, s) && step.FinishBarrier? && Enabled(c, s, step) && t == Apply(c, s, step)
    requires t.barriers[step.id].phase == Finished(false)
    ensures k < |s.log| && s.log[k] == Barrier(step.id) && AllRender(s.log[..k])
    ensures t.file == Published(s.base, Texts(s.log[..k]))
  {
    k := BarrierPublishes(c, s, step);
  }

  // ----- exactly which flushes publish everything

  lemma {:induction false} TextsAppend(a: seq<Work>, b: seq<Work>)
    ensures Texts(a + b) == Texts(a) + Texts(b)
  {
    if b == [] {
      assert a + b == a;
    } else {
      var m := |b| - 1;
      TextsAppend(a, b[..m]);
      assert (a + b)[..|a| + m] == a + b[..m];
    }
  }

  lemma EncodableParts(a: seq<Work>, b: seq<Work>)
    ensures AllEncodable(a + b) <==> AllEncodable(a) && AllEncodable(b)
  {
    assert forall i :: 0 <= i < |a| ==> (a + b)[i] == a[i];
    assert forall i :: 0 <= i < |b| ==> (a + b)[|a| + i] == b[i];
  }

  /** A crash without error: what was written is in the file, and at least one more record was taken, the
      last of them without an encoding. */
  ghost predicate Lost(s: State, lost: seq<Chars>)
    requires |s.queue| <= |s.log|
  {
    lost != [] && Texts(TakenItems(s)) == s.written + lost && !AllEncodable(TakenItems(s))
      && s.file == Published(s.base, s.written)
  }

  ghost predicate CrashInv(s: State)
    requires |s.queue| <= |s.log|
  {
    && (s.thread.Live? ==> AllEncodable(TakenItems(s)))
    && (s.thread == Dead(true) && !s.error ==> exists lost :: Lost(s, lost))
  }

  /** The writer takes the head of the queue. */
  lemma TakenKeepsCrash(c: Config, s: State, records: seq<Chars>, bytes: nat)
    requires QueueInv(c, s) && FileInv(s) && CrashInv(s) && s.queue != [] && !s.queue[0].Barrier? && s.thread.Live?
    requires InHand(s) == records
    ensures var t := Taken(s.(queue := s.queue[1..]), s.queue[0], records, bytes); |t.queue| <= |t.log| && CrashInv(t)
  {
    var item := s.queue[0];
    var t := Taken(s.(queue := s.queue[1..]), item, records, bytes);
    TakeHead(c, s, t);
    EncodableParts(TakenItems(s), [item]);
    if t.thread == Dead(true) && !t.error {
      var line := Render(item).value;
      TextsSnoc(TakenItems(s), item);
      assert s.written + (records + [line]) == s.written + records + [line];
      assert Lost(t, records + [line]);
    }
  }

  /** A barrier leaves the head of the queue. */
  lemma BarrierKeepsCrash(c: Config, s: State, t: State)
    requires QueueInv(c, s) && CrashInv(s) && s.thread.Live? && s.queue != [] && s.queue[0].Barrier?
    requires t.queue == s.queue[1..] && t.log == s.log && t.thread != Dead(true)
    ensures |t.queue| <= |t.log| && CrashInv(t)
  {
    TakeHead(c, s, t);
    EncodableParts(TakenItems(s), [s.queue[0]]);
  }

  lemma PutKeepsCrash(s: State, t: State, item: Work)
    requires |s.queue| <= |s.log| && CrashInv(s) && t.queue == s.queue + [item] && t.log == s.log + [item]
    requires t.thread == s.thread && t.error == s.error && t.written == s.written && t.file == s.file
    requires t.base == s.base
    ensures CrashInv(t)
  {
    assert TakenItems(t) == TakenItems(s);
    if s.thread == Dead(true) && !s.error {
      var lost :| Lost(s, lost);
      assert Lost(t, lost);
    }
  }

  lemma CrashFrame(s: State, t: State)
    requires |s.queue| <= |s.log| && CrashInv(s) && t.queue == s.queue && t.log == s.log
    requires t.thread.Live? ==> s.thread.Live?
    requires t.thread == Dead(true) ==>
               && s.thread == Dead(true) && t.error == s.error
               && t.written == s.written && t.file == s.file && t.base == s.base
    ensures CrashInv(t)
  {
    if t.thread == Dead(true) && !t.error {
      var lost :| Lost(s, lost);
      assert Lost(t, lost);
    }
  }

  lemma AdmitKeepsCrash(c: Config, s: State, item: Work)
    requires QueueInv(c, s) && CrashInv(s) && Enabled(c, s, Admit(item))
    ensures var t := Apply(c, s, Admit(item)); |t.queue| <= |t.log| && CrashInv(t)
  {
    var t := Apply(c, s, Admit(item));
    if s.thread.Live? {
      PutKeepsCrash(s, t, item);
    } else {
      assert TakenItems(t) == [];
    }
  }

  lemma StepKeepsCrash(c: Config, s: State, step: Step)
    requires c.Valid() && Inv(c, s) && CrashInv(s) && Enabled(c, s, step)
    ensures |Apply(c, s, step).queue| <= |Apply(c, s, step).log| && CrashInv(Apply(c, s, step))
  {
    var t := Apply(c, s, step);
    match step
    case Admit(item) => AdmitKeepsCrash(c, s, item);
    case PutBarrier(id) => PutKeepsCrash(s, t, Barrier(id));
    case FetchItem => TakenKeepsCrash(c, s, [], 0);
    case FinishBarrier(_, _, _) =>
      if s.thread.pc.deferred.Some? {
        CrashFrame(s, t);
      } else {
        BarrierKeepsCrash(c, s, t);
      }
    case CollectItem =>
      if s.queue[0].Barrier? {
        BarrierKeepsCrash(c, s, t);
      } else {
        TakenKeepsCrash(c, s, s.thread.pc.records, s.thread.pc.bytes);
      }
    case Reset(_) =>
    case EnterBarrier(_, _) => CrashFrame(s, t);
    case EndCollect => CrashFrame(s, t);
    case WriteBatch(_) => CrashFrame(s, t);
  }

  lemma {:induction false} RunKeepsCrash(c: Config, path: seq<State>, steps: seq<Step>, n: nat)
    requires c.Valid() && IsRun(c, path, steps) && Inv(c, path[0]) && CrashInv(path[0]) && n <= |steps|
    ensures |path[n].queue| <= |path[n].log| && CrashInv(path[n])
  {
    if n > 0 {
      RunKeepsCrash(c, path, steps, n - 1);
      RunKeepsInv(c, path, steps, n - 1);
      StepKeepsCrash(c, path[n - 1], steps[n - 1]);
    }
  }

  /** What restarts since the last close have dropped from the log, and the lines written before them. */
  datatype Past = Past(dropped: seq<Work>, carried: seq<Chars>)

  const NO_PAST := Past([], [])

  ghost function PastOf(path: seq<State>, steps: seq<Step>, n: nat): Past
    requires n <= |steps| && |path| == |steps| + 1
  {
    if n == 0 || steps[n - 1].Reset? then NO_PAST
    else
      var past := PastOf(path, steps, n - 1);
      if Restarts(path[n - 1], steps[n - 1])
      then Past(past.dropped + path[n - 1].log, past.carried + path[n - 1].written)
      else past
  }

  /** Something was dropped only if a record without an encoding was, and then fewer lines were carried. */
  ghost predicate PastInv(past: Past) {
    if past.dropped == [] then past.carried == []
    else !AllEncodable(past.dropped) && |Joined(past.carried)| < |Joined(Texts(past.dropped))|
  }

  lemma PastGrows(past: Past, s: State, lost: seq<Chars>)
    requires PastInv(past) && |s.queue| <= |s.log| && Lost(s, lost)
    ensures PastInv(Past(past.dropped + s.log, past.carried + s.written))
  {
    var taken := TakenItems(s);
    assert s.log == taken + s.log[|taken|..];
    EncodableParts(taken, s.log[|taken|..]);
    EncodableParts(past.dropped, s.log);
    TextsAppend(taken, s.log[|taken|..]);
    TextsAppend(past.dropped, s.log);
    JoinedAppend(past.carried, s.written);
    JoinedAppend(Texts(past.dropped), Texts(s.log));
    JoinedAppend(Texts(taken), Texts(s.log[|taken|..]));
    JoinedAppend(s.written, lost);
    JoinedSome(lost);
  }

  lemma JoinedSome(lines: seq<Chars>)
    requires lines != []
    ensures |Joined(lines)| >= 1 && Joined(lines)[|Joined(lines)| - 1] == LF
  {
  }

  lemma PublishedTwice(base: Chars, first: seq<Chars>, second: seq<Chars>)
    ensures Published(Published(base, first), second) == Published(base, first + second)
  {
    if first == [] {
      assert first + second == second;
    } else if second == [] {
      assert first + second == first;
    } else {
      JoinedAppend(first, second);
      JoinedSome(first);
      assert Terminated(Published(base, first)) == Published(base, first);
    }
  }

  /** The whole story of a run since the last close. */
  ghost predicate StoryAt(path: seq<State>, steps: seq<Step>, n: nat)
    requires n <= |steps| && |path| == |steps| + 1
  {
    var past := PastOf(path, steps, n);
    && PastInv(past) && Puts(steps, n) == past.dropped + path[n].log
    && path[n].base == Published(path[Opening(steps, n)].file, past.carried)
  }

  /** An append that restarts a crashed thread. */
  lemma Restarted(c: Config, s: State, item: Work)
    requires |s.queue| <= |s.log| && CrashInv(s) && Enabled(c, s, Admit(item)) && s.thread == Dead(true)
    ensures var t := Apply(c, s, Admit(item)); t.log == [item] && t.base == s.file
    ensures exists lost :: Lost(s, lost)
  {
  }

  lemma RestartStory(c: Config, path: seq<State>, steps: seq<Step>, n: nat)
    requires IsRun(c, path, steps) && n < |steps| && StoryAt(path, steps, n) && Restarts(path[n], steps[n])
    requires |path[n].queue| <= |path[n].log| && CrashInv(path[n])
    ensures StoryAt(path, steps, n + 1)
  {
    var s, past := path[n], PastOf(path, steps, n);
    Restarted(c, s, steps[n].item);
    var lost :| Lost(s, lost);
    PastGrows(past, s, lost);
    PublishedTwice(path[Opening(steps, n)].file, past.carried, s.written);
    assert Opening(steps, n + 1) == Opening(steps, n);
    assert PastOf(path, steps, n + 1) == Past(past.dropped + s.log, past.carried + s.written);
    assert Puts(steps, n + 1) == past.dropped + s.log + path[n + 1].log;
  }

  lemma PlainStory(c: Config, path: seq<State>, steps: seq<Step>, n: nat)
    requires IsRun(c, path, steps) && n < |steps| && StoryAt(path, steps, n) && !Restarts(path[n], steps[n])
    requires IdleInv(path[n]) && (path[n].thread == Dead(false) ==> path[n].closing)
    ensures StoryAt(path, steps, n + 1)
  {
    LogStep(c, path[n], steps[n]);
    if steps[n].Reset? {
      assert Puts(steps, n + 1) == [] + path[n + 1].log;
    }
  }

  lemma StoryStarts(path: seq<State>, steps: seq<Step>)
    requires |path| == |steps| + 1 && path[0].log == [] && path[0].base == path[0].file
    ensures StoryAt(path, steps, 0)
  {
  }

  lemma StoryStep(c: Config, path: seq<State>, steps: seq<Step>, n: nat)
    requires c.Valid() && IsRun(c, path, steps) && n < |steps| && StoryAt(path, steps, n)
    requires Inv(c, path[n]) && IdleInv(path[n]) && |path[n].queue| <= |path[n].log| && CrashInv(path[n])
    ensures StoryAt(path, steps, n + 1)
  {
    if Restarts(path[n], steps[n]) {
      RestartStory(c, path, steps, n);
    } else {
      PlainStory(c, path, steps, n);
    }
  }

  lemma {:induction false} RunTellsStory(c: Config, path: seq<State>, steps: seq<Step>, n: nat)
    requires c.Valid() && IsRun(c, path, steps) && Inv(c, path[0]) && IdleInv(path[0]) && CrashInv(path[0])
    requires n <= |steps|
    requires path[0].log == [] && path[0].base == path[0].file
    ensures StoryAt(path, steps, n)
  {
    if n == 0 {
      StoryStarts(path, steps);
    } else {
      RunTellsStory(c, path, steps, n - 1);
      RunKeepsInv(c, path, steps, n - 1);
      RunKeepsIdle(c, path, steps, n - 1);
      RunKeepsCrash(c, path, steps, n - 1);
      StoryStep(c, path, steps, n - 1);
    }
  }

  /** Fewer lines give another file. */
  lemma ShorterIsOther(base: Chars, some: seq<Chars>, all: seq<Chars>, rest: seq<Chars>)
    requires |Joined(some)| < |Joined(all)|
    ensures Published(base, some + rest) != Published(base, all + rest)
  {
    JoinedAppend(some, rest);
    JoinedAppend(all, rest);
    assert |Published(base, some + rest)| < |Published(base, all + rest)|;
  }

  /** No barrier is put twice. */
  ghost predicate PutOnce(s: State, puts: seq<Work>) {
    && (forall i :: 0 <= i < |puts| && puts[i].Barrier? ==>
          puts[i].id in s.barriers && s.barriers[puts[i].id].phase != Putting)
    && (forall i, j :: 0 <= i < j < |puts| && puts[i].Barrier? ==> puts[i] != puts[j])
  }

  lemma PutOnceStep(c: Config, s: State, step: Step, puts: seq<Work>, more: seq<Work>)
    requires LockInv(s) && PutOnce(s, puts) && Enabled(c, s, step)
    requires more == match step
                     case Admit(item) => puts + [item]
                     case PutBarrier(id) => puts + [Barrier(id)]
                     case Reset(_) => []
                     case _ => puts
    ensures PutOnce(Apply(c, s, step), more)
  {
  }

  /** The place of a barrier among what was put is unique. */
  lemma {:induction false} BarriersArePutOnce(c: Config, path: seq<State>, steps: seq<Step>, n: nat)
    requires c.Valid() && IsRun(c, path, steps) && Inv(c, path[0]) && n <= |steps|
    ensures PutOnce(path[n], Puts(steps, n))
  {
    if n > 0 {
      BarriersArePutOnce(c, path, steps, n - 1);
      RunKeepsInv(c, path, steps, n - 1);
      PutOnceStep(c, path[n - 1], steps[n - 1], Puts(steps, n - 1), Puts(steps, n));
    }
  }

  /** A flush or close that reports no error has published everything put before it since the last close
      exactly when every record among that can be encoded, if it renders. */
  lemma FlushPublishesIff(c: Config, file: Chars, path: seq<State>, steps: seq<Step>, n: nat) returns (k: nat)
    requires c.Valid() && IsRun(c, path, steps) && path[0] == Init(file) && Reported(path, steps, n)
    ensures k < |Puts(steps, n)| && Puts(steps, n)[k] == Barrier(steps[n].id)
    ensures forall i :: 0 <= i < |Puts(steps, n)| && Puts(steps, n)[i] == Barrier(steps[n].id) ==> i == k
    ensures Visible(path, steps, n, k) <==> AllEncodable(Puts(steps, n)[..k])
  {
    InitInv(c, file);
    BarriersArePutOnce(c, path, steps, n);
    assert TakenItems(path[0]) == [];
    RunTellsStory(c, path, steps, n);
    RunKeepsInv(c, path, steps, n);
    RunKeepsCrash(c, path, steps, n);
    PathReaches(c, file, path, steps, n);
    var j := FinishPublishes(c, path[n], steps[n], path[n + 1]);
    k := |PastOf(path, steps, n).dropped| + j;
    BeforeBarrier(c, path[n], steps[n].id, j);
    PublishedIff(path, steps, n, j, k);
  }

  /** Everything before the barrier that is about to finish was taken. */
  lemma BeforeBarrier(c: Config, s: State, id: nat, j: nat)
    requires QueueInv(c, s) && LogInv(s) && CrashInv(s) && NextBarrierIs(s, id) && j < |s.log|
    requires s.log[j] == Barrier(id)
    ensures AllEncodable(s.log[..j])
  {
    FinishingBarrier(c, s, id);
    var m := |s.log| - |s.queue|;
    var last := if s.thread.pc.deferred.Some? then m - 1 else m;
    assert s.log[last] == Barrier(id);
    assert j == last;
    assert forall i :: 0 <= i < j ==> s.log[..j][i] == TakenItems(s)[i];
  }

  lemma PublishedIff(path: seq<State>, steps: seq<Step>, n: nat, j: nat, k: nat)
    requires |path| == |steps| + 1 && n < |steps| && steps[n].FinishBarrier? && StoryAt(path, steps, n)
    requires j < |path[n].log| && path[n].log[j] == Barrier(steps[n].id) && k == |PastOf(path, steps, n).dropped| + j
    requires AllRender(path[n].log[..j]) && AllEncodable(path[n].log[..j])
    requires path[n + 1].file == Published(path[n].base, Texts(path[n].log[..j]))
    ensures k < |Puts(steps, n)| && Puts(steps, n)[k] == Barrier(steps[n].id)
    ensures Visible(path, steps, n, k) <==> AllEncodable(Puts(steps, n)[..k])
  {
    var past, log := PastOf(path, steps, n), path[n].log;
    var base := path[Opening(steps, n)].file;
    assert Puts(steps, n)[..k] == past.dropped + log[..j];
    TextsAppend(past.dropped, log[..j]);
    EncodableParts(past.dropped, log[..j]);
    PublishedTwice(base, past.carried, Texts(log[..j]));
    if past.dropped == [] {
      assert Puts(steps, n)[..k] == log[..j];
      assert past.carried + Texts(log[..j]) == Texts(log[..j]);
    } else {
      ShorterIsOther(base, past.carried, Texts(past.dropped), Texts(log[..j]));
    }
  }

  /** The barrier waits in the queue of a thread that no longer exists. */
  ghost predicate Orphaned(s: State, b: nat) {
    && b in s.barriers && !s.barriers[b].phase.Finished?
    && (s.thread == Dead(true) || (s.lock != Some(b) && Barrier(b) !in s.log))
  }

  /** A flush or close that finds the thread crashed waits for ever, whatever happens afterwards. */
  lemma {:induction false} OrphanWaitsForever(c: Config, path: seq<State>, steps: seq<Step>, b: nat, n: nat)
    requires c.Valid() && IsRun(c, path, steps) && Inv(c, path[0]) && Orphaned(path[0], b) && n <= |steps|
    ensures Orphaned(path[n], b)
  {
    if n > 0 {
      OrphanWaitsForever(c, path, steps, b, n - 1);
      RunKeepsInv(c, path, steps, n - 1);
      OrphanStep(c, path[n - 1], steps[n - 1], b);
    }
  }

  lemma OrphanStep(c: Config, s: State, step: Step, b: nat)
    requires QueueInv(c, s) && LockInv(s) && Orphaned(s, b) && Enabled(c, s, step)
    ensures Orphaned(Apply(c, s, step), b)
  {
    if step.FinishBarrier? {
      FinishingBarrier(c, s, step.id);
      assert step.id != b;
    }
  }

  lemma Continued(c: Config, path: seq<State>, steps: seq<Step>, path': seq<State>, steps': seq<Step>)
    requires IsRun(c, path, steps) && IsRun(c, path', steps') && path[|steps|] == path'[0]
    ensures IsRun(c, path + path'[1..], steps + steps')
  {
    var next := (s: State, step: Step, t: State) => Enabled(c, s, step) && t == Apply(c, s, step);
    assert RunOf(next, path, steps) && RunOf(next, path', steps');
    ConcatRuns(next, path, steps, path', steps');
    var p, q := path + path'[1..], steps + steps';
    forall i | 0 <= i < |q|
      ensures Enabled(c, p[i], q[i]) && p[i + 1] == Apply(c, p[i], q[i])
    {
      assert next(p[i], q[i], p[i + 1]);
    }
  }

  /** The thread of a fresh writer after it has taken a lone surrogate. */
  function CrashedState(): State {
    Init([]).(thread := Dead(true), log := [Line([0xD800])])
  }

  lemma LoneSurrogateCrashes(c: Config) returns (path: seq<State>, steps: seq<Step>)
    requires c.Valid()
    ensures IsRun(c, path, steps) && path[0] == Init([]) && path[|steps|] == CrashedState()
    ensures |steps| > 0 && steps[0] == Admit(Line([0xD800]))
  {
    var lost := Line([0xD800]);
    var s0 := Init([]);
    var s1 := Apply(c, s0, Admit(lost));
    assert IsSurrogate([0xD800][0]);
    path, steps := [s0, s1, Apply(c, s1, FetchItem)], [Admit(lost), FetchItem];
  }

  /** The same with a flush that waits for room when the thread takes the record. */
  function OrphanedState(): State {
    CrashedState().(barriers := map[0 := BarrierState(false, Waiting)], queue := [Barrier(0)],
                    log := [Line([0xD800]), Barrier(0)])
  }

  lemma FlushMeetsCrash(c: Config) returns (path: seq<State>, steps: seq<Step>)
    requires c.Valid()
    ensures IsRun(c, path, steps) && path[0] == Init([]) && path[|steps|] == OrphanedState()
    ensures steps == [Admit(Line([0xD800])), EnterBarrier(0, false), FetchItem, PutBarrier(0)]
  {
    var lost := Line([0xD800]);
    var s0 := Init([]);
    var s1 := Apply(c, s0, Admit(lost));
    var s2 := Apply(c, s1, EnterBarrier(0, false));
    assert IsSurrogate([0xD800][0]);
    var s3 := Apply(c, s2, FetchItem);
    assert s3 == CrashedState().(lock := Some(0), barriers := map[0 := BarrierState(false, Putting)]);
    path := [s0, s1, s2, s3, Apply(c, s3, PutBarrier(0))];
    steps := [Admit(lost), EnterBarrier(0, false), FetchItem, PutBarrier(0)];
  }

  /** A flush that entered before the thread took the lone surrogate is caught by the crash, whatever the
      limits of the writer, and by `OrphanWaitsForever` is never finished. */
  lemma FlushIsOrphaned(c: Config) returns (path: seq<State>, steps: seq<Step>)
    requires c.Valid()
    ensures IsRun(c, path, steps) && path[0] == Init([])
    ensures steps == [Admit(Line([0xD800])), EnterBarrier(0, false), FetchItem, PutBarrier(0)]
    ensures Orphaned(path[|steps|], 0) && path[|steps|].barriers[0].phase == Waiting && Inv(c, path[|steps|])
  {
    path, steps := FlushMeetsCrash(c);
    InitInv(c, []);
    RunKeepsInv(c, path, steps, |steps|);
  }

  /** The restarted thread holding the next record. */
  function RestartedState(): State {
    Init([]).(thread := Live(Collect([[0x61]], EncodedSize([0x61]))), log := [Line([0x61])])
  }

  lemma NextRecordRestarts(c: Config) returns (path: seq<State>, steps: seq<Step>)
    requires c.Valid()
    ensures IsRun(c, path, steps) && path[0] == CrashedState() && path[|steps|] == RestartedState()
  {
    var kept := Line([0x61]);
    var s0 := CrashedState();
    var s1 := Apply(c, s0, Admit(kept));
    assert s1 == Init([]).(thread := Live(Fetch(None)), queue := [kept], log := [kept]);
    path, steps := [s0, s1, Apply(c, s1, FetchItem)], [Admit(kept), FetchItem];
  }

  lemma RestartWrites(c: Config) returns (path: seq<State>, steps: seq<Step>)
    requires c.Valid()
    ensures IsRun(c, path, steps) && path[0] == RestartedState()
    ensures path[|steps|] == State(None, Live(Fetch(None)), [], false, false, true, [0x61, LF], map[],
                                   [Line([0x61])], [], [[0x61]])
  {
    var s0 := RestartedState();
    var s1 := Apply(c, s0, EndCollect);
    assert Joined([[0x61]][..0]) == [];
    assert Joined([[0x61]]) == [0x61, LF];
    path, steps := [s0, s1, Apply(c, s1, WriteBatch(WriteOk))], [EndCollect, WriteBatch(WriteOk)];
  }

  lemma CleanFlush(c: Config, s: State) returns (path: seq<State>, steps: seq<Step>)
    requires c.Valid() && s.lock == None && s.thread == Live(Fetch(None)) && s.queue == []
    requires !s.closing && !s.error && 0 !in s.barriers
    ensures IsRun(c, path, steps) && path[0] == s
    ensures var t := path[|steps|]; 0 in t.barriers && t.barriers[0].phase == Finished(false) && t.file == s.file
  {
    var s1 := Apply(c, s, EnterBarrier(0, false));
    var s2 := Apply(c, s1, PutBarrier(0));
    path := [s, s1, s2, Apply(c, s2, FinishBarrier(0, false, false))];
    steps := [EnterBarrier(0, false), PutBarrier(0), FinishBarrier(0, false, false)];
  }

  /** Two records are accepted, the second one restarts the thread, and a later flush reports no error
      although the first record is nowhere in the file. */
  lemma SilentLoss(c: Config) returns (path: seq<State>, steps: seq<Step>)
    requires c.Valid()
    ensures IsRun(c, path, steps) && path[0] == Init([])
    ensures |steps| > 0 && steps[0] == Admit(Line([0xD800]))
    ensures var t := path[|steps|]; 0 in t.barriers && t.barriers[0].phase == Finished(false) && t.file == [0x61, LF]
  {
    var path1, steps1 := LoneSurrogateCrashes(c);
    var path2, steps2 := NextRecordRestarts(c);
    var path3, steps3 := RestartWrites(c);
    var path4, steps4 := CleanFlush(c, path3[|steps3|]);
    Continued(c, path1, steps1, path2, steps2);
    path, steps := path1 + path2[1..], steps1 + steps2;
    Continued(c, path, steps, path3, steps3);
    path, steps := path + path3[1..], steps + steps3;
    Continued(c, path, steps, path4, steps4);
    path, steps := path + path4[1..], steps + steps4;
  }
}
