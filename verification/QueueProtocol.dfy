/** The task queue as a state machine over its atomic steps.

    Callers of `enqueue_inner` and the five workers run concurrently; every
    access to the shared `tracking` map, the epoch counter, a channel or a
    result cell is one step, and any two threads may interleave between steps.
*/
module QueueProtocol {
  import opened Basics

  datatype Priority = DirUrgent | MetaUrgent | FileDownload | DirPrefetch | MetaPrefetch

  datatype TaskKey = FetchDir(parentId: string) | GetMetadata(fileId: string) | DownloadFile(contentId: string)

  datatype TaskResult = DirListing | NotModified | FileMetadata | FileContent

  type Outcome = Result<TaskResult, string>

  /** The identity of one `TaskCompletion` handle. */
  type Waiter = nat

  datatype Task = Task(key: TaskKey, epoch: nat)

  /** One value for each priority: the five channels, the five workers. */
  datatype PerPriority<T> = PerPriority(p0: T, p1: T, p2: T, p3: T, p4: T) {
    function Get(p: Priority): T {
      match p
      case DirUrgent => p0
      case MetaUrgent => p1
      case FileDownload => p2
      case DirPrefetch => p3
      case MetaPrefetch => p4
    }

    function Put(p: Priority, v: T): (r: PerPriority<T>)
      ensures forall q :: r.Get(q) == if q == p then v else Get(q)
    {
      match p
      case DirUrgent => this.(p0 := v)
      case MetaUrgent => this.(p1 := v)
      case FileDownload => this.(p2 := v)
      case DirPrefetch => this.(p3 := v)
      case MetaPrefetch => this.(p4 := v)
    }
  }

  /** Where a call of `enqueue_inner` stands. */
  datatype CallPoint = AtBump | AtTrack | AtStamp | AtSend(task: Task)

  datatype Call = Call(key: TaskKey, priority: Priority, waiter: Option<Waiter>, point: CallPoint)

  /** Where a worker's loop stands.  `Cleared` has passed the second upload
      check, `Finished` holds the outcome it will announce, and `Notifying`
      has already taken the batch of waiters out of `tracking`. */
  datatype Worker =
    | Paused
    | Ready
    | Received(task: Task)
    | Cleared(task: Task)
    | Running(task: Task)
    | Finished(task: Task, outcome: Outcome)
    | Notifying(batch: seq<Waiter>, outcome: Outcome)

  datatype State = State(
    tracking: map<TaskKey, seq<Waiter>>,
    epoch: nat,
    uploads: nat,
    calls: map<nat, Call>,
    channels: PerPriority<seq<Task>>,
    workers: PerPriority<Worker>,
    results: map<Waiter, Outcome>,
    used: set<Waiter>)

  const INITIAL := State(map[], 0, 0, map[], PerPriority([], [], [], [], []),
                         PerPriority(Paused, Paused, Paused, Paused, Paused), map[], {})

  datatype Event =
    | Begin(c: nat, key: TaskKey, priority: Priority, waiter: Option<Waiter>)
    | Bump(c: nat)
    | Track(c: nat)
    | Stamp(c: nat)
    | Send(c: nat)
    | Unpause(p: Priority)
    | Timeout(p: Priority)
    | Receive(p: Priority)
    | Recheck(p: Priority)
    | Check(p: Priority)
    | Execute(p: Priority, outcome: Outcome)
    | Remove(p: Priority)
    | Notify(p: Priority)
    | Finish(p: Priority)
    | UploadBegin
    | UploadEnd

  /** P3 and P4 pause during uploads and guard their tasks with the epoch. */
  predicate IsPrefetch(p: Priority) { p.DirPrefetch? || p.MetaPrefetch? }

  predicate MayRun(s: State, p: Priority) { IsPrefetch(p) ==> s.uploads == 0 }

  function AsBatch(w: Option<Waiter>): seq<Waiter> {
    match w
    case None => []
    case Some(x) => [x]
  }

  /** Which steps a state offers. */
  predicate Enabled(s: State, e: Event) {
    match e
    case Begin(c, _, _, w) => c !in s.calls && (w.Some? ==> w.value !in s.used)
    case Bump(c) => c in s.calls && s.calls[c].point.AtBump?
    case Track(c) => c in s.calls && s.calls[c].point.AtTrack?
    case Stamp(c) => c in s.calls && s.calls[c].point.AtStamp?
    case Send(c) => c in s.calls && s.calls[c].point.AtSend?
    case Unpause(p) => s.workers.Get(p).Paused? && MayRun(s, p)
    case Timeout(p) => s.workers.Get(p).Ready? && s.channels.Get(p) == []
    case Receive(p) => s.workers.Get(p).Ready? && s.channels.Get(p) != []
    case Recheck(p) => s.workers.Get(p).Received? && MayRun(s, p)
    case Check(p) => s.workers.Get(p).Cleared?
    case Execute(p, _) => s.workers.Get(p).Running?
    case Remove(p) => s.workers.Get(p).Finished?
    case Notify(p) => s.workers.Get(p).Notifying? && s.workers.Get(p).batch != []
    case Finish(p) => s.workers.Get(p).Notifying? && s.workers.Get(p).batch == []
    case UploadBegin => true
    case UploadEnd => s.uploads > 0
  }

  function At(s: State, c: nat, point: CallPoint): State
    requires c in s.calls
  {
    s.(calls := s.calls[c := s.calls[c].(point := point)])
  }

  function WorkerAt(s: State, p: Priority, w: Worker): State {
    s.(workers := s.workers.Put(p, w))
  }

  /** One atomic step. */
  function Apply(s: State, e: Event): State
    requires Enabled(s, e)
  {
    match e
    case Begin(c, key, priority, w) =>
      s.(calls := s.calls[c := Call(key, priority, w, AtBump)],
         used := s.used + (if w.Some? then {w.value} else {}))
    case Bump(c) =>
      At(s, c, AtTrack).(epoch := if s.calls[c].priority.DirUrgent? then s.epoch + 1 else s.epoch)
    case Track(c) =>
      var call := s.calls[c];
      if call.key in s.tracking then
        s.(tracking := s.tracking[call.key := s.tracking[call.key] + AsBatch(call.waiter)], calls := s.calls - {c})
      else
        At(s, c, AtStamp).(tracking := s.tracking[call.key := AsBatch(call.waiter)])
    case Stamp(c) =>
      At(s, c, AtSend(Task(s.calls[c].key, if IsPrefetch(s.calls[c].priority) then s.epoch else 0)))
    case Send(c) =>
      var p := s.calls[c].priority;
      s.(channels := s.channels.Put(p, s.channels.Get(p) + [s.calls[c].point.task]), calls := s.calls - {c})
    case Unpause(p) => WorkerAt(s, p, Ready)
    case Timeout(p) => WorkerAt(s, p, Paused)
    case Receive(p) =>
      WorkerAt(s, p, Received(s.channels.Get(p)[0])).(channels := s.channels.Put(p, s.channels.Get(p)[1..]))
    case Recheck(p) => WorkerAt(s, p, Cleared(s.workers.Get(p).task))
    case Check(p) =>
      var t := s.workers.Get(p).task;
      WorkerAt(s, p, if IsPrefetch(p) && t.epoch < s.epoch then Finished(t, Ok(NotModified)) else Running(t))
    case Execute(p, outcome) => WorkerAt(s, p, Finished(s.workers.Get(p).task, outcome))
    case Remove(p) =>
      var w := s.workers.Get(p);
      var batch := if w.task.key in s.tracking then s.tracking[w.task.key] else [];
      WorkerAt(s, p, Notifying(batch, w.outcome)).(tracking := s.tracking - {w.task.key})
    case Notify(p) =>
      var w := s.workers.Get(p);
      WorkerAt(s, p, Notifying(w.batch[1..], w.outcome)).(results := s.results[w.batch[0] := w.outcome])
    case Finish(p) => WorkerAt(s, p, Paused)
    case UploadBegin => s.(uploads := s.uploads + 1)
    case UploadEnd => s.(uploads := s.uploads - 1)
  }

  /** An interleaving is any sequence of steps each enabled when it is taken. */
  predicate IsRun(s: State, es: seq<Event>)
    decreases |es|
  {
    es == [] || (Enabled(s, es[0]) && IsRun(Apply(s, es[0]), es[1..]))
  }

  function Run(s: State, es: seq<Event>): State
    requires IsRun(s, es)
    decreases |es|
  {
    if es == [] then s else Run(Apply(s, es[0]), es[1..])
  }

  lemma {:induction false} RunAppend(s: State, es: seq<Event>, fs: seq<Event>)
    requires IsRun(s, es) && IsRun(Run(s, es), fs)
    ensures IsRun(s, es + fs) && Run(s, es + fs) == Run(Run(s, es), fs)
    decreases |es|
  {
    if es == [] {
      assert es + fs == fs;
    } else {
      assert (es + fs)[0] == es[0] && (es + fs)[1..] == es[1..] + fs;
      RunAppend(Apply(s, es[0]), es[1..], fs);
    }
  }

  // ── One live task per key ──

  /** The places where a task for a key can be: in the hands of a caller that
      has tracked it but not sent it, at a position in a channel, or with a
      worker that has not yet removed it from `tracking`. */
  datatype Home = AtCall(c: nat) | InChannel(p: Priority, i: nat) | AtWorker(p: Priority)

  function KeyAt(s: State, h: Home): Option<TaskKey> {
    match h
    case AtCall(c) =>
      if c in s.calls && (s.calls[c].point.AtStamp? || s.calls[c].point.AtSend?) then Some(s.calls[c].key) else None
    case InChannel(p, i) => if i < |s.channels.Get(p)| then Some(s.channels.Get(p)[i].key) else None
    case AtWorker(p) =>
      var w := s.workers.Get(p);
      if w.Received? || w.Cleared? || w.Running? || w.Finished? then Some(w.task.key) else None
  }

  /** A key is in `tracking` exactly when one place holds a task for it. */
  ghost predicate OneLiveTask(s: State) {
    && (forall h :: KeyAt(s, h).Some? ==> KeyAt(s, h).value in s.tracking)
    && (forall k :: k in s.tracking ==> exists h :: KeyAt(s, h) == Some(k))
    && (forall h, h' :: KeyAt(s, h).Some? && KeyAt(s, h) == KeyAt(s, h') ==> h == h')
  }

  /** A call that is about to send carries a task for its own key. */
  ghost predicate CallsConsistent(s: State) {
    forall c :: c in s.calls && s.calls[c].point.AtSend? ==> s.calls[c].point.task.key == s.calls[c].key
  }

  /** The place in the earlier state from which a place's task came. */
  function Origin(s: State, e: Event, h: Home): Home
    requires Enabled(s, e)
  {
    match e
    case Send(c) =>
      var p := s.calls[c].priority;
      if h == InChannel(p, |s.channels.Get(p)|) then AtCall(c) else h
    case Receive(p) =>
      if h == AtWorker(p) then InChannel(p, 0)
      else if h.InChannel? && h.p == p then InChannel(p, h.i + 1) else h
    case _ => h
  }

  lemma TaskCameFrom(s: State, e: Event, h: Home)
    requires Enabled(s, e) && CallsConsistent(s)
    requires !(e.Track? && h == AtCall(e.c)) && !(e.Remove? && h == AtWorker(e.p))
    ensures KeyAt(Apply(s, e), h).Some? ==> KeyAt(Apply(s, e), h) == KeyAt(s, Origin(s, e, h))
  {
  }

  /** Where a task goes in one step. */
  function Goes(s: State, e: Event, h: Home): Home
    requires Enabled(s, e)
  {
    match e
    case Send(c) =>
      if h == AtCall(c) then InChannel(s.calls[c].priority, |s.channels.Get(s.calls[c].priority)|) else h
    case Receive(p) =>
      if h == InChannel(p, 0) then AtWorker(p)
      else if h.InChannel? && h.p == p then InChannel(p, h.i - 1) else h
    case _ => h
  }

  lemma TasksMove(s: State, e: Event, h: Home)
    requires Enabled(s, e) && CallsConsistent(s)
    requires !(e.Track? && h == AtCall(e.c)) && !(e.Remove? && h == AtWorker(e.p))
    ensures KeyAt(Apply(s, e), h).Some? ==> KeyAt(Apply(s, e), h) == KeyAt(s, Origin(s, e, h))
    ensures KeyAt(s, h).Some? ==> Origin(s, e, Goes(s, e, h)) == h && KeyAt(Apply(s, e), Goes(s, e, h)) == KeyAt(s, h)
  {
    TaskCameFrom(s, e, h);
  }

  /** Every key on the books keeps a task. */
  lemma TrackedHasHome(s: State, e: Event, k: TaskKey)
    requires Enabled(s, e) && CallsConsistent(s) && OneLiveTask(s) && k in Apply(s, e).tracking
    ensures exists h :: KeyAt(Apply(s, e), h) == Some(k)
  {
    if e.Track? && k !in s.tracking {
      assert KeyAt(Apply(s, e), AtCall(e.c)) == Some(k);
    } else {
      var h :| KeyAt(s, h) == Some(k);
      TasksMove(s, e, h);
    }
  }

  /** Every task is on the books, and unless just tracked it was before. */
  lemma HomeIsTracked(s: State, e: Event, h: Home)
    requires Enabled(s, e) && CallsConsistent(s) && OneLiveTask(s) && KeyAt(Apply(s, e), h).Some?
    ensures KeyAt(Apply(s, e), h).value in Apply(s, e).tracking
    ensures !(e.Track? && h == AtCall(e.c)) ==> KeyAt(Apply(s, e), h) == KeyAt(s, Origin(s, e, h))
    ensures e.Track? && h == AtCall(e.c) ==> KeyAt(Apply(s, e), h).value !in s.tracking
  {
    if !(e.Track? && h == AtCall(e.c)) {
      TasksMove(s, e, h);
      assert e.Remove? ==> KeyAt(s, h) != KeyAt(s, AtWorker(e.p));
    }
  }

  lemma OnlyHome(s: State, e: Event, h: Home, h': Home)
    requires Enabled(s, e) && CallsConsistent(s) && OneLiveTask(s)
    requires KeyAt(Apply(s, e), h).Some? && KeyAt(Apply(s, e), h) == KeyAt(Apply(s, e), h')
    ensures h == h'
  {
    HomeIsTracked(s, e, h);
    HomeIsTracked(s, e, h');
    if e.Track? && (h == AtCall(e.c) || h' == AtCall(e.c)) {
      assert Origin(s, e, h) == h && Origin(s, e, h') == h';
    } else {
      assert Origin(s, e, h) == Origin(s, e, h');
    }
  }

  lemma CallsConsistentStep(s: State, e: Event)
    requires Enabled(s, e) && CallsConsistent(s)
    ensures CallsConsistent(Apply(s, e))
  {
  }

  lemma OneLiveTaskStep(s: State, e: Event)
    requires Enabled(s, e) && CallsConsistent(s) && OneLiveTask(s)
    ensures CallsConsistent(Apply(s, e)) && OneLiveTask(Apply(s, e))
  {
    var s' := Apply(s, e);
    CallsConsistentStep(s, e);
    forall h | KeyAt(s', h).Some? ensures KeyAt(s', h).value in s'.tracking {
      HomeIsTracked(s, e, h);
    }
    forall k | k in s'.tracking ensures exists h :: KeyAt(s', h) == Some(k) {
      TrackedHasHome(s, e, k);
    }
    forall h, h' | KeyAt(s', h).Some? && KeyAt(s', h) == KeyAt(s', h') ensures h == h' {
      OnlyHome(s, e, h, h');
    }
  }

  /** The places where a completion handle can be: with a caller that has not
      reached `tracking` yet, in a tracked list, in a batch that a worker has
      removed, or completed. */
  datatype Place =
    | ByCaller(c: nat)
    | InTracking(key: TaskKey, i: nat)
    | InBatch(p: Priority, i: nat)
    | Completed(w: Waiter)

  function WaiterAt(s: State, l: Place): Option<Waiter> {
    match l
    case ByCaller(c) =>
      if c in s.calls && (s.calls[c].point.AtBump? || s.calls[c].point.AtTrack?) then s.calls[c].waiter else None
    case InTracking(k, i) =>
      if k in s.tracking && i < |s.tracking[k]| then Some(s.tracking[k][i]) else None
    case InBatch(p, i) =>
      var w := s.workers.Get(p);
      if w.Notifying? && i < |w.batch| then Some(w.batch[i]) else None
    case Completed(w) => if w in s.results then Some(w) else None
  }

  /** Every handle passed in is in exactly one place. */
  ghost predicate OnePlace(s: State) {
    && (forall l :: WaiterAt(s, l).Some? ==> WaiterAt(s, l).value in s.used)
    && (forall w :: w in s.used ==> exists l :: WaiterAt(s, l) == Some(w))
    && (forall l, l' :: WaiterAt(s, l).Some? && WaiterAt(s, l) == WaiterAt(s, l') ==> l == l')
  }

  /** The task a place holds, when it already carries its stamp. */
  function StampAt(s: State, h: Home): Option<nat> {
    match h
    case AtCall(c) =>
      if c in s.calls && s.calls[c].point.AtSend? then Some(s.calls[c].point.task.epoch) else None
    case InChannel(p, i) => if i < |s.channels.Get(p)| then Some(s.channels.Get(p)[i].epoch) else None
    case AtWorker(p) =>
      var w := s.workers.Get(p);
      if w.Received? || w.Cleared? || w.Running? || w.Finished? then Some(w.task.epoch) else None
  }

  /** No stamp is ahead of the epoch counter. */
  ghost predicate StampsBehind(s: State) {
    forall h :: StampAt(s, h).Some? ==> StampAt(s, h).value <= s.epoch
  }

  /** The invariant of the protocol. */
  ghost predicate Inv(s: State) {
    && CallsConsistent(s)
    && OneLiveTask(s)
    && OnePlace(s)
    && StampsBehind(s)
  }

  // ── No lost and no doubly completed waiter ──

  /** Where a handle goes in one step. */
  function Next(s: State, e: Event, l: Place): Place
    requires Enabled(s, e)
  {
    match e
    case Track(c) =>
      var k := s.calls[c].key;
      if l == ByCaller(c) then InTracking(k, if k in s.tracking then |s.tracking[k]| else 0) else l
    case Remove(p) =>
      if l.InTracking? && l.key == s.workers.Get(p).task.key then InBatch(p, l.i) else l
    case Notify(p) =>
      if l.InBatch? && l.p == p then
        if l.i == 0 then Completed(s.workers.Get(p).batch[0]) else InBatch(p, l.i - 1)
      else l
    case _ => l
  }

  predicate MovesWaiters(e: Event) { e.Track? || e.Remove? || e.Notify? }

  lemma WaitersStay(s: State, e: Event, l: Place)
    requires Enabled(s, e) && !MovesWaiters(e)
    ensures WaiterAt(s, l).Some? && !(e.Begin? && l == ByCaller(e.c)) ==> WaiterAt(Apply(s, e), l) == WaiterAt(s, l)
    ensures WaiterAt(Apply(s, e), l).Some? && !(e.Begin? && l == ByCaller(e.c)) ==>
              WaiterAt(Apply(s, e), l) == WaiterAt(s, l)
    ensures e.Begin? ==> WaiterAt(s, ByCaller(e.c)).None?
  {
  }

  lemma WaitersMove(s: State, e: Event, l: Place)
    requires Enabled(s, e) && OneLiveTask(s) && OnePlace(s)
    requires WaiterAt(s, l).Some?
    ensures WaiterAt(Apply(s, e), Next(s, e, l)) == WaiterAt(s, l)
  {
    if !MovesWaiters(e) {
      WaitersStay(s, e, l);
    } else if e.Remove? {
      assert KeyAt(s, AtWorker(e.p)).value in s.tracking;
    }
  }

  /** The place a handle came from. */
  function Previous(s: State, e: Event, l: Place): Place
    requires Enabled(s, e)
  {
    match e
    case Track(c) =>
      var k := s.calls[c].key;
      if l == InTracking(k, if k in s.tracking then |s.tracking[k]| else 0) then ByCaller(c) else l
    case Remove(p) =>
      if l.InBatch? && l.p == p then InTracking(s.workers.Get(p).task.key, l.i) else l
    case Notify(p) =>
      if l == Completed(s.workers.Get(p).batch[0]) then InBatch(p, 0)
      else if l.InBatch? && l.p == p then InBatch(p, l.i + 1) else l
    case _ => l
  }

  lemma NotifiedCameFrom(s: State, e: Event, l: Place)
    requires Enabled(s, e) && OneLiveTask(s) && OnePlace(s) && e.Notify?
    requires WaiterAt(Apply(s, e), l).Some?
    ensures WaiterAt(s, Previous(s, e, l)) == WaiterAt(Apply(s, e), l) && Next(s, e, Previous(s, e, l)) == l
  {
    if l == Completed(s.workers.Get(e.p).batch[0]) {
      assert WaiterAt(s, InBatch(e.p, 0)) == Some(s.workers.Get(e.p).batch[0]);
    }
  }

  lemma TakenCameFrom(s: State, e: Event, l: Place)
    requires Enabled(s, e) && OneLiveTask(s) && OnePlace(s) && (e.Track? || e.Remove?)
    requires WaiterAt(Apply(s, e), l).Some?
    ensures WaiterAt(s, Previous(s, e, l)) == WaiterAt(Apply(s, e), l) && Next(s, e, Previous(s, e, l)) == l
  {
  }

  /** Every handle came from somewhere; `Begin` brings in a new one. */
  lemma WaiterOrigin(s: State, e: Event, l': Place) returns (l: Place)
    requires Enabled(s, e) && OneLiveTask(s) && OnePlace(s)
    requires WaiterAt(Apply(s, e), l').Some?
    requires !(e.Begin? && l' == ByCaller(e.c))
    ensures WaiterAt(s, l) == WaiterAt(Apply(s, e), l') && Next(s, e, l) == l'
  {
    l := Previous(s, e, l');
    if e.Notify? {
      NotifiedCameFrom(s, e, l');
    } else if e.Track? || e.Remove? {
      TakenCameFrom(s, e, l');
    } else {
      WaitersStay(s, e, l');
    }
  }

  /** `Begin` leaves every other handle where it was. */
  lemma NewcomerAlone(s: State, e: Event, l: Place)
    requires Enabled(s, e) && e.Begin? && OneLiveTask(s) && OnePlace(s)
    ensures l != ByCaller(e.c) ==> WaiterAt(Apply(s, e), l) == WaiterAt(s, l)
    ensures e.waiter.Some? ==> WaiterAt(s, l) != e.waiter
  {
  }

  lemma OnePlaceStep(s: State, e: Event)
    requires Enabled(s, e) && OneLiveTask(s) && OnePlace(s)
    ensures OnePlace(Apply(s, e))
  {
    var s' := Apply(s, e);
    forall l' | WaiterAt(s', l').Some?
      ensures WaiterAt(s', l').value in s'.used
    {
      if !(e.Begin? && l' == ByCaller(e.c)) {
        var l := WaiterOrigin(s, e, l');
      }
    }
    forall w | w in s'.used
      ensures exists l :: WaiterAt(s', l) == Some(w)
    {
      if e.Begin? && e.waiter == Some(w) {
        assert WaiterAt(s', ByCaller(e.c)) == Some(w);
      } else {
        var l :| WaiterAt(s, l) == Some(w);
        WaitersMove(s, e, l);
      }
    }
    forall l0', l1' | WaiterAt(s', l0').Some? && WaiterAt(s', l0') == WaiterAt(s', l1')
      ensures l0' == l1'
    {
      if e.Begin? {
        NewcomerAlone(s, e, l0');
        NewcomerAlone(s, e, l1');
      } else {
        var l0 := WaiterOrigin(s, e, l0');
        var l1 := WaiterOrigin(s, e, l1');
      }
    }
  }

  // ── Epoch stamps ──

  lemma StampsBehindStep(s: State, e: Event)
    requires Enabled(s, e) && StampsBehind(s)
    ensures StampsBehind(Apply(s, e))
  {
    var s' := Apply(s, e);
    forall h | StampAt(s', h).Some?
      ensures StampAt(s', h).value <= s'.epoch
    {
      assert (e.Stamp? && h == AtCall(e.c)) || StampAt(s', h) == StampAt(s, Origin(s, e, h));
    }
  }

  // ── The invariant over every interleaving ──

  lemma InvStep(s: State, e: Event)
    requires Enabled(s, e) && Inv(s)
    ensures Inv(Apply(s, e))
  {
    OneLiveTaskStep(s, e);
    OnePlaceStep(s, e);
    StampsBehindStep(s, e);
  }

  lemma {:induction false} InvRun(s: State, es: seq<Event>)
    requires Inv(s) && IsRun(s, es)
    ensures Inv(Run(s, es))
    decreases |es|
  {
    if es != [] {
      InvStep(s, es[0]);
      InvRun(Apply(s, es[0]), es[1..]);
    }
  }

  /** Main result: in every interleaving from the start, a key is tracked
      exactly when one task for it is live, every handle passed in is in one
      place, and no stamp is ahead of the counter. */
  lemma QueueSafe(es: seq<Event>)
    requires IsRun(INITIAL, es)
    ensures OneLiveTask(Run(INITIAL, es))
    ensures OnePlace(Run(INITIAL, es))
    ensures StampsBehind(Run(INITIAL, es))
  {
    forall h ensures KeyAt(INITIAL, h).None? && StampAt(INITIAL, h).None? {}
    forall l ensures WaiterAt(INITIAL, l).None? {}
    InvRun(INITIAL, es);
  }

  /** No key is ever executed by two workers at once. */
  lemma NeverExecutedTwice(es: seq<Event>, p: Priority, q: Priority)
    requires IsRun(INITIAL, es)
    requires Run(INITIAL, es).workers.Get(p).Running? && Run(INITIAL, es).workers.Get(q).Running?
    requires Run(INITIAL, es).workers.Get(p).task.key == Run(INITIAL, es).workers.Get(q).task.key
    ensures p == q
  {
    QueueSafe(es);
    var s := Run(INITIAL, es);
    assert KeyAt(s, AtWorker(p)) == KeyAt(s, AtWorker(q));
  }

  /** A completion cell is written at most once: the handle a worker is about
      to complete holds no result yet, and results never change. */
  lemma CompletedOnce(s: State, e: Event)
    requires Inv(s) && Enabled(s, e)
    ensures e.Notify? ==> s.workers.Get(e.p).batch[0] !in s.results
    ensures forall w :: w in s.results ==> w in Apply(s, e).results && Apply(s, e).results[w] == s.results[w]
  {
    if e.Notify? {
      var w := s.workers.Get(e.p).batch[0];
      assert WaiterAt(s, InBatch(e.p, 0)) == Some(w) != WaiterAt(s, Completed(w));
    }
  }

  /** `w` has, or is in a removed batch about to get, the outcome `o`. */
  ghost predicate Promised(s: State, w: Waiter, o: Outcome) {
    || (w in s.results && s.results[w] == o)
    || (exists p :: s.workers.Get(p).Notifying? && s.workers.Get(p).outcome == o && w in s.workers.Get(p).batch)
  }

  function Ends(e: Event, p: Priority): nat { if e == Finish(p) then 1 else 0 }

  /** Only its own worker changes a batch, one handle at a time. */
  lemma BatchStep(s: State, e: Event, p: Priority)
    requires Enabled(s, e) && s.workers.Get(p).Notifying? && s.workers.Get(p).batch != []
    ensures Ends(e, p) == 0
    ensures var b, o := s.workers.Get(p).batch, s.workers.Get(p).outcome;
            Apply(s, e).workers.Get(p) == Notifying(if e == Notify(p) then b[1..] else b, o)
    ensures e == Notify(p) ==> s.workers.Get(p).batch[0] in Apply(s, e).results
  {
  }

  lemma PromiseStep(s: State, e: Event, w: Waiter, o: Outcome)
    requires Inv(s) && Enabled(s, e) && Promised(s, w, o)
    ensures Promised(Apply(s, e), w, o)
  {
    CompletedOnce(s, e);
    if !(w in s.results && s.results[w] == o) {
      var p :| s.workers.Get(p).Notifying? && s.workers.Get(p).outcome == o && w in s.workers.Get(p).batch;
      BatchStep(s, e, p);
      var b := s.workers.Get(p).batch;
      if e == Notify(p) && b[0] == w {
        assert Apply(s, e).results == s.results[w := o];
      } else {
        assert e == Notify(p) ==> w in b[1..];
      }
    }
  }

  lemma {:induction false} PromiseRun(s: State, es: seq<Event>, w: Waiter, o: Outcome)
    requires Inv(s) && IsRun(s, es) && Promised(s, w, o)
    ensures Inv(Run(s, es)) && Promised(Run(s, es), w, o)
    decreases |es|
  {
    if es != [] {
      PromiseStep(s, es[0], w, o);
      InvStep(s, es[0]);
      PromiseRun(Apply(s, es[0]), es[1..], w, o);
    }
  }

  lemma BatchNotCompleted(s: State, p: Priority, w: Waiter)
    requires OnePlace(s) && s.workers.Get(p).Notifying? && w in s.workers.Get(p).batch
    ensures w !in s.results
  {
    var i: nat :| i < |s.workers.Get(p).batch| && s.workers.Get(p).batch[i] == w;
    assert WaiterAt(s, InBatch(p, i)) == Some(w) != WaiterAt(s, Completed(w));
  }

  /** Everyone in one removed batch gets the same outcome, whatever runs in
      between. */
  lemma BatchSharesOutcome(s: State, p: Priority, es: seq<Event>, w: Waiter)
    requires Inv(s) && s.workers.Get(p).Finished? && s.workers.Get(p).task.key in s.tracking
    requires w in s.tracking[s.workers.Get(p).task.key]
    requires IsRun(s, [Remove(p)] + es)
    requires w in Run(s, [Remove(p)] + es).results
    ensures Run(s, [Remove(p)] + es).results[w] == s.workers.Get(p).outcome
  {
    var o := s.workers.Get(p).outcome;
    var all := [Remove(p)] + es;
    assert all[0] == Remove(p) && all[1..] == es;
    var s1 := Apply(s, Remove(p));
    InvStep(s, Remove(p));
    assert s1.workers.Get(p).Notifying? && w in s1.workers.Get(p).batch;
    PromiseRun(s1, es, w, o);
    var t := Run(s1, es);
    if !(w in t.results && t.results[w] == o) {
      var q :| t.workers.Get(q).Notifying? && t.workers.Get(q).outcome == o && w in t.workers.Get(q).batch;
      BatchNotCompleted(t, q, w);
      assert false;
    }
  }

  // ── Every waiter is served: a ranking on the FIFO position ──

  /** Worker iterations of `p` still to end before the task at channel
      position `i` has been announced. */
  function Ahead(s: State, p: Priority, i: nat): nat {
    var w := s.workers.Get(p);
    i + 1 + if w.Paused? || w.Ready? then 0 else 1
  }

  ghost predicate DueKey(s: State, k: TaskKey, p: Priority, n: nat) {
    || (n > 0 && KeyAt(s, AtWorker(p)) == Some(k))
    || (exists i: nat :: KeyAt(s, InChannel(p, i)) == Some(k) && n >= Ahead(s, p, i))
  }

  /** `w` will be completed by the time worker `p` has ended `n` more
      iterations. */
  ghost predicate Due(s: State, w: Waiter, p: Priority, n: nat) {
    || w in s.results
    || (n > 0 && s.workers.Get(p).Notifying? && w in s.workers.Get(p).batch)
    || (exists k :: k in s.tracking && w in s.tracking[k] && DueKey(s, k, p, n))
  }

  function EndedBy(es: seq<Event>, p: Priority): nat {
    if es == [] then 0 else Ends(es[0], p) + EndedBy(es[1..], p)
  }

  function Less(n: nat, m: nat): nat { if m <= n then n - m else 0 }

  lemma HeldStays(s: State, e: Event, k: TaskKey, p: Priority)
    requires Enabled(s, e) && KeyAt(s, AtWorker(p)) == Some(k) && e != Remove(p)
    ensures KeyAt(Apply(s, e), AtWorker(p)) == Some(k) && Ends(e, p) == 0
  {
  }

  lemma QueuedAdvances(s: State, k: TaskKey, p: Priority, i: nat)
    requires Enabled(s, Receive(p)) && KeyAt(s, InChannel(p, i)) == Some(k)
    ensures var s' := Apply(s, Receive(p));
            if i == 0 then KeyAt(s', AtWorker(p)) == Some(k)
            else KeyAt(s', InChannel(p, i - 1)) == Some(k) && Ahead(s', p, i - 1) == Ahead(s, p, i)
  {
  }

  lemma QueuedStays(s: State, e: Event, k: TaskKey, p: Priority, i: nat)
    requires Enabled(s, e) && e != Receive(p) && KeyAt(s, InChannel(p, i)) == Some(k)
    ensures KeyAt(Apply(s, e), InChannel(p, i)) == Some(k)
    ensures Ahead(Apply(s, e), p, i) + Ends(e, p) <= Ahead(s, p, i)
  {
  }

  lemma DueKeyStep(s: State, e: Event, k: TaskKey, p: Priority, n: nat)
    requires Inv(s) && Enabled(s, e) && k in s.tracking && DueKey(s, k, p, n)
    requires !(e.Remove? && s.workers.Get(e.p).task.key == k)
    ensures k in Apply(s, e).tracking && DueKey(Apply(s, e), k, p, Less(n, Ends(e, p)))
  {
    if n > 0 && KeyAt(s, AtWorker(p)) == Some(k) {
      HeldStays(s, e, k, p);
    } else {
      var i: nat :| KeyAt(s, InChannel(p, i)) == Some(k) && n >= Ahead(s, p, i);
      if e == Receive(p) {
        QueuedAdvances(s, k, p, i);
      } else {
        QueuedStays(s, e, k, p, i);
      }
    }
  }

  lemma DueInBatch(s: State, e: Event, w: Waiter, p: Priority, n: nat)
    requires Inv(s) && Enabled(s, e)
    requires n > 0 && s.workers.Get(p).Notifying? && w in s.workers.Get(p).batch
    ensures Due(Apply(s, e), w, p, Less(n, Ends(e, p)))
  {
    BatchStep(s, e, p);
    var b := s.workers.Get(p).batch;
    assert e == Notify(p) && b[0] != w ==> w in b[1..];
  }

  /** The worker that removes a due key is the one it is due at. */
  lemma RemovedByItsWorker(s: State, q: Priority, k: TaskKey, p: Priority, n: nat)
    requires Inv(s) && s.workers.Get(q).Finished? && s.workers.Get(q).task.key == k && DueKey(s, k, p, n)
    ensures q == p && n > 0
  {
    assert KeyAt(s, AtWorker(q)) == Some(k);
    assert forall i: nat :: KeyAt(s, InChannel(p, i)) != Some(k);
  }

  lemma DueTracked(s: State, e: Event, w: Waiter, k: TaskKey, p: Priority, n: nat)
    requires Inv(s) && Enabled(s, e)
    requires k in s.tracking && w in s.tracking[k] && DueKey(s, k, p, n)
    ensures Due(Apply(s, e), w, p, Less(n, Ends(e, p)))
  {
    var s' := Apply(s, e);
    if e.Remove? && s.workers.Get(e.p).task.key == k {
      RemovedByItsWorker(s, e.p, k, p, n);
      assert w in s'.workers.Get(p).batch;
    } else {
      DueKeyStep(s, e, k, p, n);
      assert w in s'.tracking[k];
    }
  }

  lemma DueStep(s: State, e: Event, w: Waiter, p: Priority, n: nat)
    requires Inv(s) && Enabled(s, e) && Due(s, w, p, n)
    ensures Due(Apply(s, e), w, p, Less(n, Ends(e, p)))
  {
    CompletedOnce(s, e);
    if w !in s.results {
      if n > 0 && s.workers.Get(p).Notifying? && w in s.workers.Get(p).batch {
        DueInBatch(s, e, w, p, n);
      } else {
        var k :| k in s.tracking && w in s.tracking[k] && DueKey(s, k, p, n);
        DueTracked(s, e, w, k, p, n);
      }
    }
  }

  lemma {:induction false} DueRun(s: State, es: seq<Event>, w: Waiter, p: Priority, n: nat)
    requires Inv(s) && IsRun(s, es) && Due(s, w, p, n)
    ensures Due(Run(s, es), w, p, Less(n, EndedBy(es, p)))
    decreases |es|
  {
    if es != [] {
      DueStep(s, es[0], w, p, n);
      InvStep(s, es[0]);
      DueRun(Apply(s, es[0]), es[1..], w, p, Less(n, Ends(es[0], p)));
    }
  }

  /** Main result: a waiter attached to the task at position `i` of a channel
      is completed once that channel's worker has ended one iteration for
      each task ahead, one for the task itself, and the one it is in. */
  lemma WaiterServed(s: State, es: seq<Event>, w: Waiter, p: Priority, i: nat)
    requires Inv(s) && IsRun(s, es)
    requires i < |s.channels.Get(p)|
    requires s.channels.Get(p)[i].key in s.tracking && w in s.tracking[s.channels.Get(p)[i].key]
    requires EndedBy(es, p) >= Ahead(s, p, i)
    ensures w in Run(s, es).results
  {
    var k := s.channels.Get(p)[i].key;
    assert KeyAt(s, InChannel(p, i)) == Some(k);
    assert DueKey(s, k, p, Ahead(s, p, i));
    DueRun(s, es, w, p, Ahead(s, p, i));
  }

  /** A waiter on a task that a worker already holds is completed when that
      worker ends the iteration it is in. */
  lemma HeldWaiterServed(s: State, es: seq<Event>, w: Waiter, p: Priority, k: TaskKey)
    requires Inv(s) && IsRun(s, es)
    requires KeyAt(s, AtWorker(p)) == Some(k) && k in s.tracking && w in s.tracking[k]
    requires EndedBy(es, p) >= 1
    ensures w in Run(s, es).results
  {
    assert DueKey(s, k, p, 1);
    DueRun(s, es, w, p, 1);
  }

  /** The run sends the task of call `c`, and then worker `p` ends one
      iteration for each task ahead, one for the task, and the one it is in. */
  predicate ServesAfterSend(s: State, es: seq<Event>, c: nat, p: Priority)
    requires IsRun(s, es)
    decreases |es|
  {
    && es != []
    && if es[0] == Send(c) then EndedBy(es[1..], p) >= Ahead(Apply(s, Send(c)), p, |s.channels.Get(p)|)
       else ServesAfterSend(Apply(s, es[0]), es[1..], c, p)
  }

  /** Until it is sent, a task stays with its caller and keeps its waiters. */
  lemma UnsentStays(s: State, e: Event, c: nat, k: TaskKey, w: Waiter)
    requires Inv(s) && Enabled(s, e) && e != Send(c)
    requires KeyAt(s, AtCall(c)) == Some(k) && k in s.tracking && w in s.tracking[k]
    ensures var t := Apply(s, e);
            && KeyAt(t, AtCall(c)) == Some(k) && t.calls[c].priority == s.calls[c].priority
            && k in t.tracking && w in t.tracking[k]
  {
    if e.Remove? {
      assert KeyAt(s, AtWorker(e.p)) != KeyAt(s, AtCall(c));
    }
  }

  lemma SentIsQueued(s: State, c: nat, k: TaskKey)
    requires Inv(s) && Enabled(s, Send(c)) && KeyAt(s, AtCall(c)) == Some(k)
    ensures var t, p := Apply(s, Send(c)), s.calls[c].priority;
            && t.tracking == s.tracking
            && |t.channels.Get(p)| == |s.channels.Get(p)| + 1
            && t.channels.Get(p)[|s.channels.Get(p)|].key == k
  {
  }

  lemma {:induction false} UnsentWaiterServed(s: State, es: seq<Event>, w: Waiter, c: nat, k: TaskKey)
    requires Inv(s) && IsRun(s, es)
    requires KeyAt(s, AtCall(c)) == Some(k) && k in s.tracking && w in s.tracking[k]
    requires ServesAfterSend(s, es, c, s.calls[c].priority)
    ensures w in Run(s, es).results
    decreases |es|
  {
    InvStep(s, es[0]);
    if es[0] == Send(c) {
      SentIsQueued(s, c, k);
      WaiterServed(Apply(s, es[0]), es[1..], w, s.calls[c].priority, |s.channels.Get(s.calls[c].priority)|);
    } else {
      UnsentStays(s, es[0], c, k, w);
      UnsentWaiterServed(Apply(s, es[0]), es[1..], w, c, k);
    }
  }

  /** How long the waiters of a task wait, by where the task is. */
  predicate Serves(s: State, es: seq<Event>, h: Home)
    requires IsRun(s, es)
  {
    match h
    case AtCall(c) => c in s.calls && ServesAfterSend(s, es, c, s.calls[c].priority)
    case InChannel(p, i) => EndedBy(es, p) >= Ahead(s, p, i)
    case AtWorker(p) => EndedBy(es, p) >= 1
  }

  /** Main result: wherever its task is, a waiter is completed after a number
      of iterations that the task's place determines. */
  lemma EveryWaiterServed(s: State, es: seq<Event>, w: Waiter, k: TaskKey, h: Home)
    requires Inv(s) && IsRun(s, es)
    requires k in s.tracking && w in s.tracking[k] && KeyAt(s, h) == Some(k) && Serves(s, es, h)
    ensures w in Run(s, es).results
  {
    match h
    case AtCall(c) => UnsentWaiterServed(s, es, w, c, k);
    case InChannel(p, i) => WaiterServed(s, es, w, p, i);
    case AtWorker(p) => HeldWaiterServed(s, es, w, p, k);
  }

  /** A caller's handle is attached when it reaches `tracking`, and then there
      is a task to wait for. */
  lemma AttachedWaiterHasTask(s: State, c: nat) returns (h: Home)
    requires Inv(s) && Enabled(s, Track(c)) && s.calls[c].waiter.Some?
    ensures var t, k := Apply(s, Track(c)), s.calls[c].key;
            k in t.tracking && s.calls[c].waiter.value in t.tracking[k] && KeyAt(t, h) == Some(k)
  {
    var t, k := Apply(s, Track(c)), s.calls[c].key;
    InvStep(s, Track(c));
    assert t.tracking[k] == (if k in s.tracking then s.tracking[k] else []) + AsBatch(s.calls[c].waiter);
    h :| KeyAt(t, h) == Some(k);
  }

  /** The next step of a worker that has something to do. */
  function NextOf(s: State, p: Priority, api: Outcome): Event {
    match s.workers.Get(p)
    case Paused => Unpause(p)
    case Ready => if s.channels.Get(p) == [] then Timeout(p) else Receive(p)
    case Received(_) => Recheck(p)
    case Cleared(_) => Check(p)
    case Running(_) => Execute(p, api)
    case Finished(_, _) => Remove(p)
    case Notifying(batch, _) => if batch == [] then Finish(p) else Notify(p)
  }

  /** Steps left in a worker's iteration, waiters of the batch last. */
  function Stage(w: Worker): (nat, nat) {
    match w
    case Paused => (7, 0)
    case Ready => (6, 0)
    case Received(_) => (5, 0)
    case Cleared(_) => (4, 0)
    case Running(_) => (3, 0)
    case Finished(_, _) => (2, 0)
    case Notifying(batch, _) => (1, |batch|)
  }

  predicate Nearer(w: Worker, than: Worker) {
    Stage(w).0 < Stage(than).0 || (Stage(w).0 == Stage(than).0 && Stage(w).1 < Stage(than).1)
  }

  /** The worker whose step an event is. */
  predicate StepOf(e: Event, p: Priority) {
    match e
    case Unpause(q) => q == p
    case Receive(q) => q == p
    case Recheck(q) => q == p
    case Check(q) => q == p
    case Execute(q, _) => q == p
    case Remove(q) => q == p
    case Notify(q) => q == p
    case _ => false
  }

  lemma StepShrinks(s: State, e: Event, p: Priority)
    requires Enabled(s, e) && StepOf(e, p)
    ensures Nearer(Apply(s, e).workers.Get(p), s.workers.Get(p))
  {
    if e.Notify? {
      assert Apply(s, e).workers.Get(p) == Notifying(s.workers.Get(p).batch[1..], s.workers.Get(p).outcome);
    }
  }

  /** A worker with a task waiting is never stuck once its API call has
      returned, nor, for the prefetch workers, once uploads have drained; each
      step but the last brings the iteration nearer to its end. */
  lemma WorkerProgress(s: State, p: Priority, api: Outcome)
    requires MayRun(s, p)
    ensures Enabled(s, NextOf(s, p, api))
    ensures !NextOf(s, p, api).Finish? && !NextOf(s, p, api).Timeout? ==>
              Nearer(Apply(s, NextOf(s, p, api)).workers.Get(p), s.workers.Get(p))
  {
    var e := NextOf(s, p, api);
    if !e.Finish? && !e.Timeout? {
      StepShrinks(s, e, p);
    }
  }

  // ── Epoch discard is exact ──

  /** The number of `DirUrgent` enqueues in a run. */
  function Navigations(s: State, es: seq<Event>): nat
    requires IsRun(s, es)
    decreases |es|
  {
    if es == [] then 0
    else (if es[0].Bump? && s.calls[es[0].c].priority.DirUrgent? then 1 else 0) + Navigations(Apply(s, es[0]), es[1..])
  }

  lemma {:induction false} EpochCounts(s: State, es: seq<Event>)
    requires IsRun(s, es)
    ensures Run(s, es).epoch == s.epoch + Navigations(s, es)
    decreases |es|
  {
    if es != [] {
      EpochCounts(Apply(s, es[0]), es[1..]);
    }
  }

  /** Main result: a prefetch worker executes a task if and only if no
      `DirUrgent` enqueue happened between its stamping and the check. */
  lemma DiscardExact(s: State, c: nat, es: seq<Event>, p: Priority)
    requires Inv(s) && Enabled(s, Stamp(c)) && s.calls[c].priority in {DirPrefetch, MetaPrefetch}
    requires IsRun(Apply(s, Stamp(c)), es) && p in {DirPrefetch, MetaPrefetch}
    requires var t := Run(Apply(s, Stamp(c)), es);
             Enabled(t, Check(p)) && t.workers.Get(p).task == Apply(s, Stamp(c)).calls[c].point.task
    ensures var t := Run(Apply(s, Stamp(c)), es);
            var worker := Apply(t, Check(p)).workers.Get(p);
            && (worker.Running? <==> Navigations(Apply(s, Stamp(c)), es) == 0)
            && (!worker.Running? ==> worker == Finished(t.workers.Get(p).task, Ok(NotModified)))
  {
    EpochCounts(Apply(s, Stamp(c)), es);
  }

  // ── Which workers wait and discard ──

  /** The worker has taken a task and not yet called Drive for it. */
  predicate Holds(w: Worker) { w.Received? || w.Cleared? || w.Running? }

  predicate StillHolds(before: Worker, after: Worker)
    requires Holds(before)
  {
    Holds(after) && after.task == before.task
  }

  lemma UrgentStep(s: State, e: Event, p: Priority)
    requires Enabled(s, e) && p in {DirUrgent, MetaUrgent, FileDownload} && Holds(s.workers.Get(p))
    ensures !(e.Execute? && e.p == p) ==> StillHolds(s.workers.Get(p), Apply(s, e).workers.Get(p))
  {
  }

  /** Main result: the workers of the other three priorities call Drive for
      every task they take, whatever uploads and navigations come in between. */
  lemma {:induction false} UrgentExecutes(s: State, es: seq<Event>, p: Priority)
    requires IsRun(s, es) && p in {DirUrgent, MetaUrgent, FileDownload} && Holds(s.workers.Get(p))
    ensures StillHolds(s.workers.Get(p), Run(s, es).workers.Get(p)) || exists e :: e in es && e.Execute? && e.p == p
    decreases |es|
  {
    if es != [] {
      UrgentStep(s, es[0], p);
      if es[0].Execute? && es[0].p == p {
        assert es[0] in es;
      } else {
        UrgentExecutes(Apply(s, es[0]), es[1..], p);
        assert forall e :: e in es[1..] ==> e in es;
      }
    }
  }

  /** And they never wait for an upload. */
  lemma UrgentNeverWaits(s: State, p: Priority)
    requires p in {DirUrgent, MetaUrgent, FileDownload}
    ensures s.workers.Get(p).Paused? ==> Enabled(s, Unpause(p))
    ensures s.workers.Get(p).Received? ==> Enabled(s, Recheck(p))
  {
  }

  /** An upload is active in every state in which a step is taken. */
  predicate Uploading(s: State, es: seq<Event>)
    requires IsRun(s, es)
    decreases |es|
  {
    es == [] || (s.uploads > 0 && Uploading(Apply(s, es[0]), es[1..]))
  }

  /** The worker waits before taking a task, or holds one it may not start. */
  predicate HeldBack(w: Worker) { w.Paused? || w.Ready? || w.Received? }

  lemma HeldBackStep(s: State, e: Event, p: Priority)
    requires Enabled(s, e) && s.uploads > 0 && p in {DirPrefetch, MetaPrefetch}
    ensures HeldBack(s.workers.Get(p)) ==> HeldBack(Apply(s, e).workers.Get(p)) && !(e.Execute? && e.p == p)
    ensures s.workers.Get(p).Paused? ==> Apply(s, e).workers.Get(p).Paused? && !(e.Receive? && e.p == p)
  {
  }

  /** Main result: as long as uploads go on, a prefetch worker that has not
      passed its second check starts no task, and one that is waiting takes
      none. */
  lemma {:induction false} UploadsHoldBack(s: State, es: seq<Event>, p: Priority)
    requires IsRun(s, es) && Uploading(s, es) && p in {DirPrefetch, MetaPrefetch} && HeldBack(s.workers.Get(p))
    ensures forall e :: e in es && e.Execute? ==> e.p != p
    ensures s.workers.Get(p).Paused? ==> forall e :: e in es && e.Receive? ==> e.p != p
    decreases |es|
  {
    if es != [] {
      HeldBackStep(s, es[0], p);
      UploadsHoldBack(Apply(s, es[0]), es[1..], p);
      assert forall e :: e in es ==> e == es[0] || e in es[1..];
    }
  }
}
