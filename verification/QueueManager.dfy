/** `QueueManager` as the imperative code runs it when no other thread
    intervenes.  Each method is proved to be a run of the protocol's steps, so
    what `QueueProtocol` proves of every interleaving holds of these bodies. */
module QueueManager {
  import opened Basics
  import opened QueueProtocol

  /** The steps of one call of `enqueue_inner`. */
  function EnqueueSteps(s: State, key: TaskKey, p: Priority, w: Option<Waiter>): seq<Event> {
    if key in s.tracking then [Begin(0, key, p, w), Bump(0), Track(0)]
    else [Begin(0, key, p, w), Bump(0), Track(0), Stamp(0), Send(0)]
  }

  function NotifySteps(p: Priority, n: nat): seq<Event> {
    if n == 0 then [Finish(p)] else [Notify(p)] + NotifySteps(p, n - 1)
  }

  predicate Stale(s: State, p: Priority, t: Task) { IsPrefetch(p) && t.epoch < s.epoch }

  function AfterRecheck(s: State, p: Priority, t: Task, api: Outcome, n: nat): seq<Event> {
    [Check(p)] + ((if Stale(s, p, t) then [] else [Execute(p, api)]) + ([Remove(p)] + NotifySteps(p, n)))
  }

  /** The steps of one round of a worker's loop; `api` is what Drive answers
      if the task is executed. */
  function RoundSteps(s: State, p: Priority, api: Outcome): seq<Event> {
    if !MayRun(s, p) then []
    else if s.channels.Get(p) == [] then [Unpause(p), Timeout(p)]
    else
      var t := s.channels.Get(p)[0];
      var n := if t.key in s.tracking then |s.tracking[t.key]| else 0;
      [Unpause(p), Receive(p), Recheck(p)] + AfterRecheck(s, p, t, api, n)
  }

  function SetAll(results: map<Waiter, Outcome>, batch: seq<Waiter>, o: Outcome): map<Waiter, Outcome>
    decreases |batch|
  {
    if batch == [] then results else SetAll(results[batch[0] := o], batch[1..], o)
  }

  lemma {:induction false} SetAllSets(results: map<Waiter, Outcome>, batch: seq<Waiter>, o: Outcome)
    ensures forall w :: w in batch ==> w in SetAll(results, batch, o) && SetAll(results, batch, o)[w] == o
    ensures forall w :: w !in batch ==>
              (w in SetAll(results, batch, o) <==> w in results)
              && (w in results ==> SetAll(results, batch, o)[w] == results[w])
    decreases |batch|
  {
    if batch != [] {
      SetAllSets(results[batch[0] := o], batch[1..], o);
      assert batch == [batch[0]] + batch[1..];
    }
  }

  lemma {:induction false} NotifyRun(s: State, p: Priority, batch: seq<Waiter>, o: Outcome)
    requires s.workers.Get(p) == Notifying(batch, o)
    ensures IsRun(s, NotifySteps(p, |batch|))
    ensures Run(s, NotifySteps(p, |batch|)) == WorkerAt(s, p, Paused).(results := SetAll(s.results, batch, o))
    decreases |batch|
  {
    var es := NotifySteps(p, |batch|);
    if batch == [] {
      assert es[1..] == [];
    } else {
      assert es[0] == Notify(p) && es[1..] == NotifySteps(p, |batch| - 1);
      NotifyRun(Apply(s, Notify(p)), p, batch[1..], o);
    }
  }

  lemma {:induction false} NotifyStepsOnly(p: Priority, n: nat)
    ensures forall e :: e in NotifySteps(p, n) ==> e == Notify(p) || e == Finish(p)
  {
    if n > 0 {
      NotifyStepsOnly(p, n - 1);
    }
  }

  /** The state after an uninterrupted call of `enqueue_inner`. */
  function Enqueued(s: State, key: TaskKey, p: Priority, w: Option<Waiter>): State {
    var epoch := if p.DirUrgent? then s.epoch + 1 else s.epoch;
    var task := Task(key, if IsPrefetch(p) then epoch else 0);
    s.(used := s.used + (if w.Some? then {w.value} else {}), epoch := epoch,
       tracking := s.tracking[key := (if key in s.tracking then s.tracking[key] else []) + AsBatch(w)],
       channels := if key in s.tracking then s.channels else s.channels.Put(p, s.channels.Get(p) + [task]))
  }

  /** The state between `Begin` and `Track`. */
  function Begun(s: State, key: TaskKey, p: Priority, w: Option<Waiter>, point: CallPoint): State {
    s.(calls := map[0 := Call(key, p, w, point)], used := s.used + (if w.Some? then {w.value} else {}))
  }

  lemma BeginSteps(s: State, key: TaskKey, p: Priority, w: Option<Waiter>)
    requires s.calls == map[] && (w.Some? ==> w.value !in s.used)
    ensures Enabled(s, Begin(0, key, p, w)) && Apply(s, Begin(0, key, p, w)) == Begun(s, key, p, w, AtBump)
    ensures Enabled(Begun(s, key, p, w, AtBump), Bump(0))
    ensures Apply(Begun(s, key, p, w, AtBump), Bump(0)) ==
            Begun(s, key, p, w, AtTrack).(epoch := if p.DirUrgent? then s.epoch + 1 else s.epoch)
  {
  }

  lemma TrackStep(s: State, key: TaskKey, p: Priority, w: Option<Waiter>)
    ensures var s2 := Begun(s, key, p, w, AtTrack);
            && Enabled(s2, Track(0))
            && Apply(s2, Track(0)) ==
               s2.(calls := if key in s.tracking then map[] else map[0 := Call(key, p, w, AtStamp)],
                   tracking := s.tracking[key := (if key in s.tracking then s.tracking[key] else []) + AsBatch(w)])
  {
    assert [] + AsBatch(w) == AsBatch(w);
    assert Begun(s, key, p, w, AtTrack).calls - {0} == map[];
  }

  lemma Prepend(s: State, e: Event, t: State, es: seq<Event>)
    requires Enabled(s, e) && Apply(s, e) == t && IsRun(t, es)
    ensures IsRun(s, [e] + es) && Run(s, [e] + es) == Run(t, es)
  {
    assert ([e] + es)[1..] == es;
  }

  lemma Prepend3(s: State, e1: Event, s1: State, e2: Event, s2: State, e3: Event, s3: State, es: seq<Event>)
    requires Enabled(s, e1) && Apply(s, e1) == s1
    requires Enabled(s1, e2) && Apply(s1, e2) == s2
    requires Enabled(s2, e3) && Apply(s2, e3) == s3
    requires IsRun(s3, es)
    ensures IsRun(s, [e1, e2, e3] + es) && Run(s, [e1, e2, e3] + es) == Run(s3, es)
  {
    Prepend(s2, e3, s3, es);
    Prepend(s1, e2, s2, [e3] + es);
    Prepend(s, e1, s1, [e2] + ([e3] + es));
    assert [e1] + ([e2] + ([e3] + es)) == [e1, e2, e3] + es;
  }

  lemma SendRuns(s: State, call: Call)
    requires s.calls == map[0 := call] && call.point.AtStamp?
    ensures IsRun(s, [Stamp(0), Send(0)])
    ensures var task := Task(call.key, if IsPrefetch(call.priority) then s.epoch else 0);
            Run(s, [Stamp(0), Send(0)]) ==
            s.(calls := map[], channels := s.channels.Put(call.priority, s.channels.Get(call.priority) + [task]))
  {
    var task := Task(call.key, if IsPrefetch(call.priority) then s.epoch else 0);
    var s1 := s.(calls := map[0 := call.(point := AtSend(task))]);
    var s2 := s1.(calls := map[], channels := s.channels.Put(call.priority, s.channels.Get(call.priority) + [task]));
    assert Apply(s1, Send(0)).calls == map[];
    Prepend(s1, Send(0), s2, []);
    Prepend(s, Stamp(0), s1, [Send(0)]);
    assert [Stamp(0)] + [Send(0)] == [Stamp(0), Send(0)];
  }

  lemma EnqueueRuns(s: State, key: TaskKey, p: Priority, w: Option<Waiter>)
    requires s.calls == map[] && (w.Some? ==> w.value !in s.used)
    ensures IsRun(s, EnqueueSteps(s, key, p, w))
    ensures Run(s, EnqueueSteps(s, key, p, w)) == Enqueued(s, key, p, w)
  {
    var bumped := s.(epoch := if p.DirUrgent? then s.epoch + 1 else s.epoch);
    var s2 := Begun(bumped, key, p, w, AtTrack);
    var s3 := Apply(s2, Track(0));
    BeginSteps(s, key, p, w);
    TrackStep(bumped, key, p, w);
    var es := if key in s.tracking then [] else [Stamp(0), Send(0)];
    if key !in s.tracking {
      SendRuns(s3, Call(key, p, w, AtStamp));
    }
    Prepend3(s, Begin(0, key, p, w), Begun(s, key, p, w, AtBump), Bump(0), s2, Track(0), s3, es);
    assert EnqueueSteps(s, key, p, w) == [Begin(0, key, p, w), Bump(0), Track(0)] + es;
  }

  /** Only one worker's state is touched on the way. */
  lemma PutBack(w: PerPriority<Worker>, p: Priority)
    ensures forall v :: w.Put(p, v).Put(p, w.Get(p)) == w
    ensures forall u, v :: w.Put(p, u).Put(p, v) == w.Put(p, v)
  {
  }

  lemma EarlySteps(s: State, p: Priority)
    requires s.workers.Get(p).Paused? && MayRun(s, p)
    ensures Enabled(s, Unpause(p)) && Apply(s, Unpause(p)) == WorkerAt(s, p, Ready)
    ensures s.channels.Get(p) == [] ==>
              Enabled(WorkerAt(s, p, Ready), Timeout(p)) && Apply(WorkerAt(s, p, Ready), Timeout(p)) == s
    ensures s.channels.Get(p) != [] ==>
              var t := s.channels.Get(p)[0];
              var s0 := s.(channels := s.channels.Put(p, s.channels.Get(p)[1..]));
              && Enabled(WorkerAt(s, p, Ready), Receive(p))
              && Apply(WorkerAt(s, p, Ready), Receive(p)) == WorkerAt(s0, p, Received(t))
              && Enabled(WorkerAt(s0, p, Received(t)), Recheck(p))
              && Apply(WorkerAt(s0, p, Received(t)), Recheck(p)) == WorkerAt(s0, p, Cleared(t))
  {
    PutBack(s.workers, p);
  }

  /** The state after a round that received the head of channel `p`. */
  function RoundDone(s: State, p: Priority, api: Outcome): State
    requires s.channels.Get(p) != []
  {
    var t := s.channels.Get(p)[0];
    s.(channels := s.channels.Put(p, s.channels.Get(p)[1..]), tracking := s.tracking - {t.key},
       results := SetAll(s.results, if t.key in s.tracking then s.tracking[t.key] else [],
                         if Stale(s, p, t) then Ok(NotModified) else api))
  }

  lemma CheckStep(s: State, p: Priority, t: Task)
    requires s.workers.Get(p).Paused?
    ensures var c := WorkerAt(s, p, Cleared(t));
            Enabled(c, Check(p)) && Apply(c, Check(p)) ==
            WorkerAt(s, p, if Stale(s, p, t) then Finished(t, Ok(NotModified)) else Running(t))
  {
    PutBack(s.workers, p);
  }

  lemma ExecuteStep(s: State, p: Priority, t: Task, api: Outcome)
    requires s.workers.Get(p).Paused?
    ensures var r := WorkerAt(s, p, Running(t));
            Enabled(r, Execute(p, api)) && Apply(r, Execute(p, api)) == WorkerAt(s, p, Finished(t, api))
  {
    PutBack(s.workers, p);
  }

  lemma RemoveStep(s: State, p: Priority, t: Task, o: Outcome)
    requires s.workers.Get(p).Paused?
    ensures var f := WorkerAt(s, p, Finished(t, o));
            var batch := if t.key in s.tracking then s.tracking[t.key] else [];
            && Enabled(f, Remove(p))
            && Apply(f, Remove(p)) == WorkerAt(s, p, Notifying(batch, o)).(tracking := s.tracking - {t.key})
  {
    PutBack(s.workers, p);
  }

  /** The end of a round, once the outcome is known. */
  lemma FinishedRuns(s: State, p: Priority, t: Task, o: Outcome)
    requires s.workers.Get(p).Paused?
    ensures var batch := if t.key in s.tracking then s.tracking[t.key] else [];
            var es := [Remove(p)] + NotifySteps(p, |batch|);
            && IsRun(WorkerAt(s, p, Finished(t, o)), es)
            && Run(WorkerAt(s, p, Finished(t, o)), es) ==
               s.(tracking := s.tracking - {t.key}, results := SetAll(s.results, batch, o))
  {
    var batch := if t.key in s.tracking then s.tracking[t.key] else [];
    PutBack(s.workers, p);
    RemoveStep(s, p, t, o);
    var taken := WorkerAt(s, p, Notifying(batch, o)).(tracking := s.tracking - {t.key});
    NotifyRun(taken, p, batch, o);
    Prepend(WorkerAt(s, p, Finished(t, o)), Remove(p), taken, NotifySteps(p, |batch|));
  }

  /** The second half of a round, from the epoch check on. */
  lemma ClearedRuns(s: State, p: Priority, t: Task, api: Outcome)
    requires s.workers.Get(p).Paused?
    ensures var batch := if t.key in s.tracking then s.tracking[t.key] else [];
            var es := AfterRecheck(s, p, t, api, |batch|);
            && IsRun(WorkerAt(s, p, Cleared(t)), es)
            && Run(WorkerAt(s, p, Cleared(t)), es) ==
               s.(tracking := s.tracking - {t.key},
                  results := SetAll(s.results, batch, if Stale(s, p, t) then Ok(NotModified) else api))
  {
    var batch := if t.key in s.tracking then s.tracking[t.key] else [];
    var o := if Stale(s, p, t) then Ok(NotModified) else api;
    var rest := [Remove(p)] + NotifySteps(p, |batch|);
    CheckStep(s, p, t);
    FinishedRuns(s, p, t, o);
    if Stale(s, p, t) {
      Prepend(WorkerAt(s, p, Cleared(t)), Check(p), WorkerAt(s, p, Finished(t, o)), rest);
      assert [] + rest == rest;
    } else {
      ExecuteStep(s, p, t, api);
      Prepend(WorkerAt(s, p, Running(t)), Execute(p, api), WorkerAt(s, p, Finished(t, o)), rest);
      Prepend(WorkerAt(s, p, Cleared(t)), Check(p), WorkerAt(s, p, Running(t)), [Execute(p, api)] + rest);
    }
  }

  lemma BusyRoundRuns(s: State, p: Priority, api: Outcome)
    requires s.workers.Get(p).Paused? && MayRun(s, p) && s.channels.Get(p) != []
    ensures IsRun(s, RoundSteps(s, p, api))
    ensures Run(s, RoundSteps(s, p, api)) == RoundDone(s, p, api)
  {
    var t := s.channels.Get(p)[0];
    var s0 := s.(channels := s.channels.Put(p, s.channels.Get(p)[1..]));
    var batch := if t.key in s.tracking then s.tracking[t.key] else [];
    var es := AfterRecheck(s, p, t, api, |batch|);
    EarlySteps(s, p);
    ClearedRuns(s0, p, t, api);
    Prepend3(s, Unpause(p), WorkerAt(s, p, Ready), Receive(p), WorkerAt(s0, p, Received(t)), Recheck(p),
             WorkerAt(s0, p, Cleared(t)), es);
  }

  lemma RoundRuns(s: State, p: Priority, api: Outcome)
    requires s.workers.Get(p).Paused?
    ensures IsRun(s, RoundSteps(s, p, api))
    ensures !MayRun(s, p) || s.channels.Get(p) == [] ==> Run(s, RoundSteps(s, p, api)) == s
    ensures MayRun(s, p) && s.channels.Get(p) != [] ==> Run(s, RoundSteps(s, p, api)) == RoundDone(s, p, api)
  {
    if !MayRun(s, p) {
      return;
    }
    if s.channels.Get(p) == [] {
      EarlySteps(s, p);
      Prepend(WorkerAt(s, p, Ready), Timeout(p), s, []);
      Prepend(s, Unpause(p), WorkerAt(s, p, Ready), [Timeout(p)]);
      assert RoundSteps(s, p, api) == [Unpause(p)] + [Timeout(p)];
    } else {
      BusyRoundRuns(s, p, api);
    }
  }

  class QueueManager {
    var tracking: map<TaskKey, seq<Waiter>>
    var epoch: nat
    var uploads: nat
    var channels: PerPriority<seq<Task>>
    var results: map<Waiter, Outcome>
    ghost var used: set<Waiter>

    /** The protocol state between calls: nobody is in the middle of a step. */
    ghost function View(): State
      reads this
    {
      INITIAL.(tracking := tracking, epoch := epoch, uploads := uploads, channels := channels,
               results := results, used := used)
    }

    constructor ()
      ensures View() == INITIAL
    {
      tracking, epoch, uploads := map[], 0, 0;
      channels, results, used := PerPriority([], [], [], [], []), map[], {};
    }

    method EnqueueInner(key: TaskKey, priority: Priority, waiter: Option<Waiter>)
      requires waiter.Some? ==> waiter.value !in used
      modifies this
      ensures IsRun(old(View()), EnqueueSteps(old(View()), key, priority, waiter))
      ensures View() == Run(old(View()), EnqueueSteps(old(View()), key, priority, waiter))
      ensures epoch == old(epoch) + if priority == DirUrgent then 1 else 0
      ensures var attached := if key in old(tracking) then old(tracking)[key] else [];
              tracking == old(tracking)[key := attached + if waiter.Some? then [waiter.value] else []]
      ensures key in old(tracking) ==> channels == old(channels)
      ensures key !in old(tracking) ==>
                exists task ::
                  && channels == old(channels).Put(priority, old(channels).Get(priority) + [task])
                  && task.key == key && (priority in {DirPrefetch, MetaPrefetch} ==> task.epoch == epoch)
    {
      EnqueueRuns(View(), key, priority, waiter);
      used := used + if waiter.Some? then {waiter.value} else {};
      if priority == DirUrgent {
        epoch := epoch + 1;
      }
      var tracked := AttachWaiter(key, waiter);
      if !tracked {
        var stamp := if priority == DirPrefetch || priority == MetaPrefetch then epoch else 0;
        channels := channels.Put(priority, channels.Get(priority) + [Task(key, stamp)]);
      }
    }

    /** Entering the caller's handle, if any, into `tracking`. */
    method AttachWaiter(key: TaskKey, waiter: Option<Waiter>) returns (tracked: bool)
      modifies this`tracking
      ensures tracked == (key in old(tracking))
      ensures tracking == old(tracking)[key := (if tracked then old(tracking)[key] else []) + AsBatch(waiter)]
    {
      tracked := key in tracking;
      if tracked {
        if waiter.Some? {
          tracking := tracking[key := tracking[key] + [waiter.value]];
        } else {
          assert tracking[key] + [] == tracking[key];
          assert tracking == tracking[key := tracking[key] + []];
        }
      } else {
        assert [] + AsBatch(waiter) == AsBatch(waiter);
        tracking := tracking[key := if waiter.Some? then [waiter.value] else []];
      }
    }

    /** Completing every waiter of a removed task. */
    method CompleteAll(completions: seq<Waiter>, outcome: Outcome)
      modifies this`results
      ensures results == SetAll(old(results), completions, outcome)
    {
      for i := 0 to |completions|
        invariant SetAll(results, completions[i..], outcome) == SetAll(old(results), completions, outcome)
      {
        assert completions[i..][0] == completions[i] && completions[i..][1..] == completions[i + 1..];
        results := results[completions[i] := outcome];
      }
      assert completions[|completions|..] == [];
    }

    /** One round of the loop in `spawn_worker`: nothing happens as long as the
        worker has to wait for uploads. */
    method WorkerRound(p: Priority, api: Outcome) returns (executed: bool)
      modifies this
      ensures IsRun(old(View()), RoundSteps(old(View()), p, api))
      ensures View() == Run(old(View()), RoundSteps(old(View()), p, api))
      ensures executed <==> Execute(p, api) in RoundSteps(old(View()), p, api)
      ensures var waits := p in {DirPrefetch, MetaPrefetch} && old(uploads) > 0;
              && (waits ==> View() == old(View()))
              && (executed <==>
                    && !waits && old(channels).Get(p) != []
                    && (p in {DirPrefetch, MetaPrefetch} ==> old(channels).Get(p)[0].epoch >= old(epoch)))
              && (!waits && old(channels).Get(p) != [] ==>
                    var task := old(channels).Get(p)[0];
                    var batch := if task.key in old(tracking) then old(tracking)[task.key] else [];
                    && channels == old(channels).Put(p, old(channels).Get(p)[1..])
                    && tracking == old(tracking) - {task.key}
                    && forall w :: w in batch ==>
                         w in results && results[w] == if executed then api else Ok(NotModified))
    {
      RoundRuns(View(), p, api);
      if (IsPrefetch(p) && uploads > 0) || channels.Get(p) == [] {
        return false;
      }
      var task := channels.Get(p)[0];
      channels := channels.Put(p, channels.Get(p)[1..]);
      executed := !(IsPrefetch(p) && task.epoch < epoch);
      RemoveAndNotify(task.key, if executed then api else Ok(NotModified));
      NotifyStepsOnly(p, if task.key in old(tracking) then |old(tracking)[task.key]| else 0);
    }

    /** Taking the waiters of a task out of `tracking` and completing them. */
    method RemoveAndNotify(key: TaskKey, outcome: Outcome)
      modifies this`tracking, this`results
      ensures var batch := if key in old(tracking) then old(tracking)[key] else [];
              && tracking == old(tracking) - {key} && results == SetAll(old(results), batch, outcome)
              && forall w :: w in batch ==> w in results && results[w] == outcome
    {
      var completions := if key in tracking then tracking[key] else [];
      tracking := tracking - {key};
      SetAllSets(results, completions, outcome);
      CompleteAll(completions, outcome);
    }
  }
}
