/**
 The per-key ordered executor of the stream workers.

 A submitted call joins the queue of its key; the submission that makes the queue non-empty
 schedules one drain on the thread pool.  A drain peeks at the head of its queue, runs it,
 resolves its future and only then pops it.  The atomic steps below are the lock-protected
 sections of the source and the unlocked sections between them, so a sequence of steps is one
 interleaving of submitters and pool threads.
 */
module KeyedExecutor {
  import opened Prelude

  datatype Outcome = Returned(value: int) | Raised(error: int)

  /** A queued call: its own future and an identifier of the function with its arguments. */
  datatype Task = Task(future: nat, call: nat)

  /** Where a drain stands.  `Scheduled` waits for a pool thread; the others hold one. */
  datatype Phase =
    | Scheduled
    | AtTop
    | Peeked(task: Task)
    | Running(task: Task)
    | Resolved(task: Task)

  datatype Drain = Drain(key: string, phase: Phase)

  datatype Event =
    | Submitted(key: string, task: Task)
    | Started(key: string, task: Task)
    | Finished(key: string, task: Task, outcome: Outcome)

  /** The executor: its dictionary of deques, the drains alive on the pool, the futures handed
      out so far (numbered from 0) and the history of what happened. */
  datatype State = State(
    queues: map<string, seq<Task>>,
    drains: map<nat, Drain>,
    nextDrain: nat,
    futures: seq<Option<Outcome>>,
    log: seq<Event>)

  datatype Step =
    | Submit(key: string, call: nat)
    | Begin(drain: nat)
    | Peek(drain: nat)
    | Start(drain: nat)
    | Complete(drain: nat, outcome: Outcome)
    | Pop(drain: nat)

  const Empty := State(map[], map[], 0, [], [])

  function Queue(s: State, k: string): seq<Task> {
    if k in s.queues then s.queues[k] else []
  }

  /** The drains that occupy a pool thread. */
  function Busy(s: State): set<nat> {
    set d | d in s.drains && !s.drains[d].phase.Scheduled?
  }

  /** A step can be taken: its drain is alive and stands before that step.  A drain begins only
      when one of the pool's `workers` threads is free. */
  predicate Enabled(workers: nat, s: State, step: Step) {
    match step
    case Submit(_, _) => true
    case Begin(d) => d in s.drains && s.drains[d].phase.Scheduled? && |Busy(s)| < workers
    case Peek(d) => d in s.drains && s.drains[d].phase.AtTop?
    case Start(d) => d in s.drains && s.drains[d].phase.Peeked?
    case Complete(d, _) => d in s.drains && s.drains[d].phase.Running?
    case Pop(d) => d in s.drains && s.drains[d].phase.Resolved?
  }

  function SetPhase(s: State, d: nat, phase: Phase): State
    requires d in s.drains
  {
    s.(drains := s.drains[d := s.drains[d].(phase := phase)])
  }

  function EndDrain(s: State, d: nat): State {
    s.(drains := s.drains - {d})
  }

  function ApplySubmit(s: State, k: string, call: nat): State {
    var task := Task(|s.futures|, call);
    var queue := Queue(s, k) + [task];
    var queued := s.(queues := s.queues[k := queue],
                     futures := s.futures + [None],
                     log := s.log + [Submitted(k, task)]);
    if |queue| == 1
    then queued.(drains := queued.drains[queued.nextDrain := Drain(k, Scheduled)],
                 nextDrain := queued.nextDrain + 1)
    else queued
  }

  function ApplyPeek(s: State, d: nat): State
    requires d in s.drains
  {
    var k := s.drains[d].key;
    if Queue(s, k) == []
    then EndDrain(s.(queues := s.queues - {k}), d)
    else SetPhase(s, d, Peeked(s.queues[k][0]))
  }

  function ApplyStart(s: State, d: nat): State
    requires d in s.drains && s.drains[d].phase.Peeked?
  {
    var k, task := s.drains[d].key, s.drains[d].phase.task;
    SetPhase(s.(log := s.log + [Started(k, task)]), d, Running(task))
  }

  /** Resolving a future twice raises inside both handlers of the source, so the drain dies and
      its task stays at the head of the queue. */
  function ApplyComplete(s: State, d: nat, outcome: Outcome): State
    requires d in s.drains && s.drains[d].phase.Running?
  {
    var k, task := s.drains[d].key, s.drains[d].phase.task;
    if task.future >= |s.futures| || s.futures[task.future].Some?
    then EndDrain(s, d)
    else SetPhase(s.(futures := s.futures[task.future := Some(outcome)],
                     log := s.log + [Finished(k, task, outcome)]), d, Resolved(task))
  }

  function ApplyPop(s: State, d: nat): State
    requires d in s.drains
  {
    var k := s.drains[d].key;
    if Queue(s, k) == [] then SetPhase(s, d, AtTop)
    else if |s.queues[k]| == 1 then EndDrain(s.(queues := s.queues - {k}), d)
    else SetPhase(s.(queues := s.queues[k := s.queues[k][1..]]), d, AtTop)
  }

  function Apply(workers: nat, s: State, step: Step): State
    requires Enabled(workers, s, step)
  {
    match step
    case Submit(k, call) => ApplySubmit(s, k, call)
    case Begin(d) => SetPhase(s, d, AtTop)
    case Peek(d) => ApplyPeek(s, d)
    case Start(d) => ApplyStart(s, d)
    case Complete(d, outcome) => ApplyComplete(s, d, outcome)
    case Pop(d) => ApplyPop(s, d)
  }

  /** The steps form an interleaving that starts in `s`. */
  ghost predicate Executes(workers: nat, s: State, steps: seq<Step>)
    decreases |steps|
  {
    steps == [] ||
    (Enabled(workers, s, steps[0]) && Executes(workers, Apply(workers, s, steps[0]), steps[1..]))
  }

  ghost function Run(workers: nat, s: State, steps: seq<Step>): State
    requires Executes(workers, s, steps)
    decreases |steps|
  {
    if steps == [] then s else Run(workers, Apply(workers, s, steps[0]), steps[1..])
  }

  // ---------------------------------------------------------------- history of one key

  ghost function Submits(log: seq<Event>, k: string): seq<Task> {
    if log == [] then []
    else
      var last := log[|log| - 1];
      Submits(log[..|log| - 1], k) + if last.Submitted? && last.key == k then [last.task] else []
  }

  ghost function Starts(log: seq<Event>, k: string): seq<Task> {
    if log == [] then []
    else
      var last := log[|log| - 1];
      Starts(log[..|log| - 1], k) + if last.Started? && last.key == k then [last.task] else []
  }

  ghost function Finishes(log: seq<Event>, k: string): seq<Task> {
    if log == [] then []
    else
      var last := log[|log| - 1];
      Finishes(log[..|log| - 1], k) + if last.Finished? && last.key == k then [last.task] else []
  }

  lemma HistoryAppend(log: seq<Event>, e: Event, k: string)
    ensures Submits(log + [e], k) == Submits(log, k) + if e.Submitted? && e.key == k then [e.task] else []
    ensures Starts(log + [e], k) == Starts(log, k) + if e.Started? && e.key == k then [e.task] else []
    ensures Finishes(log + [e], k) == Finishes(log, k) + if e.Finished? && e.key == k then [e.task] else []
  {
    DropAppended(log, e);
  }

  /** A submission of `k` in the history is listed by `Submits`, and nothing else is. */
  lemma SubmitsListed(log: seq<Event>, k: string, task: Task)
    ensures task in Submits(log, k) <==> Submitted(k, task) in log
  {
    if log != [] {
      var init := log[..|log| - 1];
      SubmitsListed(init, k, task);
      assert log == init + [log[|log| - 1]];
    }
  }

  lemma StartsListed(log: seq<Event>, k: string, task: Task)
    ensures task in Starts(log, k) <==> Started(k, task) in log
  {
    if log != [] {
      var init := log[..|log| - 1];
      StartsListed(init, k, task);
      assert log == init + [log[|log| - 1]];
    }
  }

  /** Every submission got its own future. */
  ghost predicate FuturesFresh(log: seq<Event>) {
    forall i, j :: 0 <= i < j < |log| && log[i].Submitted? && log[j].Submitted?
      ==> log[i].task.future < log[j].task.future
  }

  lemma SubmitsDistinct(log: seq<Event>, k: string)
    requires FuturesFresh(log)
    ensures Distinct(Submits(log, k))
  {
    if log != [] {
      var init, last := log[..|log| - 1], log[|log| - 1];
      SubmitsDistinct(init, k);
      if last.Submitted? && last.key == k {
        SubmitsListed(init, k, last.task);
      }
    }
  }

  // ---------------------------------------------------------------- invariant

  /** The part of the queue of `k` whose calls have not finished, given its drain's phase. */
  ghost function Unfinished(queue: seq<Task>, phase: Phase): seq<Task> {
    if phase.Resolved? && queue != [] then queue[1..] else queue
  }

  /** What a live drain of key `k` knows about its queue and its key's history. */
  ghost predicate DrainMatches(s: State, d: Drain) {
    var q := Queue(s, d.key);
    && d.key in s.queues && q != []
    && ((d.phase.Peeked? || d.phase.Running? || d.phase.Resolved?) ==> d.phase.task == q[0])
    && Submits(s.log, d.key) == Finishes(s.log, d.key) + Unfinished(q, d.phase)
    && Starts(s.log, d.key) == Finishes(s.log, d.key) + if d.phase.Running? then [q[0]] else []
  }

  /** A key without a queue has finished everything it was given. */
  ghost predicate KeyIdle(s: State, k: string) {
    Submits(s.log, k) == Starts(s.log, k) == Finishes(s.log, k)
  }

  ghost predicate DrainsOk(s: State) {
    && (forall d :: d in s.drains ==> d < s.nextDrain)
    && (forall d :: d in s.drains ==> DrainMatches(s, s.drains[d]))
    && (forall d, e :: d in s.drains && e in s.drains && s.drains[d].key == s.drains[e].key ==> d == e)
  }

  ghost predicate HasDrain(s: State, k: string) {
    exists d :: d in s.drains && s.drains[d].key == k
  }

  ghost predicate KeysOk(s: State) {
    && (forall k :: k in s.queues ==> HasDrain(s, k))
    && (forall k :: k !in s.queues ==> KeyIdle(s, k))
  }

  /** Events speak of futures that were handed out. */
  ghost predicate FuturesInRange(log: seq<Event>, n: nat) {
    forall i :: 0 <= i < |log| ==> log[i].task.future < n
  }

  /** Only submitted calls start and finish. */
  ghost predicate Announced(log: seq<Event>) {
    forall i :: 0 <= i < |log| && !log[i].Submitted? ==> Submitted(log[i].key, log[i].task) in log
  }

  /** A finished call left its outcome in its own future. */
  ghost predicate OutcomesRecorded(log: seq<Event>, futures: seq<Option<Outcome>>)
    requires FuturesInRange(log, |futures|)
  {
    forall i :: 0 <= i < |log| && log[i].Finished? ==> futures[log[i].task.future] == Some(log[i].outcome)
  }

  ghost predicate ResolvedFinished(log: seq<Event>, futures: seq<Option<Outcome>>) {
    forall f :: 0 <= f < |futures| && futures[f].Some? ==> FinishedIn(log, f)
  }

  ghost predicate FuturesOk(s: State) {
    && FuturesFresh(s.log) && FuturesInRange(s.log, |s.futures|) && Announced(s.log)
    && OutcomesRecorded(s.log, s.futures) && ResolvedFinished(s.log, s.futures)
    && StartedOnce(s.log)
  }

  /** The call that owns future `f` has finished. */
  ghost predicate FinishedIn(log: seq<Event>, f: nat) {
    exists i :: 0 <= i < |log| && log[i].Finished? && log[i].task.future == f
  }

  /** No call starts twice. */
  ghost predicate StartedOnce(log: seq<Event>) {
    forall i, j :: 0 <= i < j < |log| && log[i].Started? && log[j].Started?
      ==> log[i].task.future != log[j].task.future
  }

  ghost predicate Inv(s: State) {
    DrainsOk(s) && KeysOk(s) && FuturesOk(s)
  }

  // ---------------------------------------------------------------- every step keeps it

  /** The step touches only the queue, the drain and the history of `k`. */
  ghost predicate OnlyKey(s: State, t: State, k: string) {
    && t.queues - {k} == s.queues - {k}
    && (forall d :: d in s.drains && s.drains[d].key != k ==> d in t.drains && t.drains[d] == s.drains[d])
    && (forall d :: d in t.drains && t.drains[d].key != k ==> d in s.drains && t.drains[d] == s.drains[d])
    && HistoryOnly(s.log, t.log, k)
  }

  /** The history grew by at most one event, and that event is one of `k`. */
  ghost predicate HistoryOnly(before: seq<Event>, after: seq<Event>, k: string) {
    after == before || (|after| == |before| + 1 && after[..|before|] == before && after[|before|].key == k)
  }

  lemma HistoryUntouched(before: seq<Event>, after: seq<Event>, k: string, j: string)
    requires HistoryOnly(before, after, k) && j != k
    ensures Submits(after, j) == Submits(before, j)
    ensures Starts(after, j) == Starts(before, j)
    ensures Finishes(after, j) == Finishes(before, j)
  {
    if after != before {
      assert after == before + [after[|before|]];
      HistoryAppend(before, after[|before|], j);
    }
  }

  lemma QueueUntouched(s: State, t: State, k: string, j: string)
    requires t.queues - {k} == s.queues - {k} && j != k
    ensures j in s.queues <==> j in t.queues
    ensures Queue(s, j) == Queue(t, j)
  {
    assert j in s.queues <==> j in s.queues - {k};
    assert j in t.queues <==> j in t.queues - {k};
    if j in s.queues {
      assert s.queues[j] == (s.queues - {k})[j] == (t.queues - {k})[j] == t.queues[j];
    }
  }

  lemma DrainKept(s: State, t: State, k: string, d: Drain)
    requires OnlyKey(s, t, k) && d.key != k && DrainMatches(s, d)
    ensures DrainMatches(t, d)
  {
    HistoryUntouched(s.log, t.log, k, d.key);
    QueueUntouched(s, t, k, d.key);
  }

  lemma OtherKeysKept(s: State, t: State, k: string, j: string)
    requires KeysOk(s) && OnlyKey(s, t, k) && j != k
    ensures j in t.queues ==> HasDrain(t, j)
    ensures j !in t.queues ==> KeyIdle(t, j)
  {
    QueueUntouched(s, t, k, j);
    if j in t.queues {
      assert HasDrain(s, j);
      var d :| d in s.drains && s.drains[d].key == j;
      assert d in t.drains && t.drains[d].key == j;
    } else {
      assert KeyIdle(s, j);
      HistoryUntouched(s.log, t.log, k, j);
    }
  }

  /** After a step on `k` that leaves `d` as its only drain. */
  lemma KeyStaysLive(s: State, t: State, k: string, d: nat)
    requires DrainsOk(s) && KeysOk(s) && OnlyKey(s, t, k) && s.nextDrain <= t.nextDrain
    requires d in t.drains && d < t.nextDrain && t.drains[d].key == k && DrainMatches(t, t.drains[d])
    requires forall e :: e in t.drains && t.drains[e].key == k ==> e == d
    ensures DrainsOk(t) && KeysOk(t)
  {
    forall e | e in t.drains
      ensures e < t.nextDrain && DrainMatches(t, t.drains[e])
    {
      if e != d {
        assert DrainMatches(s, s.drains[e]);
        DrainKept(s, t, k, t.drains[e]);
      }
    }
    forall j | j != k {
      OtherKeysKept(s, t, k, j);
    }
    assert HasDrain(t, k);
  }

  /** After a step that ends the drain of `k` together with its queue. */
  lemma KeyRetires(s: State, t: State, k: string)
    requires DrainsOk(s) && KeysOk(s) && OnlyKey(s, t, k) && s.nextDrain == t.nextDrain
    requires k !in t.queues && KeyIdle(t, k)
    requires forall e :: e in t.drains ==> t.drains[e].key != k
    ensures DrainsOk(t) && KeysOk(t)
  {
    forall e | e in t.drains
      ensures DrainMatches(t, t.drains[e])
    {
      assert DrainMatches(s, s.drains[e]);
      DrainKept(s, t, k, t.drains[e]);
    }
    forall j | j != k {
      OtherKeysKept(s, t, k, j);
    }
  }

  lemma FinishedInGrows(log: seq<Event>, e: Event, f: nat)
    requires FinishedIn(log, f)
    ensures FinishedIn(log + [e], f)
  {
    var i :| 0 <= i < |log| && log[i].Finished? && log[i].task.future == f;
    assert (log + [e])[i] == log[i];
  }

  lemma AnnouncedAppend(log: seq<Event>, e: Event)
    requires Announced(log) && (e.Submitted? || Submitted(e.key, e.task) in log)
    ensures Announced(log + [e])
  {
    var after := log + [e];
    assert forall x :: x in log ==> x in after;
    forall i | 0 <= i < |after| && !after[i].Submitted?
      ensures Submitted(after[i].key, after[i].task) in after
    {
    }
  }

  lemma StartedOnceAppend(log: seq<Event>, e: Event)
    requires StartedOnce(log)
    requires e.Started? ==> forall i :: 0 <= i < |log| && log[i].Started? ==> log[i].task.future != e.task.future
    ensures StartedOnce(log + [e])
  {
  }

  lemma ResolvedFinishedAppend(log: seq<Event>, e: Event, futures: seq<Option<Outcome>>)
    requires ResolvedFinished(log, futures)
    ensures ResolvedFinished(log + [e], futures)
  {
    forall f | 0 <= f < |futures| && futures[f].Some?
      ensures FinishedIn(log + [e], f)
    {
      FinishedInGrows(log, e, f);
    }
  }

  lemma SubmitKeepsFutures(s: State, k: string, call: nat)
    requires FuturesOk(s)
    ensures FuturesOk(ApplySubmit(s, k, call))
  {
    var e := Submitted(k, Task(|s.futures|, call));
    AnnouncedAppend(s.log, e);
    StartedOnceAppend(s.log, e);
    ResolvedFinishedAppend(s.log, e, s.futures);
  }

  lemma SubmitMatches(s: State, k: string, call: nat, d: Drain)
    requires d.key == k && DrainMatches(s, d)
    ensures DrainMatches(ApplySubmit(s, k, call), d)
  {
    var t, task := ApplySubmit(s, k, call), Task(|s.futures|, call);
    HistoryAppend(s.log, Submitted(k, task), k);
    UnfinishedAppend(Queue(s, k), d.phase, task);
  }

  lemma UnfinishedAppend(queue: seq<Task>, phase: Phase, task: Task)
    requires queue != []
    ensures Unfinished(queue + [task], phase) == Unfinished(queue, phase) + [task]
  {
  }

  lemma SubmitToQueue(s: State, k: string, call: nat, d: nat)
    requires DrainsOk(s) && KeysOk(s) && d in s.drains && s.drains[d].key == k && DrainMatches(s, s.drains[d])
    ensures DrainsOk(ApplySubmit(s, k, call)) && KeysOk(ApplySubmit(s, k, call))
  {
    var t := ApplySubmit(s, k, call);
    SubmitMatches(s, k, call, s.drains[d]);
    KeyStaysLive(s, t, k, d);
  }

  lemma FirstSubmitMatches(s: State, k: string, call: nat)
    requires k !in s.queues && KeyIdle(s, k)
    ensures DrainMatches(ApplySubmit(s, k, call), Drain(k, Scheduled))
  {
    var task := Task(|s.futures|, call);
    HistoryAppend(s.log, Submitted(k, task), k);
    assert Queue(ApplySubmit(s, k, call), k) == [task];
  }

  lemma SubmitToIdleKey(s: State, k: string, call: nat)
    requires DrainsOk(s) && KeysOk(s) && k !in s.queues
    requires forall e :: e in s.drains ==> s.drains[e].key != k
    ensures DrainsOk(ApplySubmit(s, k, call)) && KeysOk(ApplySubmit(s, k, call))
  {
    var t, d := ApplySubmit(s, k, call), s.nextDrain;
    assert KeyIdle(s, k);
    FirstSubmitMatches(s, k, call);
    assert t.drains == s.drains[d := Drain(k, Scheduled)];
    KeyStaysLive(s, t, k, d);
  }

  lemma SubmitKeepsKeys(s: State, k: string, call: nat)
    requires DrainsOk(s) && KeysOk(s)
    ensures DrainsOk(ApplySubmit(s, k, call)) && KeysOk(ApplySubmit(s, k, call))
  {
    if k in s.queues {
      assert HasDrain(s, k);
      var d :| d in s.drains && s.drains[d].key == k;
      assert DrainMatches(s, s.drains[d]);
      SubmitToQueue(s, k, call, d);
    } else {
      forall e | e in s.drains
        ensures s.drains[e].key != k
      {
        assert DrainMatches(s, s.drains[e]);
      }
      SubmitToIdleKey(s, k, call);
    }
  }

  /** The drain of a key moves on without touching queue or history. */
  lemma PhaseKeeps(s: State, d: nat, phase: Phase)
    requires Inv(s) && d in s.drains
    requires DrainMatches(s, s.drains[d].(phase := phase))
    ensures Inv(SetPhase(s, d, phase))
  {
    var t, k := SetPhase(s, d, phase), s.drains[d].key;
    assert DrainMatches(t, t.drains[d]);
    KeyStaysLive(s, t, k, d);
  }

  /** A future identifies its submission. */
  lemma SameSubmission(log: seq<Event>, j: string, u: Task, k: string, t: Task)
    requires FuturesFresh(log) && Submitted(j, u) in log && Submitted(k, t) in log
    requires u.future == t.future
    ensures j == k && u == t
  {
    var a :| 0 <= a < |log| && log[a] == Submitted(j, u);
    var b :| 0 <= b < |log| && log[b] == Submitted(k, t);
  }

  /** The call after the finished ones of `k` was submitted and is not among the finished. */
  lemma NextIsNew(log: seq<Event>, k: string, rest: seq<Task>)
    requires FuturesFresh(log) && rest != []
    requires Submits(log, k) == Finishes(log, k) + rest
    ensures Submitted(k, rest[0]) in log
    ensures rest[0] !in Finishes(log, k)
  {
    var done := Finishes(log, k);
    assert Submits(log, k)[|done|] == rest[0];
    SubmitsListed(log, k, rest[0]);
    SubmitsDistinct(log, k);
    assert forall i :: 0 <= i < |done| ==> Submits(log, k)[i] == done[i];
  }

  /** The head of a queue that is about to run was submitted and has not started. */
  lemma HeadNotStarted(s: State, d: nat)
    requires FuturesOk(s) && d in s.drains && s.drains[d].phase.Peeked? && DrainMatches(s, s.drains[d])
    ensures Submitted(s.drains[d].key, s.drains[d].phase.task) in s.log
    ensures forall i :: 0 <= i < |s.log| && s.log[i].Started? ==> s.log[i].task.future != s.drains[d].phase.task.future
  {
    var k, task := s.drains[d].key, s.drains[d].phase.task;
    NextIsNew(s.log, k, Queue(s, k));
    forall i | 0 <= i < |s.log| && s.log[i].Started?
      ensures s.log[i].task.future != task.future
    {
      if s.log[i].task.future == task.future {
        SameSubmission(s.log, s.log[i].key, s.log[i].task, k, task);
        assert s.log[i] == Started(k, task);
        StartsListed(s.log, k, task);
        assert false;
      }
    }
  }

  lemma StartKeepsFutures(s: State, d: nat)
    requires FuturesOk(s) && d in s.drains && s.drains[d].phase.Peeked? && DrainMatches(s, s.drains[d])
    ensures FuturesOk(ApplyStart(s, d))
  {
    var e := Started(s.drains[d].key, s.drains[d].phase.task);
    HeadNotStarted(s, d);
    assert FuturesInRange(s.log + [e], |s.futures|);
    AnnouncedAppend(s.log, e);
    StartedOnceAppend(s.log, e);
    ResolvedFinishedAppend(s.log, e, s.futures);
  }

  lemma StartMatches(s: State, d: nat)
    requires d in s.drains && s.drains[d].phase.Peeked? && DrainMatches(s, s.drains[d])
    ensures DrainMatches(ApplyStart(s, d), ApplyStart(s, d).drains[d])
  {
    HistoryAppend(s.log, Started(s.drains[d].key, s.drains[d].phase.task), s.drains[d].key);
  }

  lemma StartKeepsKeys(s: State, d: nat)
    requires DrainsOk(s) && KeysOk(s) && d in s.drains && s.drains[d].phase.Peeked?
    ensures DrainsOk(ApplyStart(s, d)) && KeysOk(ApplyStart(s, d))
  {
    assert DrainMatches(s, s.drains[d]);
    StartMatches(s, d);
    KeyStaysLive(s, ApplyStart(s, d), s.drains[d].key, d);
  }

  lemma FinishesListed(log: seq<Event>, k: string, task: Task)
    ensures task in Finishes(log, k) <==> exists i :: 0 <= i < |log| && log[i].Finished? && log[i].key == k && log[i].task == task
  {
    if log != [] {
      var init := log[..|log| - 1];
      FinishesListed(init, k, task);
      assert log == init + [log[|log| - 1]];
    }
  }

  /** The future of a running call is still open, so resolving it cannot fail. */
  lemma RunningUnresolved(s: State, d: nat)
    requires FuturesOk(s) && d in s.drains && s.drains[d].phase.Running? && DrainMatches(s, s.drains[d])
    ensures s.drains[d].phase.task.future < |s.futures|
    ensures s.futures[s.drains[d].phase.task.future] == None
    ensures Submitted(s.drains[d].key, s.drains[d].phase.task) in s.log
  {
    var k, task := s.drains[d].key, s.drains[d].phase.task;
    NextIsNew(s.log, k, Queue(s, k));
    if s.futures[task.future].Some? {
      assert FinishedIn(s.log, task.future);
      var i :| 0 <= i < |s.log| && s.log[i].Finished? && s.log[i].task.future == task.future;
      SameSubmission(s.log, s.log[i].key, s.log[i].task, k, task);
      FinishesListed(s.log, k, task);
      assert false;
    }
  }

  lemma CompleteMatches(s: State, d: nat, outcome: Outcome)
    requires d in s.drains && s.drains[d].phase.Running? && DrainMatches(s, s.drains[d])
    requires d in ApplyComplete(s, d, outcome).drains
    ensures DrainMatches(ApplyComplete(s, d, outcome), ApplyComplete(s, d, outcome).drains[d])
  {
    var k, task := s.drains[d].key, s.drains[d].phase.task;
    HistoryAppend(s.log, Finished(k, task, outcome), k);
    var q := Queue(s, k);
    assert q == [task] + q[1..];
  }

  lemma CompleteKeepsKeys(s: State, d: nat, outcome: Outcome)
    requires DrainsOk(s) && KeysOk(s) && d in s.drains && s.drains[d].phase.Running?
    requires d in ApplyComplete(s, d, outcome).drains
    ensures DrainsOk(ApplyComplete(s, d, outcome)) && KeysOk(ApplyComplete(s, d, outcome))
  {
    assert DrainMatches(s, s.drains[d]);
    CompleteMatches(s, d, outcome);
    KeyStaysLive(s, ApplyComplete(s, d, outcome), s.drains[d].key, d);
  }

  lemma OutcomeRecorded(log: seq<Event>, futures: seq<Option<Outcome>>, e: Event)
    requires FuturesInRange(log, |futures|) && OutcomesRecorded(log, futures) && ResolvedFinished(log, futures)
    requires e.Finished? && e.task.future < |futures| && futures[e.task.future] == None
    ensures FuturesInRange(log + [e], |futures|)
    ensures OutcomesRecorded(log + [e], futures[e.task.future := Some(e.outcome)])
    ensures ResolvedFinished(log + [e], futures[e.task.future := Some(e.outcome)])
  {
    var after := futures[e.task.future := Some(e.outcome)];
    assert (log + [e])[|log|] == e;
    forall f | 0 <= f < |after| && after[f].Some?
      ensures FinishedIn(log + [e], f)
    {
      if f != e.task.future {
        FinishedInGrows(log, e, f);
      }
    }
  }

  lemma CompleteKeepsFutures(s: State, d: nat, outcome: Outcome)
    requires FuturesOk(s) && d in s.drains && s.drains[d].phase.Running? && DrainMatches(s, s.drains[d])
    ensures d in ApplyComplete(s, d, outcome).drains
    ensures FuturesOk(ApplyComplete(s, d, outcome))
  {
    var e := Finished(s.drains[d].key, s.drains[d].phase.task, outcome);
    RunningUnresolved(s, d);
    AnnouncedAppend(s.log, e);
    StartedOnceAppend(s.log, e);
    OutcomeRecorded(s.log, s.futures, e);
  }

  lemma PopKeeps(s: State, d: nat)
    requires Inv(s) && d in s.drains && s.drains[d].phase.Resolved?
    ensures Inv(ApplyPop(s, d))
  {
    var t, k := ApplyPop(s, d), s.drains[d].key;
    assert DrainMatches(s, s.drains[d]);
    if |s.queues[k]| == 1 {
      KeyRetires(s, t, k);
    } else {
      assert DrainMatches(t, t.drains[d]);
      KeyStaysLive(s, t, k, d);
    }
  }

  /** Every atomic step of every interleaving keeps the invariant. */
  lemma StepKeeps(workers: nat, s: State, step: Step)
    requires Inv(s) && Enabled(workers, s, step)
    ensures Inv(Apply(workers, s, step))
  {
    match step
    case Submit(k, call) =>
      SubmitKeepsKeys(s, k, call);
      SubmitKeepsFutures(s, k, call);
    case Begin(d) =>
      assert DrainMatches(s, s.drains[d]);
      PhaseKeeps(s, d, AtTop);
    case Peek(d) =>
      assert DrainMatches(s, s.drains[d]);
      PhaseKeeps(s, d, Peeked(s.queues[s.drains[d].key][0]));
    case Start(d) =>
      assert DrainMatches(s, s.drains[d]);
      StartKeepsKeys(s, d);
      StartKeepsFutures(s, d);
    case Complete(d, outcome) =>
      assert DrainMatches(s, s.drains[d]);
      CompleteKeepsFutures(s, d, outcome);
      CompleteKeepsKeys(s, d, outcome);
    case Pop(d) => PopKeeps(s, d);
  }

  lemma {:induction false} RunKeeps(workers: nat, s: State, steps: seq<Step>)
    requires Inv(s) && Executes(workers, s, steps)
    ensures Inv(Run(workers, s, steps))
    decreases |steps|
  {
    if steps != [] {
      StepKeeps(workers, s, steps[0]);
      RunKeeps(workers, Apply(workers, s, steps[0]), steps[1..]);
    }
  }

  // ---------------------------------------------------------------- main results

  /** In every interleaving the calls of one key start in submission order, each at most once
      and never two at a time: the calls that finished are a prefix of those that started,
      which are a prefix of those submitted, and at most one call is between its start and its
      finish. */
  lemma KeyOrderTheorem(workers: nat, steps: seq<Step>, k: string)
    requires Executes(workers, Empty, steps)
    ensures var log := Run(workers, Empty, steps).log;
      && Finishes(log, k) <= Starts(log, k) <= Submits(log, k)
      && |Starts(log, k)| <= |Finishes(log, k)| + 1
      && Distinct(Submits(log, k))
      && StartedOnce(log)
  {
    EmptyInv();
    RunKeeps(workers, Empty, steps);
    KeyOrder(Run(workers, Empty, steps), k);
  }

  lemma KeyOrder(s: State, k: string)
    requires Inv(s)
    ensures Finishes(s.log, k) <= Starts(s.log, k) <= Submits(s.log, k)
    ensures |Starts(s.log, k)| <= |Finishes(s.log, k)| + 1
    ensures Distinct(Submits(s.log, k))
  {
    SubmitsDistinct(s.log, k);
    assert k !in s.queues ==> KeyIdle(s, k);
    if k in s.queues {
      assert HasDrain(s, k);
      var d :| d in s.drains && s.drains[d].key == k;
      DrainOrder(s, s.drains[d]);
    }
  }

  lemma DrainOrder(s: State, d: Drain)
    requires DrainMatches(s, d)
    ensures Finishes(s.log, d.key) <= Starts(s.log, d.key) <= Submits(s.log, d.key)
    ensures |Starts(s.log, d.key)| <= |Finishes(s.log, d.key)| + 1
  {
  }

  lemma EmptyInv()
    ensures Inv(Empty)
  {
  }

  /** A future holds exactly the outcome of its own call: it is resolved when, and only when,
      the call submitted with it has finished, and with that call's outcome. */
  lemma OwnFutureTheorem(workers: nat, steps: seq<Step>, f: nat, o: Outcome)
    requires Executes(workers, Empty, steps)
    requires f < |Run(workers, Empty, steps).futures|
    ensures var s := Run(workers, Empty, steps);
      s.futures[f] == Some(o) <==>
      exists i :: 0 <= i < |s.log| && s.log[i].Finished? && s.log[i].task.future == f && s.log[i].outcome == o
  {
    EmptyInv();
    RunKeeps(workers, Empty, steps);
    var s := Run(workers, Empty, steps);
    if s.futures[f].Some? {
      assert FinishedIn(s.log, f);
    }
  }

  /** Whenever the lock is free, a key is in the dictionary exactly when its queue is non-empty,
      exactly when one drain is scheduled or running for it; so a submitted call whose future is
      open still has a drain coming for it. */
  lemma NoTaskStranded(workers: nat, steps: seq<Step>, k: string, task: Task)
    requires Executes(workers, Empty, steps)
    ensures var s := Run(workers, Empty, steps);
      && (k in s.queues <==> Queue(s, k) != [])
      && (k in s.queues <==> HasDrain(s, k))
      && (forall d, e :: d in s.drains && e in s.drains && s.drains[d].key == s.drains[e].key == k ==> d == e)
      && (Submitted(k, task) in s.log ==> task.future < |s.futures|)
      && (Submitted(k, task) in s.log && s.futures[task.future] == None ==> task in Queue(s, k))
  {
    EmptyInv();
    RunKeeps(workers, Empty, steps);
    var s := Run(workers, Empty, steps);
    if d :| d in s.drains && s.drains[d].key == k {
      assert DrainMatches(s, s.drains[d]);
    }
    if k in s.queues {
      assert HasDrain(s, k);
    }
    if Submitted(k, task) in s.log && s.futures[task.future] == None {
      OpenTaskQueued(s, k, task);
    }
  }

  lemma OpenTaskQueued(s: State, k: string, task: Task)
    requires Inv(s) && Submitted(k, task) in s.log
    requires task.future < |s.futures| && s.futures[task.future] == None
    ensures task in Queue(s, k)
  {
    SubmitsListed(s.log, k, task);
    FinishesListed(s.log, k, task);
    assert task !in Finishes(s.log, k);
    assert k !in s.queues ==> KeyIdle(s, k);
    assert HasDrain(s, k);
    var d :| d in s.drains && s.drains[d].key == k;
    assert DrainMatches(s, s.drains[d]);
    assert task in Unfinished(Queue(s, k), s.drains[d].phase);
  }

  // ---------------------------------------------------------------- progress

  ghost function Open(futures: seq<Option<Outcome>>): nat {
    if futures == [] then 0
    else Open(futures[..|futures| - 1]) + if futures[|futures| - 1].None? then 1 else 0
  }

  ghost function Rank(phase: Phase): nat {
    match phase
    case Scheduled => 4
    case AtTop => 3
    case Peeked(_) => 2
    case Running(_) => 1
    case Resolved(_) => 4
  }

  ghost function RankSum(drains: map<nat, Drain>, n: nat): nat {
    if n == 0 then 0
    else RankSum(drains, n - 1) + if n - 1 in drains then Rank(drains[n - 1].phase) else 0
  }

  /** An upper bound on the drain steps still to come when nothing more is submitted. */
  ghost function Work(s: State): nat {
    5 * Open(s.futures) + RankSum(s.drains, s.nextDrain)
  }

  lemma ResolveOne(futures: seq<Option<Outcome>>, f: nat, o: Outcome)
    requires f < |futures| && futures[f].None?
    ensures Open(futures[f := Some(o)]) + 1 == Open(futures)
  {
    var n := |futures| - 1;
    if f < n {
      ResolveOne(futures[..n], f, o);
      assert futures[f := Some(o)][..n] == futures[..n][f := Some(o)];
    } else {
      assert futures[f := Some(o)][..n] == futures[..n];
    }
  }

  lemma RankSumChange(drains: map<nat, Drain>, after: map<nat, Drain>, d: nat, n: nat)
    requires d in drains
    requires forall e :: e != d ==> (e in drains <==> e in after) && (e in drains ==> after[e] == drains[e])
    ensures RankSum(after, n) == RankSum(drains, n)
      + if d < n then (if d in after then Rank(after[d].phase) else 0) - Rank(drains[d].phase) else 0
  {
    if n > 0 {
      RankSumChange(drains, after, d, n - 1);
    }
  }

  lemma PhaseDrops(s: State, d: nat, phase: Phase)
    requires d in s.drains && d < s.nextDrain && Rank(phase) < Rank(s.drains[d].phase)
    ensures Work(SetPhase(s, d, phase)) < Work(s)
  {
    RankSumChange(s.drains, SetPhase(s, d, phase).drains, d, s.nextDrain);
  }

  lemma PopDrops(s: State, d: nat)
    requires d in s.drains && d < s.nextDrain && s.drains[d].phase.Resolved?
    ensures Work(ApplyPop(s, d)) < Work(s)
  {
    RankSumChange(s.drains, ApplyPop(s, d).drains, d, s.nextDrain);
  }

  lemma CompletionPays(s: State, d: nat, outcome: Outcome)
    requires d in s.drains && d < s.nextDrain && s.drains[d].phase.Running?
    requires s.drains[d].phase.task.future < |s.futures| && s.futures[s.drains[d].phase.task.future] == None
    ensures Work(ApplyComplete(s, d, outcome)) < Work(s)
  {
    var t := ApplyComplete(s, d, outcome);
    RankSumChange(s.drains, t.drains, d, s.nextDrain);
    ResolveOne(s.futures, s.drains[d].phase.task.future, outcome);
  }

  /** Each drain step uses up work. */
  lemma DrainStepProgress(workers: nat, s: State, step: Step)
    requires Inv(s) && Enabled(workers, s, step) && !step.Submit?
    ensures Work(Apply(workers, s, step)) < Work(s)
  {
    assert DrainMatches(s, s.drains[step.drain]);
    match step
    case Begin(d) => PhaseDrops(s, d, AtTop);
    case Peek(d) => PhaseDrops(s, d, Peeked(s.queues[s.drains[d].key][0]));
    case Start(d) => PhaseDrops(s, d, Running(s.drains[d].phase.task));
    case Complete(d, outcome) =>
      RunningUnresolved(s, d);
      CompletionPays(s, d, outcome);
    case Pop(d) => PopDrops(s, d);
  }

  ghost predicate DrainSteps(steps: seq<Step>) {
    forall i :: 0 <= i < |steps| ==> !steps[i].Submit?
  }

  /** Once submissions stop, every interleaving of the drains is finite. */
  lemma {:induction false} DrainsTerminate(workers: nat, s: State, steps: seq<Step>)
    requires Inv(s) && Executes(workers, s, steps) && DrainSteps(steps)
    ensures |steps| + Work(Run(workers, s, steps)) <= Work(s)
    decreases |steps|
  {
    if steps != [] {
      StepKeeps(workers, s, steps[0]);
      DrainStepProgress(workers, s, steps[0]);
      DrainsTerminate(workers, Apply(workers, s, steps[0]), steps[1..]);
    }
  }

  ghost predicate Stuck(workers: nat, s: State) {
    forall step: Step :: Enabled(workers, s, step) ==> step.Submit?
  }

  /** The step that a live drain on a pool thread can take. */
  ghost function NextOf(s: State, d: nat): Step
    requires d in s.drains && !s.drains[d].phase.Scheduled?
  {
    match s.drains[d].phase
    case AtTop => Peek(d)
    case Peeked(_) => Start(d)
    case Running(_) => Complete(d, Returned(0))
    case Resolved(_) => Pop(d)
  }

  /** With at least one pool thread, drains come to rest only when every queue is gone and every
      future handed out is resolved. */
  lemma RestMeansResolved(workers: nat, s: State)
    requires workers >= 1 && Inv(s) && Stuck(workers, s)
    ensures s.queues == map[] && s.drains == map[]
    ensures forall k, task :: Submitted(k, task) in s.log ==> s.futures[task.future].Some?
  {
    if b :| b in Busy(s) {
      assert Enabled(workers, s, NextOf(s, b));
      assert false;
    }
    assert Busy(s) == {};
    if d :| d in s.drains {
      assert d !in Busy(s);
      assert Enabled(workers, s, Begin(d));
      assert false;
    }
    assert forall k :: k in s.queues ==> HasDrain(s, k);
    forall k, task | Submitted(k, task) in s.log
      ensures s.futures[task.future].Some?
    {
      if s.futures[task.future].None? {
        OpenTaskQueued(s, k, task);
        assert false;
      }
    }
  }

  // ---------------------------------------------------------------- the executor object

  class KeyedSerialExecutor {
    var queues: map<string, seq<Task>>
    var drains: map<nat, Drain>
    var nextDrain: nat
    var futures: seq<Option<Outcome>>
    ghost var log: seq<Event>

    ghost function Abs(): State
      reads this
    {
      State(queues, drains, nextDrain, futures, log)
    }

    constructor ()
      ensures Abs() == Empty
    {
      queues, drains, nextDrain, futures, log := map[], map[], 0, [], [];
    }

    /** Hands out a fresh future; schedules a drain when the queue was empty. */
    method Submit(key: string, call: nat) returns (result: nat)
      modifies this
      ensures Abs() == ApplySubmit(old(Abs()), key, call)
      ensures result == |old(futures)| && futures[result] == None
    {
      result := |futures|;
      futures := futures + [None];
      var queue := if key in queues then queues[key] else [];
      queue := queue + [Task(result, call)];
      queues := queues[key := queue];
      log := log + [Submitted(key, Task(result, call))];
      if |queue| == 1 {
        drains := drains[nextDrain := Drain(key, Scheduled)];
        nextDrain := nextDrain + 1;
      }
    }

    /** First locked section of a drain's loop. */
    method PeekHead(d: nat) returns (ended: bool)
      requires d in drains && drains[d].phase.AtTop?
      modifies this
      ensures Abs() == ApplyPeek(old(Abs()), d)
      ensures ended <==> d !in drains
      ensures !ended ==> drains[d].phase.Peeked?
    {
      var key := drains[d].key;
      var queue := if key in queues then queues[key] else [];
      ended := queue == [];
      if ended {
        queues := queues - {key};
        drains := drains - {d};
      } else {
        drains := drains[d := Drain(key, Peeked(queue[0]))];
      }
    }

    /** Runs the peeked call and resolves its future, outside the lock. */
    method RunHead(d: nat, outcome: Outcome) returns (died: bool)
      requires d in drains && drains[d].phase.Peeked?
      modifies this
      ensures Abs() == ApplyComplete(ApplyStart(old(Abs()), d), d, outcome)
      ensures died <==> d !in drains
      ensures !died ==> drains[d].phase.Resolved?
    {
      var key, task := drains[d].key, drains[d].phase.task;
      log := log + [Started(key, task)];
      if task.future >= |futures| || futures[task.future].Some? {
        drains := drains - {d};
        died := true;
      } else {
        futures := futures[task.future := Some(outcome)];
        log := log + [Finished(key, task, outcome)];
        drains := drains[d := Drain(key, Resolved(task))];
        died := false;
      }
    }

    /** Second locked section of a drain's loop. */
    method PopHead(d: nat) returns (ended: bool)
      requires d in drains && drains[d].phase.Resolved?
      modifies this
      ensures Abs() == ApplyPop(old(Abs()), d)
      ensures ended <==> d !in drains
      ensures !ended ==> drains[d].phase.AtTop?
    {
      var key := drains[d].key;
      var queue := if key in queues then queues[key] else [];
      ended := false;
      if queue != [] {
        queue := queue[1..];
        if queue == [] {
          queues := queues - {key};
          drains := drains - {d};
          ended := true;
        } else {
          queues := queues[key := queue];
        }
      }
      if !ended {
        drains := drains[d := Drain(key, AtTop)];
      }
    }

    /** The whole loop of one drain, when nobody else steps in between: it empties its queue and
        resolves every queued future with the outcome of its own call. */
    method DrainAlone(d: nat, outcomeOf: nat -> Outcome)
      requires Inv(Abs()) && d in drains && drains[d].phase.AtTop?
      modifies this
      ensures d !in drains && old(drains[d].key) !in queues
      ensures ResolvedAs(old(Queue(Abs(), drains[d].key)), futures, outcomeOf)
    {
      ghost var key := drains[d].key;
      ghost var all := Queue(Abs(), key);
      QueueIsOpen(Abs(), d);
      DrainLoop(d, key, all, outcomeOf);
    }

    method DrainLoop(d: nat, ghost key: string, ghost all: seq<Task>, outcomeOf: nat -> Outcome)
      requires d in drains && drains[d] == Drain(key, AtTop) && key in queues && queues[key] == all
      requires OpenAndDistinct(all, futures)
      modifies this
      ensures d !in drains && key !in queues
      ensures ResolvedAs(all, futures, outcomeOf)
    {
      ghost var n := 0;
      while true
        invariant 0 <= n < |all| && d in drains && drains[d] == Drain(key, AtTop)
        invariant key in queues && queues[key] == all[n..]
        invariant OpenAndDistinct(all[n..], futures) && ResolvedAs(all[..n], futures, outcomeOf)
        decreases |all| - n
      {
        ghost var was := futures;
        var ended := PeekHead(d);
        assert drains[d].phase.task == all[n..][0] == all[n];
        var call := drains[d].phase.task.call;
        var died := RunHead(d, outcomeOf(call));
        assert futures == was[all[n].future := Some(outcomeOf(all[n].call))];
        ended := PopHead(d);
        ResolveNext(all, n, was, outcomeOf);
        n := n + 1;
        if ended {
          assert all[..n] == all;
          return;
        }
      }
    }
  }

  /** The listed calls have their futures resolved with their own outcomes. */
  ghost predicate ResolvedAs(tasks: seq<Task>, futures: seq<Option<Outcome>>, outcomeOf: nat -> Outcome) {
    forall i :: 0 <= i < |tasks| ==>
      tasks[i].future < |futures| && futures[tasks[i].future] == Some(outcomeOf(tasks[i].call))
  }

  /** The listed calls have open futures, each its own. */
  ghost predicate OpenAndDistinct(tasks: seq<Task>, futures: seq<Option<Outcome>>) {
    && tasks != []
    && (forall i :: 0 <= i < |tasks| ==> tasks[i].future < |futures| && futures[tasks[i].future] == None)
    && (forall i, j :: 0 <= i < j < |tasks| ==> tasks[i].future != tasks[j].future)
  }

  lemma ResolveNext(all: seq<Task>, n: nat, before: seq<Option<Outcome>>, outcomeOf: nat -> Outcome)
    requires n < |all| && ResolvedAs(all[..n], before, outcomeOf) && OpenAndDistinct(all[n..], before)
    ensures var after := before[all[n].future := Some(outcomeOf(all[n].call))];
      && ResolvedAs(all[..n + 1], after, outcomeOf)
      && (n + 1 < |all| ==> OpenAndDistinct(all[n + 1..], after))
  {
    assert all[n..][0] == all[n];
    assert forall i :: 0 <= i < n ==> all[..n][i] == all[..n + 1][i];
    assert all[n..] == [all[n]] + all[n + 1..];
  }

  /** What waits in a queue at the top of its drain's loop has open futures of its own. */
  lemma QueueIsOpen(s: State, d: nat)
    requires Inv(s) && d in s.drains && s.drains[d].phase.AtTop?
    ensures s.drains[d].key in s.queues
    ensures OpenAndDistinct(Queue(s, s.drains[d].key), s.futures)
  {
    var k := s.drains[d].key;
    var q, done := Queue(s, k), Finishes(s.log, k);
    assert DrainMatches(s, s.drains[d]);
    SubmitsDistinct(s.log, k);
    forall i | 0 <= i < |q|
      ensures q[i].future < |s.futures| && s.futures[q[i].future] == None && Submitted(k, q[i]) in s.log
    {
      QueuedIsOpen(s, k, q, i);
    }
    forall i, j | 0 <= i < j < |q|
      ensures q[i].future != q[j].future
    {
      assert Submits(s.log, k)[|done| + i] == q[i] && Submits(s.log, k)[|done| + j] == q[j];
      if q[i].future == q[j].future {
        SameSubmission(s.log, k, q[i], k, q[j]);
        assert false;
      }
    }
  }

  lemma QueuedIsOpen(s: State, k: string, q: seq<Task>, i: nat)
    requires FuturesOk(s) && i < |q| && Submits(s.log, k) == Finishes(s.log, k) + q
    ensures Submitted(k, q[i]) in s.log
    ensures q[i].future < |s.futures| && s.futures[q[i].future] == None
  {
    var done := Finishes(s.log, k);
    assert Submits(s.log, k)[|done| + i] == q[i];
    SubmitsListed(s.log, k, q[i]);
    SubmitsDistinct(s.log, k);
    assert forall j :: 0 <= j < |done| ==> Submits(s.log, k)[j] == done[j];
    if s.futures[q[i].future].Some? {
      assert FinishedIn(s.log, q[i].future);
      var e :| 0 <= e < |s.log| && s.log[e].Finished? && s.log[e].task.future == q[i].future;
      SameSubmission(s.log, s.log[e].key, s.log[e].task, k, q[i]);
      FinishesListed(s.log, k, q[i]);
      assert false;
    }
  }
}
