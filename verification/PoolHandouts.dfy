/**
 Which connections leak from the pool, and what a waiter is handed.
 */
module PoolHandouts {
  import opened Prelude
  import opened ConnectionPool

  // ---------------------------------------------------------------- leaks

  /** Obtained, not closed, and with nobody who could still use or close it. */
  ghost predicate Leaked(s: State, c: Conn) {
    && c in s.conns && c !in s.closed
    && (forall t :: t in s.tasks ==> Held(s.tasks[t].phase) != Some(c))
    && (forall a :: a in s.entries ==> s.entries[a].conn != c)
    && (forall k :: k in s.callers ==> s.callers[k].stale != Some(c))
    && (forall e :: e in s.evictors ==> c !in s.evictors[e])
  }

  lemma LeakedIsLost(s: State, c: Conn)
    requires OwnersOk(s)
    ensures Leaked(s, c) <==> c in s.lost
  {
    if Leaked(s, c) {
      assert Holds(s, c, s.owner[c]);
    }
    if c in s.lost {
      assert Holds(s, c, Lost);
      OnlyAt(s, c, Lost);
      assert !Holds(s, c, Closed);
      forall t | t in s.tasks
        ensures Held(s.tasks[t].phase) != Some(c)
      {
        assert !Holds(s, c, InTask(t));
      }
      forall a | a in s.entries
        ensures s.entries[a].conn != c
      {
        assert !Holds(s, c, InEntries(a));
      }
      forall k | k in s.callers
        ensures s.callers[k].stale != Some(c)
      {
        assert !Holds(s, c, InCaller(k));
      }
      forall e | e in s.evictors
        ensures c !in s.evictors[e]
      {
        assert !Holds(s, c, InEvictor(e));
      }
    }
  }

  /** Step `k` of the run is an eviction close that raises while `c` is queued behind it. */
  ghost predicate QueuedBehind(s: State, steps: seq<Step>, k: nat, c: Conn) {
    && k < |steps| && Executes(s, steps[..k])
    && steps[k].EvictClose? && steps[k].raises && Enabled(Run(s, steps[..k]), steps[k])
    && c in Run(s, steps[..k]).evictors[steps[k].evictor][1..]
  }

  lemma QueuedLater(s: State, steps: seq<Step>, k: nat, c: Conn)
    requires steps != [] && Enabled(s, steps[0])
    ensures QueuedBehind(Apply(s, steps[0]), steps[1..], k, c) <==> QueuedBehind(s, steps, k + 1, c)
  {
    if k + 1 < |steps| {
      assert steps[..k + 1][1..] == steps[1..][..k];
      assert steps[..k + 1][0] == steps[0];
    }
  }

  lemma {:induction false} DroppedWhenQueued(s: State, steps: seq<Step>, c: Conn)
    requires Executes(s, steps)
    ensures c in Dropped(s, steps) <==> exists k :: QueuedBehind(s, steps, k, c)
    decreases |steps|
  {
    if steps != [] {
      var n, rest := Apply(s, steps[0]), steps[1..];
      DroppedWhenQueued(n, rest, c);
      assert c in DroppedBy(s, steps[0]) <==> QueuedBehind(s, steps, 0, c);
      if k: nat :| QueuedBehind(n, rest, k, c) {
        QueuedLater(s, steps, k, c);
      }
      if k: nat :| QueuedBehind(s, steps, k, c) && k > 0 {
        QueuedLater(s, steps, k - 1, c);
      }
    }
  }

  /** A connection leaks exactly when, at some step of the run, an exception from `close` ended an
      eviction loop that had it queued behind. */
  lemma LeaksExactly(steps: seq<Step>, c: Conn)
    requires Executes(Empty, steps)
    ensures Leaked(Run(Empty, steps), c) <==> exists k :: QueuedBehind(Empty, steps, k, c)
  {
    EmptyInv();
    RunKeeps(Empty, steps);
    RunLoses(Empty, steps);
    LeakedIsLost(Run(Empty, steps), c);
    DroppedWhenQueued(Empty, steps, c);
  }

  // ---------------------------------------------------------------- particular runs

  lemma Runs(s: State, step: Step, rest: seq<Step>)
    requires Enabled(s, step) && Executes(Apply(s, step), rest)
    ensures Executes(s, [step] + rest) && Run(s, [step] + rest) == Run(Apply(s, step), rest)
  {
    assert ([step] + rest)[1..] == rest;
  }

  lemma RunsTwo(s: State, a: Step, b: Step)
    requires Enabled(s, a) && Enabled(Apply(s, a), b)
    ensures Executes(s, [a, b]) && Run(s, [a, b]) == Apply(Apply(s, a), b)
  {
    var s2 := Apply(Apply(s, a), b);
    assert Executes(s2, []) && Run(s2, []) == s2;
    Runs(Apply(s, a), b, []);
    Runs(s, a, [b] + []);
    assert [a, b] == [a] + ([b] + []);
  }

  lemma {:induction false} RunsConcat(s: State, p: seq<Step>, q: seq<Step>)
    requires Executes(s, p) && Executes(Run(s, p), q)
    ensures Executes(s, p + q) && Run(s, p + q) == Run(Run(s, p), q)
    decreases |p|
  {
    if p == [] {
      assert p + q == q;
    } else {
      RunsConcat(Apply(s, p[0]), p[1..], q);
      assert (p + q)[1..] == p[1..] + q;
    }
  }

  /** An `acquire` of a cold account, up to the end of its open task. */
  ghost function OpenSteps(n: nat, a: Account): seq<Step> {
    [Acquire(a, true, 0), Fetched(n, true)] + [Connected(n, true), Synced(n, true, 0)]
  }

  ghost function Opened(s: State, a: Account): State {
    var n := s.next;
    s.(entries := s.entries[a := Entry(n + 2, 0)],
       tasks := s.tasks[n := Task(a, Finished(Some(n + 2)))],
       callers := s.callers[n + 1 := Caller(a, None, n)],
       conns := s.conns[n + 2 := a],
       owner := s.owner[n + 2 := InEntries(a)],
       next := n + 3)
  }

  ghost function Asked(s: State, a: Account): State {
    var n := s.next;
    s.(tasks := s.tasks[n := Task(a, Fetching)], opening := s.opening[a := n],
       callers := s.callers[n + 1 := Caller(a, None, n)], next := n + 2)
  }

  ghost function Answered(s: State, a: Account): State {
    var n := s.next;
    s.(tasks := s.tasks[n := Task(a, Connecting(n + 2))], opening := s.opening[a := n],
       callers := s.callers[n + 1 := Caller(a, None, n)],
       conns := s.conns[n + 2 := a], owner := s.owner[n + 2 := InTask(n)], next := n + 3)
  }

  lemma AskSteps(s: State, a: Account)
    requires a !in s.entries && a !in s.opening
    ensures Apply(s, Acquire(a, true, 0)) == Asked(s, a)
    ensures Enabled(Asked(s, a), Fetched(s.next, true)) && Apply(Asked(s, a), Fetched(s.next, true)) == Answered(s, a)
  {
    var n := s.next;
    assert Asked(s, a).tasks[n := Task(a, Connecting(n + 2))] == s.tasks[n := Task(a, Connecting(n + 2))];
  }

  lemma OpenedState(s: State, a: Account)
    requires a !in s.opening
    ensures var t := Answered(s, a);
            t.(entries := t.entries[a := Entry(s.next + 2, 0)], owner := t.owner[s.next + 2 := InEntries(a)],
               opening := t.opening - {a}, tasks := t.tasks[s.next := Task(a, Finished(Some(s.next + 2)))])
            == Opened(s, a)
  {
    var t, n := Answered(s, a), s.next;
    assert t.opening - {a} == s.opening;
    assert t.tasks[n := Task(a, Finished(Some(n + 2)))] == s.tasks[n := Task(a, Finished(Some(n + 2)))];
    assert t.owner[n + 2 := InEntries(a)] == s.owner[n + 2 := InEntries(a)];
  }

  lemma OpenRuns(s: State, a: Account)
    requires a !in s.entries && a !in s.opening
    ensures Executes(s, OpenSteps(s.next, a)) && Run(s, OpenSteps(s.next, a)) == Opened(s, a)
  {
    AskSteps(s, a);
    RunsTwo(s, Acquire(a, true, 0), Fetched(s.next, true));
    OpenEnds(Answered(s, a), a, s.next, s.next + 2);
    RunsConcat(s, [Acquire(a, true, 0), Fetched(s.next, true)], [Connected(s.next, true), Synced(s.next, true, 0)]);
    OpenedState(s, a);
  }

  lemma OpenEnds(s: State, a: Account, n: nat, c: Conn)
    requires n in s.tasks && s.tasks[n] == Task(a, Connecting(c))
    ensures Executes(s, [Connected(n, true), Synced(n, true, 0)])
    ensures Run(s, [Connected(n, true), Synced(n, true, 0)]) ==
            s.(entries := s.entries[a := Entry(c, 0)], owner := s.owner[c := InEntries(a)],
               opening := s.opening - {a}, tasks := s.tasks[n := Task(a, Finished(Some(c)))])
  {
    RunsTwo(s, Connected(n, true), Synced(n, true, 0));
    var s1 := Apply(s, Connected(n, true));
    assert s1.tasks[n := Task(a, Finished(Some(c)))] == s.tasks[n := Task(a, Finished(Some(c)))];
  }

  ghost predicate LeakingRun(steps: seq<Step>, c: Conn) {
    Executes(Empty, steps) && Leaked(Run(Empty, steps), c)
  }

  lemma EvictPair(s: State, a: Account, b: Account, x: Conn, y: Conn)
    requires a != b && s.entries == map[a := Entry(x, 0), b := Entry(y, 0)]
    ensures Executes(s, [EvictIdle(1, [a, b]), EvictClose(s.next, true)])
    ensures y in Run(s, [EvictIdle(1, [a, b]), EvictClose(s.next, true)]).lost
  {
    assert Enabled(s, EvictIdle(1, [a, b]));
    var s1 := Apply(s, EvictIdle(1, [a, b]));
    assert s1.evictors[s.next] == ConnsOf(s, [a, b]) == [x, y];
    RunsTwo(s, EvictIdle(1, [a, b]), EvictClose(s.next, true));
    assert [x, y][1..] == [y];
    assert y in [y];
  }

  lemma OpenTwo(a: Account, b: Account)
    requires a != b
    ensures Executes(Empty, OpenSteps(0, a) + OpenSteps(3, b))
    ensures Run(Empty, OpenSteps(0, a) + OpenSteps(3, b)) == Opened(Opened(Empty, a), b)
  {
    OpenRuns(Empty, a);
    var s1 := Opened(Empty, a);
    assert s1.next == 3 && b !in s1.entries && b !in s1.opening;
    OpenRuns(s1, b);
    RunsConcat(Empty, OpenSteps(0, a), OpenSteps(3, b));
  }

  /** Two idle connections, and the close of the first raises: the second leaks. */
  lemma LeakHappens(a: Account, b: Account)
    requires a != b
    ensures exists steps, c :: LeakingRun(steps, c)
  {
    OpenTwo(a, b);
    var opens := OpenSteps(0, a) + OpenSteps(3, b);
    var s := Opened(Opened(Empty, a), b);
    assert s.entries == map[a := Entry(2, 0), b := Entry(5, 0)] && s.next == 6;
    EvictPair(s, a, b, 2, 5);
    var last := [EvictIdle(1, [a, b]), EvictClose(6, true)];
    RunsConcat(Empty, opens, last);
    EmptyInv();
    RunKeeps(Empty, opens + last);
    LeakedIsLost(Run(Empty, opens + last), 5);
    assert LeakingRun(opens + last, 5);
  }

  // ---------------------------------------------------------------- what a waiter is handed

  /** The connection left its open task. */
  ghost predicate LeftTask(s: State, x: Conn) {
    x in s.owner && !s.owner[x].InTask?
  }

  ghost predicate ResultsOut(s: State) {
    forall t :: t in s.tasks && Result(s.tasks[t].phase).Some? ==> LeftTask(s, Result(s.tasks[t].phase).value)
  }

  lemma OwnedIsKnown(s: State, x: Conn)
    requires Inv(s) && x in s.owner
    ensures x < s.next
  {
    assert x in s.conns;
  }

  /** The owner of a connection moves on, and never to an open task or into the entries, except that a
      synchronized connection becomes an entry. */
  ghost predicate MovesOn(s: State, step: Step, x: Conn, before: Owner, after: Owner)
    requires Enabled(s, step)
  {
    || after == before
    || after.InCaller? || after.InEvictor? || after.Closed? || after.Lost?
    || (step.Synced? && s.tasks[step.task].phase.conn == x && after.InEntries?)
  }

  lemma JoinFields(s: State, a: Account)
    ensures JoinOrOpen(s, a).tasks == if a in s.opening then s.tasks else s.tasks[s.next := Task(a, Fetching)]
    ensures JoinOrOpen(s, a).entries == s.entries - {a}
    ensures JoinOrOpen(s, a).owner == if a in s.entries then s.owner[s.entries[a].conn := InCaller(Register(s, a).next)] else s.owner
  {
    var r := Register(s, a);
    assert r.owner == s.owner && r.entries == s.entries;
    assert TakeEntry(r, a).tasks == r.tasks;
  }

  lemma EvictOwner(s: State, step: Step, x: Conn)
    requires Enabled(s, step) && (step.EvictIdle? || step.EvictClose?) && x in s.owner
    ensures x in Apply(s, step).owner && MovesOn(s, step, x, s.owner[x], Apply(s, step).owner[x])
  {
  }

  lemma TaskOwner(s: State, step: Step, x: Conn)
    requires Enabled(s, step) && (step.Fetched? || step.Connected? || step.Synced? || step.CloseFailed?)
    requires x in s.owner && x < s.next
    ensures x in Apply(s, step).owner && MovesOn(s, step, x, s.owner[x], Apply(s, step).owner[x])
  {
  }

  lemma OwnerMovesOn(s: State, step: Step, x: Conn)
    requires Enabled(s, step) && x in s.owner && x < s.next
    ensures x in Apply(s, step).owner && MovesOn(s, step, x, s.owner[x], Apply(s, step).owner[x])
  {
    if step.Acquire? {
      JoinFields(s, step.account);
    } else if step.EvictIdle? || step.EvictClose? {
      EvictOwner(s, step, x);
    } else if !step.CloseStale? && !step.Resume? {
      TaskOwner(s, step, x);
    }
  }

  lemma StepResults(s: State, step: Step)
    requires Inv(s) && ResultsOut(s) && Enabled(s, step)
    ensures ResultsOut(Apply(s, step))
  {
    var n := Apply(s, step);
    forall t | t in n.tasks && Result(n.tasks[t].phase).Some?
      ensures LeftTask(n, Result(n.tasks[t].phase).value)
    {
      if step.Synced? && step.ok && step.task == t {
        assert n.owner[Result(n.tasks[t].phase).value] == InEntries(s.tasks[t].account);
      } else {
        if step.Acquire? {
          AcquireResults(s, step.account, step.healthy, step.now, t);
        } else {
          OldResult(s, step, t);
        }
        OwnedIsKnown(s, Result(n.tasks[t].phase).value);
        OwnerMovesOn(s, step, Result(n.tasks[t].phase).value);
      }
    }
  }

  lemma AcquireResults(s: State, a: Account, healthy: bool, now: int, t: nat)
    requires t in ApplyAcquire(s, a, healthy, now).tasks && Result(ApplyAcquire(s, a, healthy, now).tasks[t].phase).Some?
    ensures t in s.tasks && s.tasks[t] == ApplyAcquire(s, a, healthy, now).tasks[t]
  {
    JoinFields(s, a);
  }

  lemma TaskResult(s: State, step: Step, t: nat)
    requires Enabled(s, step) && (step.Fetched? || step.Connected? || step.Synced? || step.CloseFailed?)
    requires t in Apply(s, step).tasks && Result(Apply(s, step).tasks[t].phase).Some? && !(step.Synced? && step.ok && step.task == t)
    ensures t in s.tasks && Result(s.tasks[t].phase) == Result(Apply(s, step).tasks[t].phase)
  {
  }

  lemma OldResult(s: State, step: Step, t: nat)
    requires Enabled(s, step) && !step.Acquire? && t in Apply(s, step).tasks && Result(Apply(s, step).tasks[t].phase).Some?
    requires !(step.Synced? && step.ok && step.task == t)
    ensures t in s.tasks && Result(s.tasks[t].phase) == Result(Apply(s, step).tasks[t].phase)
  {
    if step.Fetched? || step.Connected? || step.Synced? || step.CloseFailed? {
      TaskResult(s, step, t);
    }
  }

  lemma {:induction false} RunResults(s: State, steps: seq<Step>)
    requires Inv(s) && ResultsOut(s) && Executes(s, steps)
    ensures Inv(Run(s, steps)) && ResultsOut(Run(s, steps))
    decreases |steps|
  {
    if steps != [] {
      StepKeeps(s, steps[0]);
      StepResults(s, steps[0]);
      RunResults(Apply(s, steps[0]), steps[1..]);
    }
  }

  /** Closed, about to be closed by somebody, or leaked. */
  ghost predicate Doomed(s: State, x: Conn) {
    || x in s.closed
    || (exists k :: k in s.callers && s.callers[k].stale == Some(x))
    || (exists e :: e in s.evictors && x in s.evictors[e])
    || Leaked(s, x)
  }

  ghost predicate IsEntry(s: State, a: Account, x: Conn) {
    a in s.entries && s.entries[a].conn == x
  }

  lemma DoomedExactly(s: State, a: Account, x: Conn)
    requires Inv(s) && LeftTask(s, x) && x in s.conns && s.conns[x] == a
    ensures Doomed(s, x) <==> !IsEntry(s, a, x)
  {
    var o := s.owner[x];
    assert Holds(s, x, o);
    OnlyAt(s, x, o);
    LeakedIsLost(s, x);
    if IsEntry(s, a, x) {
      assert Holds(s, x, InEntries(a));
      assert !Holds(s, x, Closed) && !Holds(s, x, Lost);
      forall k | k in s.callers
        ensures s.callers[k].stale != Some(x)
      {
        assert !Holds(s, x, InCaller(k));
      }
      forall e | e in s.evictors
        ensures x !in s.evictors[e]
      {
        assert !Holds(s, x, InEvictor(e));
      }
    } else {
      match o {
        case InCaller(k) => assert s.callers[k].stale == Some(x);
        case InEvictor(e) => assert x in s.evictors[e];
        case _ =>
      }
    }
  }

  /** In every interleaving the connection that a waiter is about to be handed is closed, being closed
      or leaked exactly when it is no longer the entry of the account. */
  lemma HandedOutExactly(steps: seq<Step>, k: nat, x: Conn)
    requires Executes(Empty, steps) && Enabled(Run(Empty, steps), Resume(k))
    requires Run(Empty, steps).tasks[Run(Empty, steps).callers[k].task].phase == Finished(Some(x))
    ensures Doomed(Run(Empty, steps), x) <==> !IsEntry(Run(Empty, steps), Run(Empty, steps).callers[k].account, x)
  {
    EmptyInv();
    RunResults(Empty, steps);
    var s := Run(Empty, steps);
    var t := s.tasks[s.callers[k].task];
    assert TaskConnOk(s, t);
    assert Result(t.phase) == Some(x);
    DoomedExactly(s, t.account, x);
  }

  /** The step takes the account's entry out of the pool. */
  predicate TakesOut(step: Step, a: Account) {
    (step.Acquire? && step.account == a && !step.healthy) || (step.EvictIdle? && a in step.victims)
  }

  /** Out of its task and out of the entries. */
  ghost predicate OutOfPool(s: State, x: Conn) {
    LeftTask(s, x) && !s.owner[x].InEntries?
  }

  lemma SyncedIsHeld(s: State, step: Step, x: Conn)
    requires Inv(s) && Enabled(s, step) && step.Synced? && LeftTask(s, x)
    ensures s.tasks[step.task].phase.conn != x
  {
    assert Holds(s, s.tasks[step.task].phase.conn, InTask(step.task));
  }

  lemma {:induction false} TakenStaysOutRun(s: State, steps: seq<Step>, x: Conn)
    requires Inv(s) && Executes(s, steps) && OutOfPool(s, x)
    ensures Inv(Run(s, steps)) && OutOfPool(Run(s, steps), x)
    decreases |steps|
  {
    if steps != [] {
      StepKeeps(s, steps[0]);
      OwnedIsKnown(s, x);
      if steps[0].Synced? {
        SyncedIsHeld(s, steps[0], x);
      }
      OwnerMovesOn(s, steps[0], x);
      TakenStaysOutRun(Apply(s, steps[0]), steps[1..], x);
    }
  }

  lemma EvictTakes(s: State, cutoff: int, victims: seq<Account>, a: Account)
    requires Enabled(s, EvictIdle(cutoff, victims)) && a in victims && s.entries[a].conn in s.owner
    ensures OutOfPool(ApplyEvictIdle(s, victims), s.entries[a].conn)
  {
    var i :| 0 <= i < |victims| && victims[i] == a;
    assert ConnsOf(s, victims)[i] == s.entries[a].conn;
  }

  lemma StepTakes(s: State, step: Step, a: Account, x: Conn)
    requires Enabled(s, step) && IsEntry(s, a, x) && x in s.owner
    requires step.Synced? ==> s.tasks[step.task].account != a
    ensures TakesOut(step, a) ==> OutOfPool(Apply(s, step), x)
    ensures !TakesOut(step, a) ==> IsEntry(Apply(s, step), a, x)
  {
    if step.Acquire? {
      JoinFields(s, step.account);
    } else if step.EvictIdle? && a in step.victims {
      EvictTakes(s, step.cutoff, step.victims, a);
    }
  }

  lemma EntryFacts(s: State, step: Step, a: Account, x: Conn)
    requires Inv(s) && Enabled(s, step) && IsEntry(s, a, x)
    ensures x in s.owner
    ensures step.Synced? ==> s.tasks[step.task].account != a
  {
    assert Holds(s, x, InEntries(a));
  }

  lemma OutIsNoEntry(s: State, a: Account, x: Conn)
    requires Inv(s) && OutOfPool(s, x)
    ensures !IsEntry(s, a, x)
  {
    assert !Holds(s, x, InEntries(a));
  }

  /** From the moment an open has stored its connection until a waiter resumes, the connection stays the
      account's entry exactly when meanwhile no `acquire` finds it unhealthy and no eviction takes it. */
  lemma {:induction false} TakenExactly(s: State, steps: seq<Step>, a: Account, x: Conn)
    requires Inv(s) && Executes(s, steps) && IsEntry(s, a, x)
    ensures IsEntry(Run(s, steps), a, x) <==> forall i :: 0 <= i < |steps| ==> !TakesOut(steps[i], a)
    decreases |steps|
  {
    if steps != [] {
      var n := Apply(s, steps[0]);
      StepKeeps(s, steps[0]);
      EntryFacts(s, steps[0], a, x);
      StepTakes(s, steps[0], a, x);
      if TakesOut(steps[0], a) {
        TakenStaysOutRun(n, steps[1..], x);
        OutIsNoEntry(Run(s, steps), a, x);
      } else {
        TakenExactly(n, steps[1..], a, x);
        assert forall i :: 1 <= i < |steps| ==> steps[i] == steps[1..][i - 1];
        assert forall i :: 0 <= i < |steps[1..]| ==> steps[1..][i] == steps[i + 1];
      }
    }
  }

  /** A caller that discarded nothing is about to be handed a connection that is already closed. */
  ghost predicate HandsOutClosed(steps: seq<Step>, k: nat, x: Conn) {
    && Executes(Empty, steps) && Enabled(Run(Empty, steps), Resume(k))
    && Run(Empty, steps).tasks[Run(Empty, steps).callers[k].task].phase == Finished(Some(x))
    && x in Run(Empty, steps).closed
  }

  lemma DiscardOne(s: State, a: Account, x: Conn, k: nat)
    requires IsEntry(s, a, x) && a !in s.opening && k in s.callers && k < s.next && s.callers[k].task in s.tasks
    requires s.callers[k].task < s.next
    ensures Executes(s, [Acquire(a, false, 0), CloseStale(s.next + 1, false)])
    ensures var n := Run(s, [Acquire(a, false, 0), CloseStale(s.next + 1, false)]);
            && x in n.closed && k in n.callers && n.callers[k] == s.callers[k]
            && n.callers[k].task in n.tasks && n.tasks[n.callers[k].task] == s.tasks[s.callers[k].task]
  {
    var s1 := Apply(s, Acquire(a, false, 0));
    assert s1.callers == s.callers[s.next + 1 := Caller(a, Some(x), s.next)];
    JoinFields(s, a);
    RunsTwo(s, Acquire(a, false, 0), CloseStale(s.next + 1, false));
  }

  /** Between the end of an open and its waiter's resumption, another `acquire` finds the connection
      unhealthy and closes it. */
  lemma ClosedIsHandedOut(a: Account)
    ensures exists steps, k, x :: HandsOutClosed(steps, k, x)
  {
    OpenRuns(Empty, a);
    var s1 := Opened(Empty, a);
    assert s1.next == 3 && s1.callers[1] == Caller(a, None, 0) && s1.tasks[0] == Task(a, Finished(Some(2)));
    DiscardOne(s1, a, 2, 1);
    var last := [Acquire(a, false, 0), CloseStale(4, false)];
    RunsConcat(Empty, OpenSteps(0, a), last);
    assert HandsOutClosed(OpenSteps(0, a) + last, 1, 2);
  }
}
