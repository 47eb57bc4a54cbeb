/**
 Why the coroutines of the pool come to an end, and how they come to rest.
 */
module PoolProgress {
  import opened Prelude
  import opened ConnectionPool

  // ---------------------------------------------------------------- progress

  ghost function Rank(p: Phase): nat {
    match p
    case Fetching => 4
    case Connecting(_) => 3
    case Syncing(_) => 2
    case Closing(_) => 1
    case Finished(_) => 0
  }

  ghost function TaskRanks(s: State): map<nat, nat> {
    map t | t in s.tasks :: Rank(s.tasks[t].phase)
  }

  ghost function CallerRanks(s: State): map<nat, nat> {
    map k | k in s.callers :: if s.callers[k].stale.Some? then 2 else 1
  }

  ghost function EvictorRanks(s: State): map<nat, nat> {
    map e | e in s.evictors :: |s.evictors[e]|
  }

  ghost function Sum(m: map<nat, nat>, n: nat): nat {
    if n == 0 then 0 else Sum(m, n - 1) + if n - 1 in m then m[n - 1] else 0
  }

  /** An upper bound on the steps still to come without new acquires and evictions. */
  ghost function Work(s: State): nat {
    Sum(TaskRanks(s), s.next) + Sum(CallerRanks(s), s.next) + Sum(EvictorRanks(s), s.next)
  }

  ghost function At(m: map<nat, nat>, d: nat): nat {
    if d in m then m[d] else 0
  }

  lemma SumChanges(m: map<nat, nat>, after: map<nat, nat>, d: nat, n: nat)
    requires forall e :: e != d ==> At(after, e) == At(m, e)
    ensures Sum(after, n) + (if d < n then At(m, d) else 0) == Sum(m, n) + if d < n then At(after, d) else 0
  {
    if n > 0 {
      SumChanges(m, after, d, n - 1);
      assert n - 1 != d ==> At(after, n - 1) == At(m, n - 1);
    }
  }

  lemma SumBeyond(m: map<nat, nat>, n: nat)
    requires n !in m
    ensures Sum(m, n + 1) == Sum(m, n)
  {
  }

  predicate Progresses(step: Step) {
    !step.Acquire? && !step.EvictIdle?
  }

  lemma TaskProgress(s: State, n: State, t: nat)
    requires t in s.tasks && t in n.tasks && t < s.next && Rank(n.tasks[t].phase) < Rank(s.tasks[t].phase)
    requires n.tasks == s.tasks[t := n.tasks[t]] && n.callers == s.callers && n.evictors == s.evictors && n.next == s.next
    ensures Work(n) < Work(s)
  {
    var m, after := TaskRanks(s), TaskRanks(n);
    assert forall e :: e != t ==> At(after, e) == At(m, e);
    SumChanges(m, after, t, s.next);
  }

  lemma CallerProgress(s: State, n: State, k: nat)
    requires k in s.callers && k < s.next && At(CallerRanks(n), k) < At(CallerRanks(s), k)
    requires n.callers - {k} == s.callers - {k} && n.tasks == s.tasks && n.evictors == s.evictors && n.next == s.next
    ensures Work(n) < Work(s)
  {
    var m, after := CallerRanks(s), CallerRanks(n);
    forall e | e != k
      ensures At(after, e) == At(m, e)
    {
      assert e in s.callers <==> e in s.callers - {k};
      assert e in n.callers <==> e in n.callers - {k};
      if e in s.callers {
        assert (s.callers - {k})[e] == (n.callers - {k})[e];
      }
    }
    SumChanges(m, after, k, s.next);
  }

  lemma EvictorProgress(s: State, n: State, e: nat)
    requires e in s.evictors && e < s.next && At(EvictorRanks(n), e) < At(EvictorRanks(s), e)
    requires n.evictors - {e} == s.evictors - {e} && n.tasks == s.tasks && n.callers == s.callers && n.next == s.next
    ensures Work(n) < Work(s)
  {
    var m, after := EvictorRanks(s), EvictorRanks(n);
    forall f | f != e
      ensures At(after, f) == At(m, f)
    {
      assert f in s.evictors <==> f in s.evictors - {e};
      assert f in n.evictors <==> f in n.evictors - {e};
      if f in s.evictors {
        assert (s.evictors - {e})[f] == (n.evictors - {e})[f];
      }
    }
    SumChanges(m, after, e, s.next);
  }

  lemma FetchProgress(s: State, t: nat)
    requires IdsOk(s) && t in s.tasks && s.tasks[t].phase.Fetching?
    ensures Work(ApplyFetched(s, t, true)) < Work(s)
  {
    var n := ApplyFetched(s, t, true);
    TaskProgress(s, n.(next := s.next), t);
    SumBeyond(TaskRanks(n), s.next);
    SumBeyond(CallerRanks(n), s.next);
    SumBeyond(EvictorRanks(n), s.next);
    var back := n.(next := s.next);
    assert TaskRanks(back) == TaskRanks(n) && CallerRanks(back) == CallerRanks(n) && EvictorRanks(back) == EvictorRanks(n);
  }

  lemma CloseStaleProgress(s: State, k: nat, raises: bool)
    requires IdsOk(s) && k in s.callers && s.callers[k].stale.Some?
    ensures Work(ApplyCloseStale(s, k, raises)) < Work(s)
  {
    CallerProgress(s, ApplyCloseStale(s, k, raises), k);
  }

  lemma ResumeProgress(s: State, k: nat)
    requires IdsOk(s) && Enabled(s, Resume(k))
    ensures Work(ApplyResume(s, k)) < Work(s)
  {
    CallerProgress(s, ApplyResume(s, k), k);
  }

  lemma EvictCloseProgress(s: State, e: nat, raises: bool)
    requires IdsOk(s) && e in s.evictors && s.evictors[e] != []
    ensures Work(ApplyEvictClose(s, e, raises)) < Work(s)
  {
    EvictorProgress(s, ApplyEvictClose(s, e, raises), e);
  }

  lemma OpenProgress(s: State, step: Step)
    requires IdsOk(s) && Enabled(s, step)
    requires step.Fetched? || step.Connected? || step.Synced? || step.CloseFailed?
    ensures Work(Apply(s, step)) < Work(s)
  {
    if step.Fetched? && step.ok {
      FetchProgress(s, step.task);
    } else {
      TaskProgress(s, Apply(s, step), step.task);
    }
  }

  /** Every step of an open, a close or a resumption uses up work. */
  lemma StepProgress(s: State, step: Step)
    requires IdsOk(s) && Enabled(s, step) && Progresses(step)
    ensures Work(Apply(s, step)) < Work(s)
  {
    if step.CloseStale? {
      CloseStaleProgress(s, step.caller, step.raises);
    } else if step.Resume? {
      ResumeProgress(s, step.caller);
    } else if step.EvictClose? {
      EvictCloseProgress(s, step.evictor, step.raises);
    } else {
      OpenProgress(s, step);
    }
  }

  /** Once no new acquires and evictions begin, every interleaving of opens, closes and resumptions is
      finite. */
  lemma {:induction false} OpensTerminate(s: State, steps: seq<Step>)
    requires Inv(s) && Executes(s, steps) && forall i :: 0 <= i < |steps| ==> Progresses(steps[i])
    ensures |steps| <= Work(s)
    decreases |steps|
  {
    if steps != [] {
      StepKeeps(s, steps[0]);
      StepProgress(s, steps[0]);
      OpensTerminate(Apply(s, steps[0]), steps[1..]);
    }
  }

  /** The step that an open task under way can take. */
  ghost function NextOf(s: State, t: nat): Step
    requires t in s.tasks
  {
    match s.tasks[t].phase
    case Fetching => Fetched(t, false)
    case Connecting(_) => Connected(t, false)
    case Syncing(_) => Synced(t, false, 0)
    case _ => CloseFailed(t)
  }

  lemma NoOpenUnderWay(s: State, t: nat)
    requires t in s.tasks && forall step :: Enabled(s, step) ==> !Progresses(step)
    ensures s.tasks[t].phase.Finished?
  {
    assert !s.tasks[t].phase.Finished? ==> Enabled(s, NextOf(s, t));
  }

  /** They come to rest only when every caller has been served or has failed, no open is under way and
      nothing is left to close. */
  lemma RestMeansServed(s: State)
    requires Inv(s) && forall step :: Enabled(s, step) ==> !Progresses(step)
    ensures s.callers == map[] && s.opening == map[]
    ensures forall e :: e in s.evictors ==> s.evictors[e] == []
  {
    forall k | k in s.callers
      ensures false
    {
      if s.callers[k].stale.Some? {
        assert Enabled(s, CloseStale(k, false));
      } else {
        NoOpenUnderWay(s, s.callers[k].task);
        assert Enabled(s, Resume(k));
      }
    }
    forall a | a in s.opening
      ensures false
    {
      NoOpenUnderWay(s, s.opening[a]);
    }
    forall e | e in s.evictors
      ensures s.evictors[e] == []
    {
      assert !Enabled(s, EvictClose(e, false));
    }
  }
}
