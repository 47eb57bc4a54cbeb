/**
 When an entry of the pool was last used, and what becomes of every acquire.
 */
module PoolUse {
  import opened Prelude
  import opened ConnectionPool
  import opened PoolHandouts

  // ---------------------------------------------------------------- last use and eviction

  /** The time at which the step uses the account's entry: it hands out the warm connection, or it ends a
      successful open of the account. */
  ghost function UseBy(s: State, step: Step, a: Account): Option<int>
    requires Enabled(s, step)
  {
    if step.Acquire? && step.account == a && step.healthy && a in s.entries then Some(step.now)
    else if step.Synced? && step.ok && s.tasks[step.task].account == a then Some(step.now)
    else None
  }

  ghost predicate UsedAt(s: State, steps: seq<Step>, k: nat, a: Account, at: int) {
    && k < |steps| && Executes(s, steps[..k]) && Enabled(Run(s, steps[..k]), steps[k])
    && UseBy(Run(s, steps[..k]), steps[k], a) == Some(at)
  }

  /** Step `k`, at time `at`, is the last of the run that uses the account's entry. */
  ghost predicate LastUse(s: State, steps: seq<Step>, k: nat, a: Account, at: int) {
    UsedAt(s, steps, k, a, at) && forall j, t :: k < j < |steps| ==> !UsedAt(s, steps, j, a, t)
  }

  lemma UsedLater(s: State, steps: seq<Step>, k: nat, a: Account, at: int)
    requires steps != [] && Enabled(s, steps[0])
    ensures UsedAt(Apply(s, steps[0]), steps[1..], k, a, at) <==> UsedAt(s, steps, k + 1, a, at)
  {
    if k + 1 < |steps| {
      assert steps[..k + 1][1..] == steps[1..][..k];
      assert steps[..k + 1][0] == steps[0];
    }
  }

  lemma UsedFirst(s: State, steps: seq<Step>, a: Account, at: int)
    requires steps != [] && Enabled(s, steps[0])
    ensures UsedAt(s, steps, 0, a, at) <==> UseBy(s, steps[0], a) == Some(at)
  {
    assert steps[..0] == [];
  }

  lemma AcquireStamps(s: State, step: Step, a: Account)
    requires step.Acquire?
    ensures UseBy(s, step, a).Some? ==>
              a in Apply(s, step).entries && Apply(s, step).entries[a].lastUsed == UseBy(s, step, a).value
    ensures UseBy(s, step, a).None? && a in Apply(s, step).entries ==>
              a in s.entries && Apply(s, step).entries[a].lastUsed == s.entries[a].lastUsed
  {
    JoinFields(s, step.account);
  }

  lemma EntriesStay(s: State, step: Step)
    requires Enabled(s, step) && !step.Acquire? && !step.EvictIdle? && !(step.Synced? && step.ok)
    ensures Apply(s, step).entries == s.entries
  {
  }

  /** A use stamps the entry with its time, and nothing else touches the stamp. */
  lemma StepStamps(s: State, step: Step, a: Account)
    requires Enabled(s, step)
    ensures UseBy(s, step, a).Some? ==>
              a in Apply(s, step).entries && Apply(s, step).entries[a].lastUsed == UseBy(s, step, a).value
    ensures UseBy(s, step, a).None? && a in Apply(s, step).entries ==>
              a in s.entries && Apply(s, step).entries[a].lastUsed == s.entries[a].lastUsed
  {
    if step.Acquire? {
      AcquireStamps(s, step, a);
    } else if !step.EvictIdle? && !(step.Synced? && step.ok) {
      EntriesStay(s, step);
    }
  }

  ghost predicate NeverUsed(s: State, steps: seq<Step>, a: Account) {
    forall j, t :: 0 <= j < |steps| ==> !UsedAt(s, steps, j, a, t)
  }

  lemma LastUseLater(s: State, steps: seq<Step>, k: nat, a: Account, at: int)
    requires steps != [] && Enabled(s, steps[0]) && LastUse(Apply(s, steps[0]), steps[1..], k, a, at)
    ensures LastUse(s, steps, k + 1, a, at)
  {
    UsedLater(s, steps, k, a, at);
    forall j, t | k + 1 < j < |steps|
      ensures !UsedAt(s, steps, j, a, t)
    {
      UsedLater(s, steps, j - 1, a, t);
    }
  }

  lemma FirstOnlyUse(s: State, steps: seq<Step>, a: Account)
    requires steps != [] && Enabled(s, steps[0]) && NeverUsed(Apply(s, steps[0]), steps[1..], a)
    ensures UseBy(s, steps[0], a).Some? ==> LastUse(s, steps, 0, a, UseBy(s, steps[0], a).value)
    ensures UseBy(s, steps[0], a).None? ==> NeverUsed(s, steps, a)
  {
    forall j, t | 0 < j < |steps|
      ensures !UsedAt(s, steps, j, a, t)
    {
      UsedLater(s, steps, j - 1, a, t);
    }
    forall t
      ensures UsedAt(s, steps, 0, a, t) <==> UseBy(s, steps[0], a) == Some(t)
    {
      UsedFirst(s, steps, a, t);
    }
  }

  lemma {:induction false} StampIsLastUse(s: State, steps: seq<Step>, a: Account)
    requires Executes(s, steps) && a in Run(s, steps).entries
    ensures (exists k :: LastUse(s, steps, k, a, Run(s, steps).entries[a].lastUsed)) ||
            (NeverUsed(s, steps, a) && a in s.entries && Run(s, steps).entries[a].lastUsed == s.entries[a].lastUsed)
    decreases |steps|
  {
    if steps != [] {
      var n, rest := Apply(s, steps[0]), steps[1..];
      var at := Run(s, steps).entries[a].lastUsed;
      StampIsLastUse(n, rest, a);
      StepStamps(s, steps[0], a);
      if k: nat :| LastUse(n, rest, k, a, at) {
        LastUseLater(s, steps, k, a, at);
      } else {
        FirstOnlyUse(s, steps, a);
      }
    }
  }

  /** In every interleaving an entry carries the time of the last step that used it: the last successful
      open of the account or the last time its connection was handed out warm. */
  lemma LastUsedTheorem(steps: seq<Step>, a: Account)
    requires Executes(Empty, steps) && a in Run(Empty, steps).entries
    ensures exists k :: LastUse(Empty, steps, k, a, Run(Empty, steps).entries[a].lastUsed)
  {
    StampIsLastUse(Empty, steps, a);
  }

  lemma LastUseUnique(s: State, steps: seq<Step>, j: nat, k: nat, a: Account, at: int, t: int)
    requires LastUse(s, steps, j, a, at) && LastUse(s, steps, k, a, t)
    ensures j == k && at == t
  {
  }

  /** An eviction takes an account's entry out of the pool exactly when its last use, at step `k` of the run,
      lies before the cutoff. */
  lemma EvictsExactly(steps: seq<Step>, cutoff: int, victims: seq<Account>, a: Account, k: nat, at: int)
    requires Executes(Empty, steps) && Enabled(Run(Empty, steps), EvictIdle(cutoff, victims))
    requires a in Run(Empty, steps).entries && LastUse(Empty, steps, k, a, at)
    ensures a in victims <==> at < cutoff
    ensures a in Apply(Run(Empty, steps), EvictIdle(cutoff, victims)).entries <==> at >= cutoff
  {
    LastUsedTheorem(steps, a);
    var j :| LastUse(Empty, steps, j, a, Run(Empty, steps).entries[a].lastUsed);
    LastUseUnique(Empty, steps, j, k, a, Run(Empty, steps).entries[a].lastUsed, at);
    assert a in Idle(Run(Empty, steps), cutoff) <==> at < cutoff;
  }

  // ---------------------------------------------------------------- what becomes of every acquire

  /** A closed stale connection leaves its caller waiting for its open, and an exception from the close ends the
      caller; a caller that resumes gets its open's connection, and nothing where the open failed. */
  lemma CallerOutcome(s: State, k: nat, raises: bool)
    requires k in s.callers
    ensures s.callers[k].stale.Some? ==>
              ApplyCloseStale(s, k, raises).callers ==
              (if raises then s.callers - {k} else s.callers[k := Caller(s.callers[k].account, None, s.callers[k].task)])
    ensures s.callers[k].stale.Some? ==> ApplyCloseStale(s, k, raises).grants == s.grants
    ensures Enabled(s, Resume(k)) ==>
              ApplyResume(s, k).callers == s.callers - {k} && ApplyResume(s, k).grants ==
              s.grants + match s.tasks[s.callers[k].task].phase.result
                         case Some(x) => [Grant(s.callers[k].account, x, Some(s.callers[k].task))]
                         case None => []
  {
  }

  /** The step fails a caller: its stale connection's close raised, or the open it awaited failed. */
  ghost predicate Fails(s: State, step: Step)
    requires Enabled(s, step)
  {
    (step.CloseStale? && step.raises) || (step.Resume? && s.tasks[s.callers[step.caller].task].phase == Finished(None))
  }

  ghost function Failures(s: State, steps: seq<Step>): nat
    requires Executes(s, steps)
    decreases |steps|
  {
    if steps == [] then 0 else (if Fails(s, steps[0]) then 1 else 0) + Failures(Apply(s, steps[0]), steps[1..])
  }

  ghost function Acquires(steps: seq<Step>): nat {
    if steps == [] then 0 else (if steps[0].Acquire? then 1 else 0) + Acquires(steps[1..])
  }

  lemma OneMore(m: map<nat, Caller>, k: nat, c: Caller)
    requires k !in m
    ensures |m[k := c]| == |m| + 1
  {
    assert m[k := c].Keys == m.Keys + {k};
    assert |m[k := c]| == |m[k := c].Keys| && |m| == |m.Keys|;
  }

  lemma OneLess(m: map<nat, Caller>, k: nat)
    requires k in m
    ensures |m - {k}| == |m| - 1
  {
    assert (m - {k}).Keys == m.Keys - {k};
    assert |m - {k}| == |(m - {k}).Keys| && |m| == |m.Keys|;
  }

  lemma SameNumber(m: map<nat, Caller>, k: nat, c: Caller)
    requires k in m
    ensures |m[k := c]| == |m|
  {
    assert m[k := c].Keys == m.Keys;
    assert |m[k := c]| == |m[k := c].Keys| && |m| == |m.Keys|;
  }

  lemma TakeCallers(r: State, a: Account) returns (c: Caller)
    requires a in r.opening
    ensures TakeEntry(r, a).callers == r.callers[r.next := c] && TakeEntry(r, a).grants == r.grants
  {
    c := Caller(a, if a in r.entries then Some(r.entries[a].conn) else None, r.opening[a]);
  }

  lemma RegisterCallers(s: State, a: Account)
    ensures Register(s, a).callers == s.callers && Register(s, a).grants == s.grants && Register(s, a).next >= s.next
    ensures a in Register(s, a).opening
  {
  }

  lemma JoinCallers(s: State, a: Account)
    requires forall k :: k in s.callers ==> k < s.next
    ensures |JoinOrOpen(s, a).callers| == |s.callers| + 1 && JoinOrOpen(s, a).grants == s.grants
  {
    var r := Register(s, a);
    RegisterCallers(s, a);
    var c := TakeCallers(r, a);
    OneMore(s.callers, r.next, c);
  }

  lemma OpensAccounted(s: State, step: Step)
    requires Enabled(s, step) && (step.Fetched? || step.Connected? || step.Synced? || step.CloseFailed?)
    ensures Apply(s, step).callers == s.callers && Apply(s, step).grants == s.grants
  {
  }

  lemma EvictionsAccounted(s: State, step: Step)
    requires Enabled(s, step) && (step.EvictIdle? || step.EvictClose?)
    ensures Apply(s, step).callers == s.callers && Apply(s, step).grants == s.grants
  {
  }

  lemma StepAccounted(s: State, step: Step)
    requires IdsOk(s) && Enabled(s, step)
    ensures |Apply(s, step).grants| + |Apply(s, step).callers| + (if Fails(s, step) then 1 else 0)
         == |s.grants| + |s.callers| + if step.Acquire? then 1 else 0
  {
    if step.Acquire? {
      JoinCallers(s, step.account);
    } else if step.CloseStale? {
      CallerOutcome(s, step.caller, step.raises);
      OneLess(s.callers, step.caller);
      SameNumber(s.callers, step.caller, Caller(s.callers[step.caller].account, None, s.callers[step.caller].task));
    } else if step.Resume? {
      CallerOutcome(s, step.caller, false);
      OneLess(s.callers, step.caller);
    } else if step.EvictIdle? || step.EvictClose? {
      EvictionsAccounted(s, step);
    } else {
      OpensAccounted(s, step);
    }
  }

  lemma {:induction false} RunAccounted(s: State, steps: seq<Step>)
    requires Inv(s) && Executes(s, steps)
    ensures |Run(s, steps).grants| + |Run(s, steps).callers| + Failures(s, steps) == |s.grants| + |s.callers| + Acquires(steps)
    decreases |steps|
  {
    if steps != [] {
      StepKeeps(s, steps[0]);
      StepAccounted(s, steps[0]);
      RunAccounted(Apply(s, steps[0]), steps[1..]);
    }
  }

  /** In every interleaving each acquire has been handed a connection, has failed, or is still waiting, and only
      one of these. */
  lemma AcquiresAccounted(steps: seq<Step>)
    requires Executes(Empty, steps)
    ensures |Run(Empty, steps).grants| + Failures(Empty, steps) + |Run(Empty, steps).callers| == Acquires(steps)
  {
    EmptyInv();
    RunAccounted(Empty, steps);
  }
}
