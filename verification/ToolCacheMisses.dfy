/**
 Exactly which commits a cached result may miss.
 */
module ToolCacheMisses {
  import opened Prelude
  import opened ToolCache

  // ---------------------------------------------------------------- exactly what may be missed

  predicate IsSync(step: Step) {
    step.Commit? || step.BumpVersion? || step.LoseBump?
  }

  /** The steps of the syncs alone. */
  ghost function Syncs(steps: seq<Step>): seq<Step> {
    if steps == [] then []
    else (if IsSync(steps[0]) then [steps[0]] else []) + Syncs(steps[1..])
  }

  /** The commits and counters of `s` with the calls and results of `x`. */
  ghost function With(s: State, x: State): State {
    s.(calls := x.calls, history := x.history, cache := x.cache, served := x.served)
  }

  lemma SyncStep(s: State, step: Step, x: State)
    requires Enabled(s, step)
    ensures IsSync(step) ==> Enabled(With(s, x), step) && Apply(With(s, x), step) == With(Apply(s, step), x)
    ensures !IsSync(step) ==> With(Apply(s, step), x) == With(s, x)
  {
  }

  /** Syncs run the same whatever the calls do. */
  lemma {:induction false} SyncsAlone(s: State, steps: seq<Step>, x: State)
    requires Executes(s, steps)
    ensures Executes(With(s, x), Syncs(steps)) && Run(With(s, x), Syncs(steps)) == With(Run(s, steps), x)
    decreases |steps|
  {
    if steps != [] {
      SyncStep(s, steps[0], x);
      SyncsAlone(Apply(s, steps[0]), steps[1..], x);
      if IsSync(steps[0]) {
        assert ([steps[0]] + Syncs(steps[1..]))[1..] == Syncs(steps[1..]);
      } else {
        assert Syncs(steps) == Syncs(steps[1..]);
      }
    }
  }

  ghost predicate AllSyncs(steps: seq<Step>) {
    forall i :: 0 <= i < |steps| ==> IsSync(steps[i])
  }

  lemma {:induction false} SyncsAreSyncs(steps: seq<Step>)
    ensures AllSyncs(Syncs(steps))
    ensures AllSyncs(steps) ==> Syncs(steps) == steps
  {
    if steps != [] {
      SyncsAreSyncs(steps[1..]);
      assert steps == [steps[0]] + steps[1..];
    }
  }

  lemma RunSyncs(s: State, steps: seq<Step>, x: State)
    requires Executes(s, steps) && AllSyncs(steps)
    ensures Executes(With(s, x), steps) && Run(With(s, x), steps) == With(Run(s, steps), x)
  {
    SyncsAreSyncs(steps);
    SyncsAlone(s, steps, x);
  }

  lemma {:induction false} ExecutesConcat(s: State, p: seq<Step>, q: seq<Step>)
    ensures Executes(s, p + q) <==> Executes(s, p) && Executes(Run(s, p), q)
    ensures Executes(s, p + q) ==> Run(s, p + q) == Run(Run(s, p), q)
    decreases |p|
  {
    if p == [] {
      assert p + q == q;
    } else if Enabled(s, p[0]) {
      ExecutesConcat(Apply(s, p[0]), p[1..], q);
      assert (p + q)[1..] == p[1..] + q;
    }
  }

  lemma SplitRun(s: State, steps: seq<Step>, k: nat)
    requires Executes(s, steps) && k <= |steps|
    ensures Executes(s, steps[..k]) && Executes(Run(s, steps[..k]), steps[k..])
    ensures Run(Run(s, steps[..k]), steps[k..]) == Run(s, steps)
  {
    assert steps == steps[..k] + steps[k..];
    ExecutesConcat(s, steps[..k], steps[k..]);
  }

  /** Commits and increments are only added, and an increment covers the commits before it. */
  lemma {:induction false} OnlyGrows(s: State, steps: seq<Step>)
    requires Executes(s, steps)
    ensures |s.commits| <= |Run(s, steps).commits| && |s.bumps| <= |Run(s, steps).bumps|
    ensures Run(s, steps).bumps[..|s.bumps|] == s.bumps
    ensures forall i :: |s.bumps| <= i < |Run(s, steps).bumps| ==> |s.commits| <= Run(s, steps).bumps[i].upto
    decreases |steps|
  {
    if steps != [] {
      var n := Apply(s, steps[0]);
      OnlyGrows(n, steps[1..]);
      assert n.bumps[..|s.bumps|] == s.bumps;
      var r := Run(s, steps);
      assert r.bumps[..|s.bumps|] == r.bumps[..|n.bumps|][..|s.bumps|];
      forall i | |s.bumps| <= i < |r.bumps|
        ensures |s.commits| <= r.bumps[i].upto
      {
        if i < |n.bumps| {
          assert r.bumps[..|n.bumps|][i] == n.bumps[i];
        }
      }
    }
  }

  lemma {:induction false} SplitAtBumps(s: State, steps: seq<Step>, at: nat) returns (k: nat)
    requires Executes(s, steps) && |s.bumps| <= at <= |Run(s, steps).bumps|
    ensures k <= |steps| && Executes(s, steps[..k]) && |Run(s, steps[..k]).bumps| == at
    decreases |steps|
  {
    if |s.bumps| == at {
      k := 0;
    } else {
      var j := SplitAtBumps(Apply(s, steps[0]), steps[1..], at);
      k := j + 1;
      assert steps[..k][1..] == steps[1..][..j];
    }
  }

  lemma {:induction false} SplitAtCommit(s: State, steps: seq<Step>, id: nat) returns (k: nat)
    requires Executes(s, steps) && |s.commits| <= id < |Run(s, steps).commits|
    ensures k < |steps| && Executes(s, steps[..k]) && |Run(s, steps[..k]).commits| == id && steps[k].Commit?
    decreases |steps|
  {
    if |s.commits| == id && steps[0].Commit? {
      k := 0;
    } else {
      var j := SplitAtCommit(Apply(s, steps[0]), steps[1..], id);
      k := j + 1;
      assert steps[..k][1..] == steps[1..][..j];
    }
  }

  /** A call on one account that finds nothing stored. */
  ghost function Asking(a: Account): seq<Step> {
    [Step.ReadVersions("", "", [a]), Lookup(0), ReadAccount(0, a), StoreResult(0)]
  }

  ghost function OneKey(c: nat, a: Account): Key {
    MakeKey("", "", [a], [c])
  }

  /** What that call leaves behind, made at `n` commits and `at` increments. */
  ghost function Answered(a: Account, c: nat, at: nat, n: nat): State {
    Empty.(history := [VersionRead(OneKey(c, a), [a], [c], at)],
           cache := map[OneKey(c, a) := Entry(Question("", "", [a]), [c], at, map[a := n])],
           served := [Served(Question("", "", [a]), Question("", "", [a]), at, map[a := n], false)])
  }

  lemma Runs(s: State, step: Step, rest: seq<Step>)
    requires Enabled(s, step) && Executes(Apply(s, step), rest)
    ensures Executes(s, [step] + rest) && Run(s, [step] + rest) == Run(Apply(s, step), rest)
  {
    assert ([step] + rest)[1..] == rest;
  }

  lemma RunsFour(s: State, a: Step, b: Step, c: Step, d: Step)
    requires Enabled(s, a) && Enabled(Apply(s, a), b) && Enabled(Apply(Apply(s, a), b), c)
    requires Enabled(Apply(Apply(Apply(s, a), b), c), d)
    ensures Executes(s, [a, b, c, d]) && Run(s, [a, b, c, d]) == Apply(Apply(Apply(Apply(s, a), b), c), d)
  {
    var s1 := Apply(s, a);
    var s2 := Apply(s1, b);
    var s3 := Apply(s2, c);
    var s4 := Apply(s3, d);
    assert Executes(s4, []) && Run(s4, []) == s4;
    Runs(s3, d, []);
    Runs(s2, c, [d] + []);
    Runs(s1, b, [c] + ([d] + []));
    Runs(s, a, [b] + ([c] + ([d] + [])));
    assert [a, b, c, d] == [a] + ([b] + ([c] + ([d] + [])));
  }

  lemma AskingRuns(s: State, a: Account)
    requires With(s, Empty) == s
    ensures Executes(s, Asking(a))
    ensures Run(s, Asking(a)) == With(s, Answered(a, Counter(s, a), |s.bumps|, |s.commits|))
  {
    var c := Counter(s, a);
    var s1 := Apply(s, Step.ReadVersions("", "", [a]));
    assert Versions(s, [a]) == [c];
    var s2 := Apply(s1, Lookup(0));
    var s3 := Apply(s2, ReadAccount(0, a));
    assert Complete(s3.calls[0]);
    assert s3.calls[0].seen == map[a := |s.commits|];
    var s4 := Apply(s3, StoreResult(0));
    assert s4.calls == map[];
    assert s4 == With(s, Answered(a, c, |s.bumps|, |s.commits|));
    RunsFour(s, Step.ReadVersions("", "", [a]), Lookup(0), ReadAccount(0, a), StoreResult(0));
  }

  ghost function AskingAgain(a: Account): seq<Step> {
    [Step.ReadVersions("", "", [a]), Lookup(1)]
  }

  lemma RunsTwo(s: State, a: Step, b: Step)
    requires Enabled(s, a) && Enabled(Apply(s, a), b)
    ensures Executes(s, [a, b]) && Run(s, [a, b]) == Apply(Apply(s, a), b)
  {
    var s2 := Apply(Apply(s, a), b);
    assert Executes(s2, []) && Run(s2, []) == s2;
    Runs(Apply(s, a), b, []);
    Runs(s, a, [b] + []);
    assert [a, b] == [a] + ([b] + []);
  }

  /** With the counter where it was, the second call gets the first one's result. */
  lemma AskingAgainHits(s: State, a: Account, at: nat, n: nat)
    requires s == With(s, Answered(a, Counter(s, a), at, n))
    ensures Executes(s, AskingAgain(a))
    ensures Run(s, AskingAgain(a)).commits == s.commits && Run(s, AskingAgain(a)).bumps == s.bumps
    ensures Run(s, AskingAgain(a)) == With(s, Run(s, AskingAgain(a)))
    ensures Run(s, AskingAgain(a)).served == s.served + [Served(Question("", "", [a]), Question("", "", [a]), |s.bumps|, map[a := n], true)]
  {
    var s1 := Apply(s, Step.ReadVersions("", "", [a]));
    assert Versions(s, [a]) == [Counter(s, a)];
    assert KeyOf(s1.calls[1]) == OneKey(Counter(s, a), a);
    RunsTwo(s, Step.ReadVersions("", "", [a]), Lookup(1));
  }

  /** `others` is a run with the commits and increments of `s` in which a hit, given to a caller whose
      version read saw `at` increments, misses commit `id` of the account. */
  ghost predicate MissedIn(others: seq<Step>, s: State, at: nat, a: Account, id: nat) {
    && Executes(Empty, others)
    && Run(Empty, others).commits == s.commits && Run(Empty, others).bumps == s.bumps
    && exists k :: 0 <= k < |Run(Empty, others).served| && MissedBy(Run(Empty, others).served[k], at, a, id)
  }

  ghost predicate MissedBy(v: Served, at: nat, a: Account, id: nat) {
    v.hit && v.at == at && a in v.question.accounts && a in v.seen && v.seen[a] <= id
  }

  /** No increment of the account falls between the first call and the second. */
  lemma CounterStays(before: State, after: State, a: Account)
    requires CountersOk(before) && CountersOk(after) && |before.bumps| <= |after.bumps|
    requires after.bumps[..|before.bumps|] == before.bumps
    requires forall i :: |before.bumps| <= i < |after.bumps| ==> after.bumps[i].account != a
    ensures Counter(after, a) == Counter(before, a)
  {
    CountStays(after.bumps, |before.bumps|, |after.bumps|, a);
    assert after.bumps[..|after.bumps|] == after.bumps;
    assert Counter(after, a) == Count(after.bumps, a);
    assert Counter(before, a) == Count(before.bumps, a);
  }

  lemma {:induction false} CountStays(bumps: seq<Bump>, m: nat, n: nat, a: Account)
    requires m <= n <= |bumps| && forall i :: m <= i < n ==> bumps[i].account != a
    ensures Count(bumps[..n], a) == Count(bumps[..m], a)
    decreases n
  {
    if m < n {
      CountStays(bumps, m, n - 1, a);
      assert bumps[..n] == bumps[..n - 1] + [bumps[n - 1]];
      CountAppend(bumps[..n - 1], bumps[n - 1], a);
    }
  }

  /** The run: the syncs up to a point before the commit, a first call, the syncs up to `at` increments,
      the second call, and the remaining syncs. */
  lemma MissingRun(p: seq<Step>, m: seq<Step>, rest: seq<Step>, a: Account, id: nat, s1: State, s2: State)
    returns (others: seq<Step>)
    requires AllSyncs(p) && AllSyncs(m) && AllSyncs(rest)
    requires Executes(Empty, p) && Executes(Run(Empty, p), m) && s1 == Run(Run(Empty, p), m)
    requires Executes(s1, rest) && s2 == Run(s1, rest)
    requires Counter(s1, a) == Counter(Run(Empty, p), a) && |Run(Empty, p).commits| <= id
    ensures MissedIn(others, s2, |s1.bumps|, a, id)
  {
    var s0 := Run(Empty, p);
    var at, n, c := |s1.bumps|, |s0.commits|, Counter(s0, a);
    RunSyncs(Empty, p, Empty);
    assert With(s0, Empty) == s0;
    AskingRuns(s0, a);
    ExecutesConcat(Empty, p, Asking(a));
    var x := Answered(a, c, |s0.bumps|, n);
    RunSyncs(s0, m, x);
    ExecutesConcat(Empty, p + Asking(a), m);
    var t1 := With(s1, x);
    assert Counter(t1, a) == c;
    AskingAgainHits(t1, a, |s0.bumps|, n);
    ExecutesConcat(Empty, (p + Asking(a)) + m, AskingAgain(a));
    var t2 := Run(t1, AskingAgain(a));
    assert t2 == With(s1, t2);
    RunSyncs(s1, rest, t2);
    ExecutesConcat(Empty, ((p + Asking(a)) + m) + AskingAgain(a), rest);
    others := ((p + Asking(a)) + m) + AskingAgain(a) + rest;
    var end := Run(Empty, others);
    assert end == With(s2, t2);
    assert end.served[1] == Served(Question("", "", [a]), Question("", "", [a]), at, map[a := n], true);
    assert MissedBy(end.served[1], at, a, id);
  }

  lemma CountersHold(steps: seq<Step>)
    requires Executes(Empty, steps)
    ensures CountersOk(Run(Empty, steps))
  {
    assert Inv(Empty);
    RunKeeps(Empty, steps);
  }

  /** Increments of the account after the commit, among the first `at`, would announce it. */
  lemma QuietBetween(p: seq<Step>, m: seq<Step>, a: Account, id: nat)
    requires Executes(Empty, p) && Executes(Run(Empty, p), m)
    requires !Announced(Run(Run(Empty, p), m).bumps, |Run(Run(Empty, p), m).bumps|, a, id)
    requires m == [] || (m[0].Commit? && |Run(Empty, p).commits| == id)
    ensures Counter(Run(Run(Empty, p), m), a) == Counter(Run(Empty, p), a)
  {
    var s0 := Run(Empty, p);
    var s1 := Run(s0, m);
    if m != [] {
      OnlyGrows(Apply(s0, m[0]), m[1..]);
      forall i | |s0.bumps| <= i < |s1.bumps|
        ensures s1.bumps[i].account != a
      {
        assert id < s1.bumps[i].upto;
      }
      CountersHold(p);
      ExecutesConcat(Empty, p, m);
      CountersHold(p + m);
      CounterStays(s0, s1, a);
    }
  }

  lemma AnnouncedPrefix(bumps: seq<Bump>, at: nat, a: Account, id: nat)
    requires at <= |bumps|
    ensures Announced(bumps[..at], at, a, id) <==> Announced(bumps, at, a, id)
  {
    assert forall i :: 0 <= i < at ==> bumps[..at][i] == bumps[i];
    if Announced(bumps, at, a, id) {
      var i :| 0 <= i < at && bumps[i].account == a && id < bumps[i].upto;
      assert bumps[..at][i].account == a;
    }
  }

  lemma MissedFrom(p: seq<Step>, m: seq<Step>, rest: seq<Step>, a: Account, id: nat, s1: State, s2: State)
    requires AllSyncs(p) && AllSyncs(m) && AllSyncs(rest)
    requires Executes(Empty, p) && Executes(Run(Empty, p), m) && s1 == Run(Run(Empty, p), m)
    requires Executes(s1, rest) && s2 == Run(s1, rest)
    requires !Announced(s1.bumps, |s1.bumps|, a, id) && |Run(Empty, p).commits| <= id
    requires m == [] || (m[0].Commit? && |Run(Empty, p).commits| == id)
    ensures exists others :: MissedIn(others, s2, |s1.bumps|, a, id)
  {
    QuietBetween(p, m, a, id);
    var others := MissingRun(p, m, rest, a, id, s1, s2);
  }

  lemma MissedAround(head: seq<Step>, rest: seq<Step>, a: Account, id: nat)
    requires AllSyncs(head) && AllSyncs(rest) && Executes(Empty, head) && Executes(Run(Empty, head), rest)
    requires !Announced(Run(Empty, head).bumps, |Run(Empty, head).bumps|, a, id)
    ensures exists others :: MissedIn(others, Run(Run(Empty, head), rest), |Run(Empty, head).bumps|, a, id)
  {
    var s1 := Run(Empty, head);
    if id < |s1.commits| {
      var j := SplitAtCommit(Empty, head, id);
      SplitRun(Empty, head, j);
      var p, m := head[..j], head[j..];
      MissedFrom(p, m, rest, a, id, s1, Run(s1, rest));
    } else {
      assert Run(s1, []) == s1;
      MissedFrom(head, [], rest, a, id, s1, Run(s1, rest));
    }
  }

  lemma MissedAmongSyncs(all: seq<Step>, at: nat, a: Account, id: nat)
    requires AllSyncs(all) && Executes(Empty, all) && at <= |Run(Empty, all).bumps|
    requires !Announced(Run(Empty, all).bumps, at, a, id)
    ensures exists others :: MissedIn(others, Run(Empty, all), at, a, id)
  {
    var k := SplitAtBumps(Empty, all, at);
    SplitRun(Empty, all, k);
    var s1 := Run(Empty, all[..k]);
    OnlyGrows(s1, all[k..]);
    assert s1.bumps == Run(Empty, all).bumps[..at];
    AnnouncedPrefix(Run(Empty, all).bumps, at, a, id);
    MissedAround(all[..k], all[k..], a, id);
  }

  /** Where no visible increment of the account follows a commit, a run with the same commits and the
      same increments serves a hit that misses it. */
  lemma UnannouncedMayBeMissed(steps: seq<Step>, at: nat, a: Account, id: nat)
    requires Executes(Empty, steps) && at <= |Run(Empty, steps).bumps|
    requires !Announced(Run(Empty, steps).bumps, at, a, id)
    ensures exists others :: MissedIn(others, Run(Empty, steps), at, a, id)
  {
    var s, all := Run(Empty, steps), Syncs(steps);
    SyncsAlone(Empty, steps, Empty);
    assert With(Empty, Empty) == Empty;
    SyncsAreSyncs(steps);
    MissedAmongSyncs(all, at, a, id);
    var others :| MissedIn(others, Run(Empty, all), at, a, id);
    assert MissedIn(others, s, at, a, id);
  }

  /** For every run and every number of visible increments: a hit may miss a commit, in some run with
      the same commits and increments, exactly when no visible increment of the account follows it. */
  lemma MissedExactly(steps: seq<Step>, at: nat, a: Account, id: nat)
    requires Executes(Empty, steps) && at <= |Run(Empty, steps).bumps|
    ensures (exists others :: MissedIn(others, Run(Empty, steps), at, a, id)) <==>
            !Announced(Run(Empty, steps).bumps, at, a, id)
  {
    var s := Run(Empty, steps);
    if Announced(s.bumps, at, a, id) {
      forall others
        ensures !MissedIn(others, s, at, a, id)
      {
        if MissedIn(others, s, at, a, id) {
          var k :| 0 <= k < |Run(Empty, others).served| && MissedBy(Run(Empty, others).served[k], at, a, id);
          FreshnessTheorem(others, k, a, id);
          assert false;
        }
      }
    } else {
      UnannouncedMayBeMissed(steps, at, a, id);
    }
  }
}
