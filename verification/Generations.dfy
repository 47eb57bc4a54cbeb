/**
 How the messages of one signal are merged into the context of its assembly.

 A context is a dictionary.  An update overrides every key for which it carries a value, but before
 the opening is submitted take-profit targets accumulate and management actions do not displace the
 opening action.
 */
module Generations {
  import opened Prelude

  datatype Value = Null | Text(text: string) | Number(number: real) | List(items: seq<string>)

  const TakeProfits := "take_profits"
  const Action := "action"

  /** Take-profit targets are a list where they are present. */
  type Context = c: map<string, Value> | TakeProfits in c ==> c[TakeProfits].List? || c[TakeProfits].Null? witness map[]

  predicate Blank(v: Value) {
    v == Null || v == Text("") || v == List([])
  }

  function Get(c: Context, key: string): Value {
    if key in c then c[key] else Null
  }

  function Targets(c: Context): seq<string> {
    if Get(c, TakeProfits).List? then Get(c, TakeProfits).items else []
  }

  predicate Opening(v: Value) {
    v == Text("open_market") || v == Text("place_pending")
  }

  predicate Managing(v: Value) {
    v in {Text("modify_sl_tp"), Text("break_even"), Text("partial_close"), Text("full_close"),
          Text("cancel_pending"), Text("additional_tp")}
  }

  lemma OpeningIsNotManaging(v: Value)
    ensures !(Opening(v) && Managing(v)) && !(Opening(v) && Blank(v)) && !(Managing(v) && Blank(v))
  {
    assert Opening(v) ==> v.text[0] == 'o' || v.text[1] == 'l';
    assert Managing(v) ==> v.text[0] != 'o' && v.text[1] != 'l';
  }

  /** The non-blank values of `update` over the values of `current`. */
  function Merge(current: Context, update: Context): (merged: Context)
    ensures forall k :: Get(merged, k) == if Blank(Get(update, k)) then Get(current, k) else Get(update, k)
  {
    current + map k | k in update && !Blank(update[k]) :: update[k]
  }

  ghost function Merged(current: Context, update: Context, todo: set<string>): map<string, Value> {
    current + map k | k in update && k !in todo && !Blank(update[k]) :: update[k]
  }

  lemma MergeOne(current: Context, update: Context, todo: set<string>, key: string)
    requires key in todo && key in update
    ensures Merged(current, update, todo - {key})
         == if Blank(update[key]) then Merged(current, update, todo)
            else Merged(current, update, todo)[key := update[key]]
  {
  }

  lemma MergedEnds(current: Context, update: Context)
    ensures Merged(current, update, update.Keys) == current
    ensures Merged(current, update, {}) == Merge(current, update)
  {
  }

  /** The dictionary copy and its loop over the items of the update. */
  method MergeContext(current: Context, update: Context) returns (merged: map<string, Value>)
    ensures merged == Merge(current, update)
  {
    MergedEnds(current, update);
    merged := current;
    var todo := update.Keys;
    while todo != {}
      invariant todo <= update.Keys
      invariant merged == Merged(current, update, todo)
      decreases |todo|
    {
      var key :| key in todo;
      MergeOne(current, update, todo, key);
      if !Blank(update[key]) {
        merged := merged[key := update[key]];
      }
      todo := todo - {key};
    }
  }

  /** The keys of a dictionary built from a list: every element at its first position. */
  function Dedup(s: seq<string>): seq<string> {
    if s == [] then []
    else
      var d := Dedup(s[..|s| - 1]);
      if s[|s| - 1] in d then d else d + [s[|s| - 1]]
  }

  function MergeGeneration(current: Context, update: Context, openingSubmitted: bool): Context {
    var merged := Merge(current, update);
    var targeted: Context :=
      if !openingSubmitted && Targets(update) != []
      then merged[TakeProfits := List(Dedup(Targets(current) + Targets(update)))]
      else merged;
    if !openingSubmitted && Opening(Get(current, Action)) && Managing(Get(update, Action))
    then targeted[Action := Get(current, Action)]
    else targeted
  }

  /** The context after a series of updates before the opening is submitted. */
  function Assemble(current: Context, updates: seq<Context>): Context {
    if updates == [] then current
    else MergeGeneration(Assemble(current, updates[..|updates| - 1]), updates[|updates| - 1], false)
  }

  // ---------------------------------------------------------------- deduplication

  ghost function FirstIndex(s: seq<string>, x: string): nat {
    if s == [] || s[0] == x then 0 else 1 + FirstIndex(s[1..], x)
  }

  lemma FirstIndexBound(s: seq<string>, x: string)
    ensures FirstIndex(s, x) <= |s|
    ensures x in s <==> FirstIndex(s, x) < |s|
  {
    if s != [] {
      assert s == [s[0]] + s[1..];
      FirstIndexBound(s[1..], x);
    }
  }

  lemma {:induction false} FirstIndexAppend(s: seq<string>, y: string, x: string)
    ensures FirstIndex(s + [y], x) == if x in s || x == y then FirstIndex(s, x) else |s| + 1
  {
    FirstIndexBound(s, x);
    if s == [] {
      assert s + [y] == [y] && [y][1..] == [];
    } else {
      FirstIndexAppend(s[1..], y, x);
      assert (s + [y])[1..] == s[1..] + [y];
      FirstIndexBound(s[1..], x);
      assert s == [s[0]] + s[1..];
    }
  }

  lemma {:induction false} DedupMembers(s: seq<string>)
    ensures forall x :: x in Dedup(s) <==> x in s
  {
    if s != [] {
      DedupMembers(s[..|s| - 1]);
      assert s == s[..|s| - 1] + [s[|s| - 1]];
    }
  }

  /** Deduplication keeps every element once, in the order of first occurrence. */
  lemma {:induction false} DedupFirstOccurrences(s: seq<string>)
    ensures forall x :: x in Dedup(s) <==> x in s
    ensures Distinct(Dedup(s))
    ensures forall i, j :: 0 <= i < j < |Dedup(s)| ==> FirstIndex(s, Dedup(s)[i]) < FirstIndex(s, Dedup(s)[j])
  {
    DedupMembers(s);
    if s != [] {
      var p, y := s[..|s| - 1], s[|s| - 1];
      assert s == p + [y];
      DedupFirstOccurrences(p);
      var d := Dedup(p);
      forall i, j | 0 <= i < j < |Dedup(s)|
        ensures FirstIndex(s, Dedup(s)[i]) < FirstIndex(s, Dedup(s)[j])
      {
        var a, b := Dedup(s)[i], Dedup(s)[j];
        assert a == d[i] && a in p;
        FirstIndexAppend(p, y, a);
        FirstIndexAppend(p, y, b);
        FirstIndexBound(p, a);
        FirstIndexBound(p, b);
        if j < |d| {
          assert b == d[j] && b in p;
        } else {
          assert b == y && y !in p;
        }
      }
    }
  }

  /** Deduplicating on the way changes nothing. */
  lemma {:induction false} DedupAbsorbs(a: seq<string>, b: seq<string>)
    ensures Dedup(Dedup(a) + b) == Dedup(a + b)
    decreases |b|
  {
    if b == [] {
      assert a + b == a && Dedup(a) + b == Dedup(a);
      DedupIdempotent(a);
    } else {
      var c, y := b[..|b| - 1], b[|b| - 1];
      DedupAbsorbs(a, c);
      assert (a + b)[..|a + b| - 1] == a + c;
      assert (Dedup(a) + b)[..|Dedup(a) + b| - 1] == Dedup(a) + c;
    }
  }

  lemma {:induction false} DedupDistinct(s: seq<string>)
    requires Distinct(s)
    ensures Dedup(s) == s
  {
    if s != [] {
      var p, y := s[..|s| - 1], s[|s| - 1];
      assert s == p + [y];
      DedupDistinct(p);
    }
  }

  lemma DedupIdempotent(s: seq<string>)
    ensures Dedup(Dedup(s)) == Dedup(s)
  {
    DedupFirstOccurrences(s);
    DedupDistinct(Dedup(s));
  }

  /** Known elements add nothing. */
  lemma {:induction false} DedupKnown(a: seq<string>, b: seq<string>)
    requires forall x :: x in b ==> x in a
    ensures Dedup(a + b) == Dedup(a)
    decreases |b|
  {
    if b == [] {
      assert a + b == a;
    } else {
      var c, y := b[..|b| - 1], b[|b| - 1];
      DedupKnown(a, c);
      assert (a + b)[..|a + b| - 1] == a + c;
      DedupMembers(a);
      assert y in b;
    }
  }

  // ---------------------------------------------------------------- one update

  /** What one update does to every key before submission. */
  lemma MergeGenerationGets(c: Context, u: Context, key: string)
    ensures key != Action && key != TakeProfits ==>
              Get(MergeGeneration(c, u, false), key) == if Blank(Get(u, key)) then Get(c, key) else Get(u, key)
    ensures Get(MergeGeneration(c, u, false), Action) == NextAction(Get(c, Action), Get(u, Action))
    ensures Targets(MergeGeneration(c, u, false)) ==
            if Targets(u) == [] then Targets(c) else Dedup(Targets(c) + Targets(u))
  {
    KeysDiffer();
    OpeningIsNotManaging(Get(u, Action));
  }

  lemma KeysDiffer()
    ensures Action != TakeProfits
  {
    assert Action[0] == 'a' && TakeProfits[0] == 't';
  }

  function NextAction(current: Value, update: Value): Value {
    if Blank(update) || (Opening(current) && Managing(update)) then current else update
  }

  lemma TargetsTwice(t: seq<string>, u: seq<string>)
    ensures Dedup(Dedup(t + u) + u) == Dedup(t + u)
  {
    DedupMembers(t + u);
    DedupAbsorbs(t + u, u);
    DedupKnown(t + u, u);
  }

  lemma RepeatSubmitted(c: Context, u: Context)
    ensures MergeGeneration(MergeGeneration(c, u, true), u, true) == MergeGeneration(c, u, true)
  {
    var d := Merge(c, u);
    assert Merge(d, u).Keys == d.Keys;
    assert forall k :: k in d ==> Merge(d, u)[k] == d[k];
  }

  lemma RepeatKeys(c: Context, u: Context)
    ensures MergeGeneration(MergeGeneration(c, u, false), u, false).Keys == MergeGeneration(c, u, false).Keys
  {
    KeysDiffer();
  }

  lemma RepeatTargets(c: Context, u: Context)
    requires TakeProfits in MergeGeneration(c, u, false) && TakeProfits in MergeGeneration(MergeGeneration(c, u, false), u, false)
    ensures MergeGeneration(MergeGeneration(c, u, false), u, false)[TakeProfits] == MergeGeneration(c, u, false)[TakeProfits]
  {
    KeysDiffer();
    TargetsTwice(Targets(c), Targets(u));
  }

  /** Applying the same update twice in a row equals applying it once, from any context, before and
      after submission. */
  lemma RepeatIsIdempotent(c: Context, u: Context, openingSubmitted: bool)
    ensures MergeGeneration(MergeGeneration(c, u, openingSubmitted), u, openingSubmitted)
         == MergeGeneration(c, u, openingSubmitted)
  {
    if openingSubmitted {
      RepeatSubmitted(c, u);
    } else {
      var d := MergeGeneration(c, u, false);
      var e := MergeGeneration(d, u, false);
      RepeatKeys(c, u);
      forall k | k in d
        ensures e[k] == d[k]
      {
        if k == TakeProfits {
          RepeatTargets(c, u);
        } else {
          MergeGenerationGets(c, u, k);
          MergeGenerationGets(d, u, k);
        }
      }
    }
  }

  /** An update leaves an opening action in place exactly when it carries no action, the same action
      or a management action; any other action takes its place. */
  lemma OpeningKeptExactly(c: Context, u: Context)
    requires Get(c, Action) == Text("open_market") || Get(c, Action) == Text("place_pending")
    ensures Get(MergeGeneration(c, u, false), Action) ==
            if Get(u, Action) in {Null, Text(""), List([]), Text("modify_sl_tp"), Text("break_even"), Text("partial_close"),
                                  Text("full_close"), Text("cancel_pending"), Text("additional_tp")}
            then Get(c, Action) else Get(u, Action)
  {
    MergeGenerationGets(c, u, Action);
  }

  /** After submission an update overrides every key for which it carries a value, action and targets included. */
  lemma SubmittedOverrides(c: Context, u: Context, key: string)
    ensures Get(MergeGeneration(c, u, true), key) == if Get(u, key) in {Null, Text(""), List([])} then Get(c, key) else Get(u, key)
  {
  }

  // ---------------------------------------------------------------- series of updates

  ghost function AllTargets(updates: seq<Context>): seq<string> {
    if updates == [] then []
    else AllTargets(updates[..|updates| - 1]) + Targets(updates[|updates| - 1])
  }

  lemma {:induction false} TargetsAccumulate(updates: seq<Context>)
    ensures Targets(Assemble(map[], updates)) == Dedup(AllTargets(updates))
  {
    if updates != [] {
      var us, u := updates[..|updates| - 1], updates[|updates| - 1];
      TargetsAccumulate(us);
      MergeGenerationGets(Assemble(map[], us), u, Action);
      if Targets(u) == [] {
        assert AllTargets(updates) == AllTargets(us);
      } else {
        DedupAbsorbs(AllTargets(us), Targets(u));
      }
    }
  }

  /** After any series of updates from an empty context the targets are all targets in arrival
      order, each at its first occurrence. */
  lemma TargetsTheorem(updates: seq<Context>)
    ensures Targets(Assemble(map[], updates)) == Dedup(AllTargets(updates))
    ensures Distinct(Targets(Assemble(map[], updates)))
    ensures forall x :: x in Targets(Assemble(map[], updates)) <==> exists u :: u in updates && x in Targets(u)
  {
    TargetsAccumulate(updates);
    DedupFirstOccurrences(AllTargets(updates));
    forall x
      ensures x in AllTargets(updates) <==> exists u :: u in updates && x in Targets(u)
    {
      AllTargetsMembers(updates, x);
    }
  }

  lemma {:induction false} AllTargetsMembers(updates: seq<Context>, x: string)
    ensures x in AllTargets(updates) <==> exists u :: u in updates && x in Targets(u)
  {
    if updates != [] {
      var us, v := updates[..|updates| - 1], updates[|updates| - 1];
      assert updates == us + [v];
      AllTargetsMembers(us, x);
      if x in AllTargets(us) {
        var u :| u in us && x in Targets(u);
        assert u in updates;
      }
    }
  }

  /** Management updates never displace the opening action, however many arrive. */
  lemma {:induction false} OpeningSurvives(c: Context, updates: seq<Context>)
    requires Opening(Get(c, Action))
    requires forall u :: u in updates ==> Blank(Get(u, Action)) || Managing(Get(u, Action))
    ensures Get(Assemble(c, updates), Action) == Get(c, Action)
  {
    if updates != [] {
      var us, u := updates[..|updates| - 1], updates[|updates| - 1];
      assert updates == us + [u];
      OpeningSurvives(c, us);
      MergeGenerationGets(Assemble(c, us), u, Action);
    }
  }

  // ---------------------------------------------------------------- messages in any order

  predicate Carries(u: Context, key: string, v: Value) {
    !Blank(v) && Get(u, key) == v
  }

  predicate Agree(v: Value, w: Value) {
    Blank(v) || Blank(w) || v == w
  }

  /** The messages do not contradict one another: each key but the targets has one value, and the
      actions are management actions around one opening action. */
  ghost predicate Compatible(updates: seq<Context>, opening: Value) {
    && Opening(opening)
    && (exists u :: u in updates && Get(u, Action) == opening)
    && (forall u :: u in updates ==> Blank(Get(u, Action)) || Managing(Get(u, Action)) || Get(u, Action) == opening)
    && (forall u, v, k :: u in updates && v in updates && k != Action && k != TakeProfits ==> Agree(Get(u, k), Get(v, k)))
  }

  /** An ordinary key holds a value some update carries, or is unset when none does. */
  lemma {:induction false} KeyFromSomeUpdate(updates: seq<Context>, key: string)
    requires key != Action && key != TakeProfits
    ensures Get(Assemble(map[], updates), key) == Null || exists u :: u in updates && Carries(u, key, Get(Assemble(map[], updates), key))
    ensures (exists u :: u in updates && !Blank(Get(u, key))) ==> !Blank(Get(Assemble(map[], updates), key))
  {
    if updates != [] {
      var us, v := updates[..|updates| - 1], updates[|updates| - 1];
      assert updates == us + [v];
      KeyFromSomeUpdate(us, key);
      MergeGenerationGets(Assemble(map[], us), v, key);
      var got := Get(Assemble(map[], updates), key);
      if !Blank(Get(v, key)) {
        assert v in updates && Carries(v, key, got);
      } else if got != Null {
        var u :| u in us && Carries(u, key, got);
        assert u in updates;
      }
    }
  }

  /** Once the opening action has arrived it is the action. */
  lemma {:induction false} OpeningEmerges(updates: seq<Context>, opening: Value)
    requires Opening(opening)
    requires forall u :: u in updates ==> Blank(Get(u, Action)) || Managing(Get(u, Action)) || Get(u, Action) == opening
    ensures (exists u :: u in updates && Get(u, Action) == opening) ==> Get(Assemble(map[], updates), Action) == opening
  {
    if updates != [] {
      var us, v := updates[..|updates| - 1], updates[|updates| - 1];
      assert updates == us + [v];
      OpeningEmerges(us, opening);
      MergeGenerationGets(Assemble(map[], us), v, Action);
      OpeningIsNotManaging(opening);
      if Get(v, Action) != opening && exists u :: u in updates && Get(u, Action) == opening {
        var u :| u in updates && Get(u, Action) == opening;
        assert u in us;
      }
    }
  }

  lemma KeyIgnoresOrder(us: seq<Context>, vs: seq<Context>, opening: Value, key: string)
    requires forall u :: u in us <==> u in vs
    requires Compatible(us, opening) && key != Action && key != TakeProfits
    ensures Get(Assemble(map[], us), key) == Get(Assemble(map[], vs), key)
  {
    KeyFromSomeUpdate(us, key);
    KeyFromSomeUpdate(vs, key);
    var a, b := Get(Assemble(map[], us), key), Get(Assemble(map[], vs), key);
    if a != Null {
      var u :| u in us && Carries(u, key, a);
      assert u in vs;
      assert !Blank(b);
    }
    if b != Null {
      var v :| v in vs && Carries(v, key, b);
      assert v in us;
      assert !Blank(a);
    }
  }

  /** Messages that do not contradict one another give the same signal in whatever order and
      however often they arrive; only the order of the targets follows the arrival. */
  lemma ArrivalOrderTheorem(us: seq<Context>, vs: seq<Context>, opening: Value)
    requires forall u :: u in us <==> u in vs
    requires Compatible(us, opening)
    ensures Get(Assemble(map[], us), Action) == opening == Get(Assemble(map[], vs), Action)
    ensures forall key :: key != TakeProfits ==> Get(Assemble(map[], us), key) == Get(Assemble(map[], vs), key)
    ensures forall x :: x in Targets(Assemble(map[], us)) <==> x in Targets(Assemble(map[], vs))
  {
    OpeningEmerges(us, opening);
    OpeningEmerges(vs, opening);
    forall key | key != TakeProfits && key != Action
      ensures Get(Assemble(map[], us), key) == Get(Assemble(map[], vs), key)
    {
      KeyIgnoresOrder(us, vs, opening, key);
    }
    TargetsTheorem(us);
    TargetsTheorem(vs);
    forall x
      ensures x in Targets(Assemble(map[], us)) <==> x in Targets(Assemble(map[], vs))
    {
    }
  }
}
