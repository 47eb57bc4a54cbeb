/**
 Which conversation an incoming signal message belongs to.

 The resolver orders the candidate conversations by recency and tries one criterion after another:
 an opening that is still incomplete, the conversation the message directly follows, the message an
 edit or reply refers to, the symbol and direction, and at last the only conversation there is.
 */
module Assembly {
  import opened Prelude

  // ---------------------------------------------------------------- normal forms

  function Upper(c: char): char {
    if 'a' <= c <= 'z' then (c as int - 32) as char else c
  }

  predicate Alphanumeric(c: char) {
    'a' <= c <= 'z' || 'A' <= c <= 'Z' || '0' <= c <= '9'
  }

  /** Upper case, letters and digits only. */
  function Squeeze(s: string): string {
    if s == "" then ""
    else (if Alphanumeric(Upper(s[0])) then [Upper(s[0])] else "") + Squeeze(s[1..])
  }

  /** The absent and the empty symbol are the same; one without letters or digits becomes empty. */
  function NormalizeSymbol(value: Option<string>): Option<string> {
    if value.None? || value.value == "" then None else Some(Squeeze(value.value))
  }

  function NormalizeDirection(value: Option<string>): Option<string> {
    if value.None? || value.value == "" then None else Some(Lowered(Strip(value.value)))
  }

  // ---------------------------------------------------------------- candidates and queries

  datatype Action =
    | ModifySlTp | BreakEven | PartialClose | FullClose | CancelPending | AdditionalTp
    | OpenMarket | PlacePending | NoAction | OtherAction(name: string)

  predicate Manages(a: Action) {
    a.ModifySlTp? || a.BreakEven? || a.PartialClose? || a.FullClose? || a.CancelPending? || a.AdditionalTp?
  }

  predicate Opens(a: Action) {
    a.OpenMarket? || a.PlacePending?
  }

  datatype Candidate = Candidate(
    id: nat, replyRoot: Option<int>, lastMessage: int, symbol: Option<string>, direction: Option<string>,
    updatedAt: int, openingSubmitted: bool, hasActiveTrade: bool)

  datatype Choice = Choice(selected: Option<Candidate>, ambiguous: bool)

  datatype Query = Query(
    replyTo: Option<int>, symbol: Option<string>, direction: Option<string>, action: Action,
    messageId: Option<int>, isEdit: bool)

  /** The filters of the resolver. */
  datatype Test =
    | Eligible | AdjacentOpening | IncompleteOpening | Adjacent | EditMatch | ReplyMatch | Matchable | Exact | Unresolved

  predicate Refers(c: Candidate, message: Option<int>) {
    message.Some? && (c.replyRoot == message || c.lastMessage == message.value)
  }

  predicate Follows(q: Query, c: Candidate) {
    q.messageId.Some? && c.lastMessage + 1 == q.messageId.value
  }

  predicate SameSymbol(q: Query, c: Candidate) {
    NormalizeSymbol(c.symbol) == NormalizeSymbol(q.symbol)
  }

  predicate SameDirection(q: Query, c: Candidate) {
    NormalizeDirection(q.direction).None? || NormalizeDirection(c.direction) == NormalizeDirection(q.direction)
  }

  predicate Passes(q: Query, test: Test, c: Candidate) {
    match test
    case Eligible =>
      if q.action.ModifySlTp? then !c.openingSubmitted || c.hasActiveTrade
      else Manages(q.action) ==> c.hasActiveTrade
    case AdjacentOpening => !c.openingSubmitted && Follows(q, c)
    case IncompleteOpening =>
      && !c.openingSubmitted
      && (NormalizeSymbol(q.symbol).None? || SameSymbol(q, c))
      && SameDirection(q, c)
    case Adjacent => Follows(q, c)
    case EditMatch => Refers(c, q.messageId)
    case ReplyMatch => Refers(c, q.replyTo)
    case Matchable => Opens(q.action) ==> !c.openingSubmitted
    case Exact => SameSymbol(q, c) && SameDirection(q, c)
    case Unresolved =>
      NormalizeSymbol(c.symbol).None? && (NormalizeDirection(c.direction).None? || SameDirection(q, c))
  }

  function Keep(q: Query, test: Test, s: seq<Candidate>): seq<Candidate> {
    if s == [] then []
    else (if Passes(q, test, s[0]) then [s[0]] else []) + Keep(q, test, s[1..])
  }

  // ---------------------------------------------------------------- the resolver

  function Insert(x: Candidate, s: seq<Candidate>): seq<Candidate> {
    if s == [] || s[0].updatedAt <= x.updatedAt then [x] + s else [s[0]] + Insert(x, s[1..])
  }

  /** Most recent first; tied candidates keep their order. */
  function Recent(s: seq<Candidate>): seq<Candidate> {
    if s == [] then [] else Insert(s[0], Recent(s[1..]))
  }

  /** Settles on the only match, or on none when there are several. */
  function Decide(matches: seq<Candidate>): Option<Choice> {
    if |matches| == 1 then Some(Choice(Some(matches[0]), false))
    else if |matches| > 1 then Some(Choice(None, true))
    else None
  }

  function OnlyMatch(matches: seq<Candidate>): Option<Choice> {
    if |matches| == 1 then Some(Choice(Some(matches[0]), false)) else None
  }

  function First(a: Option<Choice>, b: Option<Choice>): Option<Choice> {
    if a.Some? then a else b
  }

  /** An SL/TP line completes the opening it follows, or the only incomplete one that fits. */
  function CompletesOpening(q: Query, e: seq<Candidate>): Option<Choice> {
    if !q.action.ModifySlTp? then None
    else First(if q.messageId.Some? then OnlyMatch(Keep(q, AdjacentOpening, e)) else None,
               Decide(Keep(q, IncompleteOpening, e)))
  }

  function FollowsOne(q: Query, e: seq<Candidate>): Option<Choice> {
    if Manages(q.action) && q.messageId.Some? then OnlyMatch(Keep(q, Adjacent, e)) else None
  }

  /** What an edited or quoted message settles. */
  function ByLink(q: Query, e: seq<Candidate>): Option<Choice> {
    First(if q.isEdit && q.messageId.Some? then Decide(Keep(q, EditMatch, e)) else None,
          if q.replyTo.Some? then Decide(Keep(q, ReplyMatch, e)) else None)
  }

  function Explicit(q: Query, e: seq<Candidate>): Option<Choice> {
    First(CompletesOpening(q, e), First(FollowsOne(q, e), ByLink(q, e)))
  }

  predicate NamesSymbol(q: Query) {
    NormalizeSymbol(q.symbol).Some? && NormalizeSymbol(q.symbol).value != ""
  }

  /** A full close may take the most recent of several exact matches. */
  function BySymbol(q: Query, m: seq<Candidate>): Choice {
    var exact := Keep(q, Exact, m);
    if |exact| > 1 && q.action.FullClose? then Choice(Some(exact[0]), false)
    else
      var c := First(Decide(exact), Decide(Keep(q, Unresolved, m)));
      if c.Some? then c.value else Choice(None, false)
  }

  function Implicit(q: Query, m: seq<Candidate>): Choice {
    if |m| == 1 then
      var d := NormalizeDirection(q.direction);
      if d.Some? && d.value != "" && NormalizeDirection(m[0].direction) != d then Choice(None, false)
      else Choice(Some(m[0]), false)
    else Choice(None, |m| > 1)
  }

  function Resolve(q: Query, ordered: seq<Candidate>): Choice {
    var e := Keep(q, Eligible, ordered);
    var c := Explicit(q, e);
    if c.Some? then c.value
    else
      var m := Keep(q, Matchable, e);
      if NamesSymbol(q) then BySymbol(q, m) else Implicit(q, m)
  }

  function ChooseConversation(q: Query, candidates: seq<Candidate>): Choice {
    Resolve(q, Recent(candidates))
  }

  // ---------------------------------------------------------------- filters and order

  lemma KeepMultiset(q: Query, test: Test, s: seq<Candidate>, c: Candidate)
    ensures multiset(Keep(q, test, s))[c] == if Passes(q, test, c) then multiset(s)[c] else 0
  {
    if s != [] {
      KeepMultiset(q, test, s[1..], c);
      assert s == [s[0]] + s[1..];
    }
  }

  /** Filters do not look at the order. */
  lemma KeepPermutes(q: Query, test: Test, s: seq<Candidate>, t: seq<Candidate>)
    requires multiset(s) == multiset(t)
    ensures multiset(Keep(q, test, s)) == multiset(Keep(q, test, t))
  {
    forall c: Candidate
      ensures multiset(Keep(q, test, s))[c] == multiset(Keep(q, test, t))[c]
    {
      KeepMultiset(q, test, s, c);
      KeepMultiset(q, test, t, c);
    }
  }

  lemma KeepMembers(q: Query, test: Test, s: seq<Candidate>)
    ensures forall c :: c in Keep(q, test, s) <==> c in s && Passes(q, test, c)
  {
    if s != [] {
      KeepMembers(q, test, s[1..]);
      assert s == [s[0]] + s[1..];
    }
  }

  lemma JoinsAlike(a: seq<Candidate>, b: seq<Candidate>, c: seq<Candidate>)
    ensures a + (b + c) == (a + b) + c
  {
  }

  lemma KeepFirst(q: Query, test: Test, s: seq<Candidate>)
    requires s != []
    ensures Keep(q, test, s) == (if Passes(q, test, s[0]) then [s[0]] else []) + Keep(q, test, s[1..])
  {
  }

  lemma {:induction false} KeepAppend(q: Query, test: Test, s: seq<Candidate>, t: seq<Candidate>)
    ensures Keep(q, test, s + t) == Keep(q, test, s) + Keep(q, test, t)
  {
    if s == [] {
      assert s + t == t;
    } else {
      var u := s + t;
      var first := if Passes(q, test, s[0]) then [s[0]] else [];
      assert u[0] == s[0] && u[1..] == s[1..] + t;
      KeepFirst(q, test, u);
      KeepFirst(q, test, s);
      KeepAppend(q, test, s[1..], t);
      JoinsAlike(first, Keep(q, test, s[1..]), Keep(q, test, t));
    }
  }

  lemma InsertMultiset(x: Candidate, s: seq<Candidate>)
    ensures multiset(Insert(x, s)) == multiset(s) + multiset{x}
  {
    if s != [] && s[0].updatedAt > x.updatedAt {
      InsertMultiset(x, s[1..]);
      assert s == [s[0]] + s[1..];
    }
  }

  ghost predicate Descending(s: seq<Candidate>) {
    forall i, j :: 0 <= i < j < |s| ==> s[i].updatedAt >= s[j].updatedAt
  }

  lemma {:induction false} InsertDescends(x: Candidate, s: seq<Candidate>)
    requires Descending(s)
    ensures Descending(Insert(x, s))
  {
    if s != [] && s[0].updatedAt > x.updatedAt {
      InsertDescends(x, s[1..]);
      InsertMultiset(x, s[1..]);
      var r := Insert(x, s[1..]);
      forall j | 0 <= j < |r|
        ensures r[j].updatedAt <= s[0].updatedAt
      {
        assert r[j] in multiset(r);
        assert r[j] == x || r[j] in s[1..];
      }
    }
  }

  /** Ordering by recency is a permutation in descending order. */
  lemma {:induction false} RecentSorts(s: seq<Candidate>)
    ensures multiset(Recent(s)) == multiset(s)
    ensures Descending(Recent(s))
  {
    if s != [] {
      RecentSorts(s[1..]);
      InsertMultiset(s[0], Recent(s[1..]));
      InsertDescends(s[0], Recent(s[1..]));
      assert s == [s[0]] + s[1..];
    }
  }

  lemma SameSize(s: seq<Candidate>, t: seq<Candidate>)
    requires multiset(s) == multiset(t)
    ensures |s| == |t|
    ensures |s| == 1 ==> s[0] == t[0]
  {
    assert |s| == |multiset(s)| == |multiset(t)| == |t|;
    if |s| == 1 {
      assert s[0] in multiset(t);
    }
  }

  // ---------------------------------------------------------------- the order does not matter

  lemma KeepSettles(q: Query, test: Test, s: seq<Candidate>, t: seq<Candidate>)
    requires multiset(s) == multiset(t)
    ensures Decide(Keep(q, test, s)) == Decide(Keep(q, test, t))
    ensures OnlyMatch(Keep(q, test, s)) == OnlyMatch(Keep(q, test, t))
    ensures |Keep(q, test, s)| == |Keep(q, test, t)|
  {
    KeepPermutes(q, test, s, t);
    SameSize(Keep(q, test, s), Keep(q, test, t));
  }

  lemma ExplicitPermutes(q: Query, s: seq<Candidate>, t: seq<Candidate>)
    requires multiset(s) == multiset(t)
    ensures Explicit(q, s) == Explicit(q, t)
  {
    KeepSettles(q, AdjacentOpening, s, t);
    KeepSettles(q, IncompleteOpening, s, t);
    KeepSettles(q, Adjacent, s, t);
    KeepSettles(q, EditMatch, s, t);
    KeepSettles(q, ReplyMatch, s, t);
  }

  /** The candidates left when nothing explicit settles the choice. */
  function Matching(q: Query, s: seq<Candidate>): seq<Candidate> {
    Keep(q, Matchable, Keep(q, Eligible, s))
  }

  function ExactMatches(q: Query, s: seq<Candidate>): seq<Candidate> {
    Keep(q, Exact, Matching(q, s))
  }

  /** The one branch that looks at recency: a full close of a named symbol with several exact matches. */
  predicate TakesLatest(q: Query, s: seq<Candidate>) {
    q.action.FullClose? && NamesSymbol(q) && Explicit(q, Keep(q, Eligible, s)).None? && |ExactMatches(q, s)| > 1
  }

  lemma TakesLatestPermutes(q: Query, s: seq<Candidate>, t: seq<Candidate>)
    requires multiset(s) == multiset(t)
    ensures TakesLatest(q, s) == TakesLatest(q, t)
    ensures multiset(ExactMatches(q, s)) == multiset(ExactMatches(q, t))
  {
    KeepPermutes(q, Eligible, s, t);
    ExplicitPermutes(q, Keep(q, Eligible, s), Keep(q, Eligible, t));
    KeepPermutes(q, Matchable, Keep(q, Eligible, s), Keep(q, Eligible, t));
    KeepPermutes(q, Exact, Matching(q, s), Matching(q, t));
    SameSize(ExactMatches(q, s), ExactMatches(q, t));
  }

  lemma BySymbolPermutes(q: Query, m: seq<Candidate>, n: seq<Candidate>)
    requires multiset(m) == multiset(n) && !(q.action.FullClose? && |Keep(q, Exact, m)| > 1)
    ensures BySymbol(q, m) == BySymbol(q, n)
  {
    KeepSettles(q, Exact, m, n);
    KeepSettles(q, Unresolved, m, n);
  }

  lemma ImplicitPermutes(q: Query, m: seq<Candidate>, n: seq<Candidate>)
    requires multiset(m) == multiset(n)
    ensures Implicit(q, m) == Implicit(q, n)
  {
    SameSize(m, n);
  }

  lemma ResolvePermutes(q: Query, s: seq<Candidate>, t: seq<Candidate>)
    requires multiset(s) == multiset(t) && !TakesLatest(q, s)
    ensures Resolve(q, s) == Resolve(q, t)
  {
    var e, f := Keep(q, Eligible, s), Keep(q, Eligible, t);
    KeepPermutes(q, Eligible, s, t);
    ExplicitPermutes(q, e, f);
    if Explicit(q, e).None? {
      KeepPermutes(q, Matchable, e, f);
      if NamesSymbol(q) {
        BySymbolPermutes(q, Matching(q, s), Matching(q, t));
      } else {
        ImplicitPermutes(q, Matching(q, s), Matching(q, t));
      }
    }
  }

  /** Every action but a full close gets the same answer for every order of the candidates, tied
      timestamps or not. */
  lemma OrderIrrelevant(q: Query, s: seq<Candidate>, t: seq<Candidate>)
    requires multiset(s) == multiset(t) && !q.action.FullClose?
    ensures ChooseConversation(q, s) == ChooseConversation(q, t)
  {
    RecentSorts(s);
    RecentSorts(t);
    ResolvePermutes(q, Recent(s), Recent(t));
  }

  // ---------------------------------------------------------------- full close

  /** No other exact match is more recent than `c`. */
  predicate IsLatest(q: Query, s: seq<Candidate>, c: Candidate) {
    c in ExactMatches(q, s) && forall d :: d in ExactMatches(q, s) ==> d.updatedAt <= c.updatedAt
  }

  /** Two different exact matches share the most recent timestamp. */
  ghost predicate LatestTied(q: Query, s: seq<Candidate>) {
    exists c, d :: c != d && IsLatest(q, s, c) && IsLatest(q, s, d)
  }

  lemma {:induction false} KeepDescends(q: Query, test: Test, s: seq<Candidate>)
    requires Descending(s)
    ensures Descending(Keep(q, test, s))
  {
    if s != [] {
      KeepDescends(q, test, s[1..]);
      KeepMembers(q, test, s[1..]);
      var r := Keep(q, test, s[1..]);
      forall j | 0 <= j < |r|
        ensures r[j].updatedAt <= s[0].updatedAt
      {
        assert r[j] in r;
        assert r[j] in s[1..];
      }
    }
  }

  lemma ExactMembers(q: Query, s: seq<Candidate>, c: Candidate)
    ensures c in ExactMatches(q, s) <==>
              c in s && Passes(q, Eligible, c) && Passes(q, Matchable, c) && Passes(q, Exact, c)
  {
    KeepMembers(q, Eligible, s);
    KeepMembers(q, Matchable, Keep(q, Eligible, s));
    KeepMembers(q, Exact, Matching(q, s));
  }

  lemma LatestPermutes(q: Query, s: seq<Candidate>, t: seq<Candidate>, c: Candidate)
    requires multiset(s) == multiset(t)
    ensures IsLatest(q, s, c) == IsLatest(q, t, c)
  {
    TakesLatestPermutes(q, s, t);
    assert forall d :: d in ExactMatches(q, s) <==> d in multiset(ExactMatches(q, s));
    assert forall d :: d in ExactMatches(q, t) <==> d in multiset(ExactMatches(q, t));
  }

  /** Where a full close takes the latest, it takes an exact match than which none is more recent. */
  lemma FullCloseTakesLatest(q: Query, s: seq<Candidate>)
    requires TakesLatest(q, s)
    ensures ChooseConversation(q, s).selected.Some? && !ChooseConversation(q, s).ambiguous
    ensures IsLatest(q, s, ChooseConversation(q, s).selected.value)
  {
    var r := Recent(s);
    RecentSorts(s);
    TakesLatestPermutes(q, s, r);
    KeepDescends(q, Eligible, r);
    KeepDescends(q, Matchable, Keep(q, Eligible, r));
    KeepDescends(q, Exact, Matching(q, r));
    var exact := ExactMatches(q, r);
    assert ChooseConversation(q, s) == Choice(Some(exact[0]), false);
    assert IsLatest(q, r, exact[0]);
    LatestPermutes(q, s, r, exact[0]);
  }

  lemma InsertSplits(x: Candidate, s: seq<Candidate>) returns (k: nat)
    ensures k <= |s| && Insert(x, s) == s[..k] + [x] + s[k..]
    ensures forall i :: 0 <= i < k ==> s[i].updatedAt > x.updatedAt
  {
    if s == [] || s[0].updatedAt <= x.updatedAt {
      k := 0;
    } else {
      var j := InsertSplits(x, s[1..]);
      k := j + 1;
      assert s[..k] == [s[0]] + s[1..][..j];
      assert s[k..] == s[1..][j..];
    }
  }

  lemma NoneKept(q: Query, test: Test, s: seq<Candidate>)
    requires forall c :: c in s ==> !Passes(q, test, c)
    ensures Keep(q, test, s) == []
  {
    if s != [] {
      assert s[0] in s;
      NoneKept(q, test, s[1..]);
    }
  }

  lemma AllKept(q: Query, test: Test, s: seq<Candidate>)
    requires forall c :: c in s ==> Passes(q, test, c)
    ensures Keep(q, test, s) == s
  {
    if s != [] {
      assert s[0] in s;
      AllKept(q, test, s[1..]);
    }
  }

  lemma ExactAppend(q: Query, s: seq<Candidate>, t: seq<Candidate>)
    ensures ExactMatches(q, s + t) == ExactMatches(q, s) + ExactMatches(q, t)
  {
    KeepAppend(q, Eligible, s, t);
    KeepAppend(q, Matchable, Keep(q, Eligible, s), Keep(q, Eligible, t));
    KeepAppend(q, Exact, Matching(q, s), Matching(q, t));
  }

  /** What is more recent than a latest exact match is none itself. */
  lemma NoExactAbove(q: Query, s: seq<Candidate>, x: Candidate, above: seq<Candidate>)
    requires IsLatest(q, s, x)
    requires forall c :: c in above ==> c in s && c.updatedAt > x.updatedAt
    ensures ExactMatches(q, above) == []
  {
    var found := ExactMatches(q, above);
    if found != [] {
      ExactMembers(q, above, found[0]);
      ExactMembers(q, s, found[0]);
      assert false;
    }
  }

  /** A latest exact match that is listed first is the one ordered first. */
  lemma FirstListedLeads(q: Query, x: Candidate, rest: seq<Candidate>)
    requires IsLatest(q, [x] + rest, x)
    ensures ExactMatches(q, Recent([x] + rest)) != [] && ExactMatches(q, Recent([x] + rest))[0] == x
  {
    var whole, r := [x] + rest, Recent(rest);
    assert whole[1..] == rest;
    var k := InsertSplits(x, r);
    RecentSorts(rest);
    forall c | c in r[..k]
      ensures c in whole && c.updatedAt > x.updatedAt
    {
      assert c in multiset(r);
      assert c in multiset(rest);
    }
    NoExactAbove(q, whole, x, r[..k]);
    ExactMembers(q, whole, x);
    AllKept(q, Eligible, [x]);
    AllKept(q, Matchable, [x]);
    AllKept(q, Exact, [x]);
    ExactAppend(q, r[..k], [x]);
    ExactAppend(q, r[..k] + [x], r[k..]);
  }

  lemma MoveFirst(s: seq<Candidate>, x: Candidate) returns (t: seq<Candidate>)
    requires x in s
    ensures t != [] && t[0] == x && multiset(t) == multiset(s)
  {
    var j :| 0 <= j < |s| && s[j] == x;
    t := [x] + (s[..j] + s[j + 1..]);
    assert s == s[..j] + [x] + s[j + 1..];
  }

  lemma ListedFirstIsTaken(q: Query, s: seq<Candidate>, x: Candidate) returns (t: seq<Candidate>)
    requires TakesLatest(q, s) && IsLatest(q, s, x)
    ensures multiset(t) == multiset(s)
    ensures ChooseConversation(q, t) == Choice(Some(x), false)
  {
    ExactMembers(q, s, x);
    t := MoveFirst(s, x);
    assert t == [x] + t[1..];
    TakesLatestPermutes(q, s, t);
    LatestPermutes(q, s, t, x);
    FirstListedLeads(q, x, t[1..]);
    RecentSorts(t);
    TakesLatestPermutes(q, t, Recent(t));
  }

  ghost predicate OrderFree(q: Query, s: seq<Candidate>) {
    forall t :: multiset(t) == multiset(s) ==> ChooseConversation(q, t) == ChooseConversation(q, s)
  }

  lemma UntiedIsOrderFree(q: Query, s: seq<Candidate>, t: seq<Candidate>)
    requires multiset(s) == multiset(t)
    requires !(TakesLatest(q, s) && LatestTied(q, s))
    ensures ChooseConversation(q, s) == ChooseConversation(q, t)
  {
    RecentSorts(s);
    RecentSorts(t);
    TakesLatestPermutes(q, s, Recent(s));
    if TakesLatest(q, s) {
      TakesLatestPermutes(q, s, t);
      FullCloseTakesLatest(q, s);
      FullCloseTakesLatest(q, t);
      LatestPermutes(q, s, t, ChooseConversation(q, t).selected.value);
    } else {
      ResolvePermutes(q, Recent(s), Recent(t));
    }
  }

  /** The answer is the same for every order of the candidates exactly when the recency branch is
      not reached or its most recent exact match is not tied with another one. */
  lemma OrderFreeExactly(q: Query, s: seq<Candidate>)
    ensures OrderFree(q, s) <==> !(TakesLatest(q, s) && LatestTied(q, s))
  {
    if TakesLatest(q, s) && LatestTied(q, s) {
      var c, d :| c != d && IsLatest(q, s, c) && IsLatest(q, s, d);
      var t := ListedFirstIsTaken(q, s, c);
      var u := ListedFirstIsTaken(q, s, d);
      assert ChooseConversation(q, t) != ChooseConversation(q, u);
    } else {
      forall t | multiset(t) == multiset(s)
        ensures ChooseConversation(q, t) == ChooseConversation(q, s)
      {
        UntiedIsOrderFree(q, s, t);
      }
    }
  }

  /** In particular distinct timestamps suffice. */
  lemma DistinctTimesOrderFree(q: Query, s: seq<Candidate>)
    requires forall c, d :: c in s && d in s && c != d ==> c.updatedAt != d.updatedAt
    ensures OrderFree(q, s)
  {
    if LatestTied(q, s) {
      var c, d :| c != d && IsLatest(q, s, c) && IsLatest(q, s, d);
      ExactMembers(q, s, c);
      ExactMembers(q, s, d);
      assert false;
    }
    OrderFreeExactly(q, s);
  }

  /** Two live positions in one symbol, touched at the same moment: a full close takes the one listed first. */
  lemma TiedFullCloseDependsOnOrder()
    ensures exists q, s, t :: multiset(s) == multiset(t) && ChooseConversation(q, s) != ChooseConversation(q, t)
  {
    var q := Query(None, Some("A"), None, FullClose, None, false);
    var c := Candidate(1, None, 1, Some("A"), None, 0, true, true);
    var d := c.(id := 2);
    var s := [c, d];
    assert Squeeze("A") == "A" by {
      assert "A"[1..] == "";
    }
    AllKept(q, Eligible, s);
    AllKept(q, Matchable, s);
    AllKept(q, Exact, s);
    assert IsLatest(q, s, c) && IsLatest(q, s, d) by {
      assert s[0] == c && s[1] == d;
    }
    OrderFreeExactly(q, s);
  }

  // ---------------------------------------------------------------- what is selected

  lemma DecideMembers(q: Query, test: Test, s: seq<Candidate>)
    ensures var c := Decide(Keep(q, test, s));
            c.Some? && c.value.selected.Some? ==>
              !c.value.ambiguous && c.value.selected.value in s && Passes(q, test, c.value.selected.value)
    ensures var c := OnlyMatch(Keep(q, test, s));
            c.Some? && c.value.selected.Some? ==>
              !c.value.ambiguous && c.value.selected.value in s && Passes(q, test, c.value.selected.value)
  {
    KeepMembers(q, test, s);
  }

  ghost predicate Sound(c: Choice, s: seq<Candidate>) {
    c.selected.Some? ==> !c.ambiguous && c.selected.value in s
  }

  lemma ExplicitSound(q: Query, e: seq<Candidate>)
    ensures Explicit(q, e).Some? ==> Sound(Explicit(q, e).value, e)
  {
    DecideMembers(q, AdjacentOpening, e);
    DecideMembers(q, IncompleteOpening, e);
    DecideMembers(q, Adjacent, e);
    DecideMembers(q, EditMatch, e);
    DecideMembers(q, ReplyMatch, e);
  }

  lemma BySymbolSound(q: Query, m: seq<Candidate>)
    ensures Sound(BySymbol(q, m), m)
  {
    DecideMembers(q, Exact, m);
    DecideMembers(q, Unresolved, m);
    KeepMembers(q, Exact, m);
    var exact := Keep(q, Exact, m);
    if |exact| > 1 && q.action.FullClose? {
      assert exact[0] in exact;
    }
  }

  lemma ResolveSound(q: Query, r: seq<Candidate>)
    ensures Sound(Resolve(q, r), Keep(q, Eligible, r))
  {
    var e := Keep(q, Eligible, r);
    ExplicitSound(q, e);
    if Explicit(q, e).None? {
      BySymbolSound(q, Keep(q, Matchable, e));
      KeepMembers(q, Matchable, e);
    }
  }

  /** Any selection is an unambiguous candidate that meets the action's rule: a management action
      has a live trade to manage, and an SL/TP line alternatively an opening not yet submitted. */
  lemma SelectionMeetsRule(q: Query, s: seq<Candidate>, c: Candidate)
    requires ChooseConversation(q, s).selected == Some(c)
    ensures !ChooseConversation(q, s).ambiguous
    ensures c in s
    ensures Manages(q.action) ==> c.hasActiveTrade || (q.action.ModifySlTp? && !c.openingSubmitted)
  {
    RecentSorts(s);
    ResolveSound(q, Recent(s));
    KeepMembers(q, Eligible, Recent(s));
    assert c in multiset(Recent(s));
  }

  /** The candidates that an edited message, or else the quoted message, points to. */
  function Linked(q: Query, s: seq<Candidate>): seq<Candidate> {
    if q.isEdit && Keep(q, EditMatch, s) != [] then Keep(q, EditMatch, s) else Keep(q, ReplyMatch, s)
  }

  lemma OpeningAllEligible(q: Query, s: seq<Candidate>)
    requires Opens(q.action)
    ensures Keep(q, Eligible, s) == s
  {
    if s != [] {
      OpeningAllEligible(q, s[1..]);
    }
  }

  lemma ByLinkIsLinked(q: Query, s: seq<Candidate>)
    ensures ByLink(q, s) == Decide(Linked(q, s))
  {
    if q.messageId.None? {
      NoneKept(q, EditMatch, s);
    }
    if q.replyTo.None? {
      NoneKept(q, ReplyMatch, s);
    }
  }

  lemma LinkedPermutes(q: Query, s: seq<Candidate>, t: seq<Candidate>)
    requires multiset(s) == multiset(t)
    ensures Decide(Linked(q, s)) == Decide(Linked(q, t))
  {
    KeepSettles(q, EditMatch, s, t);
    KeepSettles(q, ReplyMatch, s, t);
  }

  /** Without a link an opening action selects a conversation not yet submitted. */
  lemma UnlinkedIsUnsubmitted(q: Query, r: seq<Candidate>, c: Candidate)
    requires Opens(q.action) && ByLink(q, r).None? && Resolve(q, r).selected == Some(c)
    ensures !c.openingSubmitted
  {
    OpeningAllEligible(q, r);
    var m := Keep(q, Matchable, r);
    KeepMembers(q, Matchable, r);
    BySymbolSound(q, m);
    assert Explicit(q, r).None?;
    assert c in m;
    assert Passes(q, Matchable, c);
  }

  lemma LinkAnswers(q: Query, r: seq<Candidate>)
    requires Opens(q.action) && ByLink(q, r).Some?
    ensures Resolve(q, r) == ByLink(q, r).value
  {
    OpeningAllEligible(q, r);
  }

  /** An opening action selects a conversation whose opening was already submitted exactly when an
      edit or reply points to that conversation alone; otherwise it selects a not yet submitted one. */
  lemma OpeningRuleExactly(q: Query, s: seq<Candidate>, c: Candidate)
    requires Opens(q.action) && c.openingSubmitted
    ensures ChooseConversation(q, s).selected == Some(c) <==> Linked(q, s) == [c]
  {
    var r := Recent(s);
    RecentSorts(s);
    ByLinkIsLinked(q, r);
    LinkedPermutes(q, s, r);
    if ByLink(q, r).Some? {
      LinkAnswers(q, r);
      assert |Linked(q, s)| == 1 ==> Linked(q, s) == [Linked(q, s)[0]];
    } else if Resolve(q, r).selected == Some(c) {
      UnlinkedIsUnsubmitted(q, r, c);
      assert false;
    }
  }

  lemma KeepShrinks(q: Query, test: Test, s: seq<Candidate>)
    ensures |Keep(q, test, s)| <= |s|
  {
  }

  lemma AmbiguousExplicit(q: Query, e: seq<Candidate>)
    requires Explicit(q, e).Some? && Explicit(q, e).value.ambiguous
    ensures |e| > 1
  {
    KeepShrinks(q, IncompleteOpening, e);
    KeepShrinks(q, EditMatch, e);
    KeepShrinks(q, ReplyMatch, e);
  }

  lemma AmbiguousMatch(q: Query, m: seq<Candidate>)
    requires BySymbol(q, m).ambiguous || Implicit(q, m).ambiguous
    ensures |m| > 1
  {
    KeepShrinks(q, Exact, m);
    KeepShrinks(q, Unresolved, m);
  }

  /** An answer is ambiguous only when several eligible conversations compete. */
  lemma AmbiguousMeansSeveral(q: Query, s: seq<Candidate>)
    requires ChooseConversation(q, s).ambiguous
    ensures |Keep(q, Eligible, s)| > 1
  {
    RecentSorts(s);
    KeepSettles(q, Eligible, s, Recent(s));
    var e := Keep(q, Eligible, Recent(s));
    if Explicit(q, e).Some? {
      AmbiguousExplicit(q, e);
    } else {
      AmbiguousMatch(q, Keep(q, Matchable, e));
      KeepShrinks(q, Matchable, e);
    }
  }

  // ---------------------------------------------------------------- every branch, by counting candidates

  /** What the branches of the resolver look for, in terms of the candidates' fields. */
  datatype Criterion = FollowedOpening | FittingOpening | Followed | Edited | Quoted | Possible | SameName | Nameless

  ghost predicate IsManagement(a: Action) {
    match a
    case ModifySlTp => true
    case BreakEven => true
    case PartialClose => true
    case FullClose => true
    case CancelPending => true
    case AdditionalTp => true
    case _ => false
  }

  /** The action's rule: a live trade to manage, or for an SL/TP line alternatively an opening not yet submitted. */
  ghost predicate MayServe(q: Query, c: Candidate) {
    IsManagement(q.action) ==> c.hasActiveTrade || (q.action == ModifySlTp && !c.openingSubmitted)
  }

  /** An opening action without a link wants an opening not yet submitted. */
  ghost predicate MayOpen(q: Query, c: Candidate) {
    q.action == OpenMarket || q.action == PlacePending ==> !c.openingSubmitted
  }

  ghost predicate SameWay(q: Query, c: Candidate) {
    NormalizeDirection(q.direction) == None || NormalizeDirection(c.direction) == NormalizeDirection(q.direction)
  }

  ghost predicate Meets(q: Query, k: Criterion, c: Candidate) {
    MayServe(q, c) &&
    match k
    case FollowedOpening => !c.openingSubmitted && q.messageId == Some(c.lastMessage + 1)
    case FittingOpening =>
      && !c.openingSubmitted && SameWay(q, c)
      && (NormalizeSymbol(q.symbol) == None || NormalizeSymbol(c.symbol) == NormalizeSymbol(q.symbol))
    case Followed => q.messageId == Some(c.lastMessage + 1)
    case Edited => q.messageId.Some? && (q.messageId == c.replyRoot || q.messageId.value == c.lastMessage)
    case Quoted => q.replyTo.Some? && (q.replyTo == c.replyRoot || q.replyTo.value == c.lastMessage)
    case Possible => MayOpen(q, c)
    case SameName => MayOpen(q, c) && SameWay(q, c) && NormalizeSymbol(c.symbol) == NormalizeSymbol(q.symbol)
    case Nameless =>
      MayOpen(q, c) && NormalizeSymbol(c.symbol) == None && (SameWay(q, c) || NormalizeDirection(c.direction) == None)
  }

  /** How many positions of the list hold a candidate that meets the criterion. */
  ghost function Number(q: Query, k: Criterion, s: seq<Candidate>): nat {
    if s == [] then 0 else (if Meets(q, k, s[0]) then 1 else 0) + Number(q, k, s[1..])
  }

  /** The answer is a candidate that meets the criterion. */
  ghost predicate Finds(q: Query, k: Criterion, s: seq<Candidate>, r: Choice) {
    r.selected.Some? && !r.ambiguous && r.selected.value in s && Meets(q, k, r.selected.value)
  }

  /** The only candidate that meets the criterion is the answer, and several make it ambiguous. */
  ghost predicate SettledBy(q: Query, k: Criterion, s: seq<Candidate>, r: Choice) {
    if Number(q, k, s) == 1 then Finds(q, k, s, r) else r == Choice(None, true)
  }

  /** The filters that a criterion stands for. */
  ghost function Filtered(q: Query, k: Criterion, s: seq<Candidate>): seq<Candidate> {
    var e := Keep(q, Eligible, s);
    match k
    case FollowedOpening => Keep(q, AdjacentOpening, e)
    case FittingOpening => Keep(q, IncompleteOpening, e)
    case Followed => Keep(q, Adjacent, e)
    case Edited => Keep(q, EditMatch, e)
    case Quoted => Keep(q, ReplyMatch, e)
    case Possible => Keep(q, Matchable, e)
    case SameName => Keep(q, Exact, Keep(q, Matchable, e))
    case Nameless => Keep(q, Unresolved, Keep(q, Matchable, e))
  }

  lemma KeepOne(q: Query, test: Test, c: Candidate, rest: seq<Candidate>)
    ensures Keep(q, test, [c] + rest) == (if Passes(q, test, c) then [c] else []) + Keep(q, test, rest)
  {
    assert ([c] + rest)[1..] == rest;
  }

  lemma TwoFilters(q: Query, t: Test, u: Test, s: seq<Candidate>)
    requires s != []
    ensures Keep(q, u, Keep(q, t, s)) ==
            (if Passes(q, t, s[0]) && Passes(q, u, s[0]) then [s[0]] else []) + Keep(q, u, Keep(q, t, s[1..]))
  {
    KeepFirst(q, t, s);
    if Passes(q, t, s[0]) {
      KeepOne(q, u, s[0], Keep(q, t, s[1..]));
    } else {
      assert Keep(q, t, s) == Keep(q, t, s[1..]);
    }
  }

  lemma ThreeFilters(q: Query, u: Test, s: seq<Candidate>)
    requires s != []
    ensures Keep(q, u, Keep(q, Matchable, Keep(q, Eligible, s))) ==
            (if Passes(q, Eligible, s[0]) && Passes(q, Matchable, s[0]) && Passes(q, u, s[0]) then [s[0]] else [])
            + Keep(q, u, Keep(q, Matchable, Keep(q, Eligible, s[1..])))
  {
    TwoFilters(q, Eligible, Matchable, s);
    var m := Keep(q, Matchable, Keep(q, Eligible, s[1..]));
    if Passes(q, Eligible, s[0]) && Passes(q, Matchable, s[0]) {
      KeepOne(q, u, s[0], m);
    } else {
      assert Keep(q, Matchable, Keep(q, Eligible, s)) == m;
    }
  }

  lemma FilteredFirst(q: Query, k: Criterion, s: seq<Candidate>)
    requires s != []
    ensures Filtered(q, k, s) == (if Meets(q, k, s[0]) then [s[0]] else []) + Filtered(q, k, s[1..])
  {
    match k
    case FollowedOpening => TwoFilters(q, Eligible, AdjacentOpening, s);
    case FittingOpening => TwoFilters(q, Eligible, IncompleteOpening, s);
    case Followed => TwoFilters(q, Eligible, Adjacent, s);
    case Edited => TwoFilters(q, Eligible, EditMatch, s);
    case Quoted => TwoFilters(q, Eligible, ReplyMatch, s);
    case Possible => TwoFilters(q, Eligible, Matchable, s);
    case SameName => ThreeFilters(q, Exact, s);
    case Nameless => ThreeFilters(q, Unresolved, s);
  }

  /** The filters keep exactly the candidates that meet the criterion. */
  lemma {:induction false} FilteredExactly(q: Query, k: Criterion, s: seq<Candidate>)
    ensures |Filtered(q, k, s)| == Number(q, k, s)
    ensures forall c :: c in Filtered(q, k, s) <==> c in s && Meets(q, k, c)
  {
    if s != [] {
      FilteredFirst(q, k, s);
      FilteredExactly(q, k, s[1..]);
      assert s == [s[0]] + s[1..];
    }
  }

  lemma FilteredPermutes(q: Query, k: Criterion, s: seq<Candidate>, t: seq<Candidate>)
    requires multiset(s) == multiset(t)
    ensures Number(q, k, s) == Number(q, k, t)
  {
    KeepPermutes(q, Eligible, s, t);
    var e, f := Keep(q, Eligible, s), Keep(q, Eligible, t);
    KeepPermutes(q, Matchable, e, f);
    forall test
      ensures multiset(Keep(q, test, e)) == multiset(Keep(q, test, f))
      ensures multiset(Keep(q, test, Keep(q, Matchable, e))) == multiset(Keep(q, test, Keep(q, Matchable, f)))
    {
      KeepPermutes(q, test, e, f);
      KeepPermutes(q, test, Keep(q, Matchable, e), Keep(q, Matchable, f));
    }
    SameSize(Filtered(q, k, s), Filtered(q, k, t));
    FilteredExactly(q, k, s);
    FilteredExactly(q, k, t);
  }

  /** What the most recent first order of the candidates keeps. */
  lemma RecentCounts(q: Query, s: seq<Candidate>)
    ensures forall c :: c in Recent(s) <==> c in s
    ensures forall k :: Number(q, k, Recent(s)) == Number(q, k, s)
  {
    RecentSorts(s);
    forall c
      ensures c in Recent(s) <==> c in s
    {
      assert c in multiset(Recent(s)) <==> c in multiset(s);
    }
    forall k
      ensures Number(q, k, Recent(s)) == Number(q, k, s)
    {
      FilteredPermutes(q, k, Recent(s), s);
    }
  }

  lemma DecideSettles(q: Query, k: Criterion, s: seq<Candidate>)
    ensures Decide(Filtered(q, k, s)).Some? <==> Number(q, k, s) >= 1
    ensures Number(q, k, s) >= 1 ==> SettledBy(q, k, s, Decide(Filtered(q, k, s)).value)
    ensures OnlyMatch(Filtered(q, k, s)).Some? <==> Number(q, k, s) == 1
    ensures Number(q, k, s) == 1 ==> Finds(q, k, s, OnlyMatch(Filtered(q, k, s)).value)
  {
    FilteredExactly(q, k, s);
    if Number(q, k, s) == 1 {
      assert Filtered(q, k, s)[0] in Filtered(q, k, s);
    }
  }

  lemma SettledSame(q: Query, k: Criterion, s: seq<Candidate>, r: Choice)
    ensures SettledBy(q, k, Recent(s), r) <==> SettledBy(q, k, s, r)
    ensures Finds(q, k, Recent(s), r) <==> Finds(q, k, s, r)
  {
    RecentCounts(q, s);
  }

  /** An SL/TP line is settled by the one opening it directly follows, or by the incomplete openings that fit. */
  ghost predicate CompletionSettles(q: Query, s: seq<Candidate>) {
    q.action == ModifySlTp && (Number(q, FollowedOpening, s) == 1 || Number(q, FittingOpening, s) >= 1)
  }

  /** A management message is settled by the one eligible conversation it directly follows. */
  ghost predicate FollowingSettles(q: Query, s: seq<Candidate>) {
    IsManagement(q.action) && Number(q, Followed, s) == 1
  }

  ghost predicate LinkSettles(q: Query, s: seq<Candidate>) {
    (q.isEdit && Number(q, Edited, s) >= 1) || Number(q, Quoted, s) >= 1
  }

  lemma NoMessageNoMatch(q: Query, s: seq<Candidate>)
    ensures q.messageId.None? ==> Number(q, FollowedOpening, s) == 0 && Number(q, Followed, s) == 0 && Number(q, Edited, s) == 0
    ensures q.replyTo.None? ==> Number(q, Quoted, s) == 0
  {
    if s != [] {
      NoMessageNoMatch(q, s[1..]);
    }
  }

  lemma OrderedCompletion(q: Query, r: seq<Candidate>)
    ensures CompletesOpening(q, Keep(q, Eligible, r)).Some? <==> CompletionSettles(q, r)
    ensures CompletionSettles(q, r) ==>
              (var a := CompletesOpening(q, Keep(q, Eligible, r)).value;
               if Number(q, FollowedOpening, r) == 1 then Finds(q, FollowedOpening, r, a) else SettledBy(q, FittingOpening, r, a))
  {
    NoMessageNoMatch(q, r);
    DecideSettles(q, FollowedOpening, r);
    DecideSettles(q, FittingOpening, r);
  }

  lemma OrderedFollowing(q: Query, r: seq<Candidate>)
    ensures FollowsOne(q, Keep(q, Eligible, r)).Some? <==> FollowingSettles(q, r)
    ensures FollowingSettles(q, r) ==> Finds(q, Followed, r, FollowsOne(q, Keep(q, Eligible, r)).value)
  {
    NoMessageNoMatch(q, r);
    DecideSettles(q, Followed, r);
  }

  lemma OrderedLink(q: Query, r: seq<Candidate>)
    ensures ByLink(q, Keep(q, Eligible, r)).Some? <==> LinkSettles(q, r)
    ensures LinkSettles(q, r) ==>
              SettledBy(q, if q.isEdit && Number(q, Edited, r) >= 1 then Edited else Quoted, r, ByLink(q, Keep(q, Eligible, r)).value)
  {
    NoMessageNoMatch(q, r);
    DecideSettles(q, Edited, r);
    DecideSettles(q, Quoted, r);
  }

  lemma SettlesAlike(q: Query, s: seq<Candidate>)
    ensures CompletionSettles(q, Recent(s)) == CompletionSettles(q, s)
    ensures FollowingSettles(q, Recent(s)) == FollowingSettles(q, s)
    ensures LinkSettles(q, Recent(s)) == LinkSettles(q, s)
  {
    RecentCounts(q, s);
  }

  /** An SL/TP line goes to the only opening not yet submitted that it directly follows; otherwise to the only
      one that fits its symbol and direction, and several that fit make it ambiguous. */
  lemma CompletionDecides(q: Query, s: seq<Candidate>)
    requires CompletionSettles(q, s)
    ensures Number(q, FollowedOpening, s) == 1 ==> Finds(q, FollowedOpening, s, ChooseConversation(q, s))
    ensures Number(q, FollowedOpening, s) != 1 ==> SettledBy(q, FittingOpening, s, ChooseConversation(q, s))
  {
    OrderedCompletion(q, Recent(s));
    SettlesAlike(q, s);
    RecentCounts(q, s);
    SettledSame(q, FollowedOpening, s, ChooseConversation(q, s));
    SettledSame(q, FittingOpening, s, ChooseConversation(q, s));
  }

  /** Otherwise a management message goes to the only eligible conversation it directly follows. */
  lemma FollowingDecides(q: Query, s: seq<Candidate>)
    requires !CompletionSettles(q, s) && FollowingSettles(q, s)
    ensures Finds(q, Followed, s, ChooseConversation(q, s))
  {
    OrderedCompletion(q, Recent(s));
    OrderedFollowing(q, Recent(s));
    SettlesAlike(q, s);
    SettledSame(q, Followed, s, ChooseConversation(q, s));
  }

  /** Otherwise, for every action, the only eligible conversation that the edited message points to is the
      answer, or else the only one that the quoted message points to; several make it ambiguous. */
  lemma LinkDecides(q: Query, s: seq<Candidate>)
    requires !CompletionSettles(q, s) && !FollowingSettles(q, s) && LinkSettles(q, s)
    ensures SettledBy(q, if q.isEdit && Number(q, Edited, s) >= 1 then Edited else Quoted, s, ChooseConversation(q, s))
  {
    OrderedCompletion(q, Recent(s));
    OrderedFollowing(q, Recent(s));
    OrderedLink(q, Recent(s));
    SettlesAlike(q, s);
    RecentCounts(q, s);
    SettledSame(q, Edited, s, ChooseConversation(q, s));
    SettledSame(q, Quoted, s, ChooseConversation(q, s));
  }

  ghost predicate Unsettled(q: Query, s: seq<Candidate>) {
    !CompletionSettles(q, s) && !FollowingSettles(q, s) && !LinkSettles(q, s)
  }

  lemma OrderedUnsettled(q: Query, s: seq<Candidate>)
    requires Unsettled(q, s)
    ensures Explicit(q, Keep(q, Eligible, Recent(s))).None?
  {
    OrderedCompletion(q, Recent(s));
    OrderedFollowing(q, Recent(s));
    OrderedLink(q, Recent(s));
    SettlesAlike(q, s);
  }

  /** Without any of these a named symbol decides: the only conversation with that symbol and a fitting
      direction; if there is none, the only one without a symbol; several make the answer ambiguous, except
      that a full close takes a most recent one of those with the symbol; and none of either kind means none. */
  lemma SymbolDecides(q: Query, s: seq<Candidate>)
    requires Unsettled(q, s) && NormalizeSymbol(q.symbol).Some? && NormalizeSymbol(q.symbol).value != ""
    ensures Number(q, SameName, s) >= 1 && !(q.action == FullClose && Number(q, SameName, s) > 1) ==>
              SettledBy(q, SameName, s, ChooseConversation(q, s))
    ensures Number(q, SameName, s) > 1 && q.action == FullClose ==>
              Finds(q, SameName, s, ChooseConversation(q, s))
              && forall c :: c in s && Meets(q, SameName, c) ==> c.updatedAt <= ChooseConversation(q, s).selected.value.updatedAt
    ensures Number(q, SameName, s) == 0 && Number(q, Nameless, s) >= 1 ==> SettledBy(q, Nameless, s, ChooseConversation(q, s))
    ensures Number(q, SameName, s) == 0 && Number(q, Nameless, s) == 0 ==> ChooseConversation(q, s) == Choice(None, false)
  {
    var r := Recent(s);
    OrderedUnsettled(q, s);
    RecentCounts(q, s);
    DecideSettles(q, SameName, r);
    DecideSettles(q, Nameless, r);
    FilteredExactly(q, SameName, r);
    SettledSame(q, SameName, s, ChooseConversation(q, s));
    SettledSame(q, Nameless, s, ChooseConversation(q, s));
    if Number(q, SameName, s) > 1 && q.action == FullClose {
      LatestByName(q, s);
    }
  }

  lemma LatestByName(q: Query, s: seq<Candidate>)
    requires Unsettled(q, s) && NormalizeSymbol(q.symbol).Some? && NormalizeSymbol(q.symbol).value != ""
    requires Number(q, SameName, s) > 1 && q.action == FullClose
    ensures Finds(q, SameName, s, ChooseConversation(q, s))
    ensures forall c :: c in s && Meets(q, SameName, c) ==> c.updatedAt <= ChooseConversation(q, s).selected.value.updatedAt
  {
    var r := Recent(s);
    OrderedUnsettled(q, s);
    RecentCounts(q, s);
    FilteredExactly(q, SameName, r);
    FilteredExactly(q, SameName, s);
    RecentSorts(s);
    assert TakesLatest(q, r);
    TakesLatestPermutes(q, s, r);
    FullCloseTakesLatest(q, s);
    assert ExactMatches(q, s) == Filtered(q, SameName, s);
  }

  /** Without a symbol, too, the only possible conversation is the answer, unless the message names a direction
      that is not its own; several make the answer ambiguous. */
  lemma OnlyPossibleDecides(q: Query, s: seq<Candidate>)
    requires Unsettled(q, s) && (NormalizeSymbol(q.symbol).None? || NormalizeSymbol(q.symbol).value == "")
    ensures Number(q, Possible, s) == 1 ==>
              exists c :: c in s && Meets(q, Possible, c) && ChooseConversation(q, s) ==
                if NormalizeDirection(q.direction).None? || NormalizeDirection(q.direction).value == ""
                   || NormalizeDirection(c.direction) == NormalizeDirection(q.direction)
                then Choice(Some(c), false) else Choice(None, false)
    ensures Number(q, Possible, s) != 1 ==> ChooseConversation(q, s) == Choice(None, Number(q, Possible, s) > 1)
  {
    var r := Recent(s);
    OrderedUnsettled(q, s);
    RecentCounts(q, s);
    FilteredExactly(q, Possible, r);
    if Number(q, Possible, s) == 1 {
      assert Filtered(q, Possible, r)[0] in Filtered(q, Possible, r);
    }
  }

  // ---------------------------------------------------------------- normal forms, character by character

  /** Normalizing a symbol keeps the letters and digits in order, in upper case, and drops everything else. */
  lemma {:induction false} SqueezeJoins(s: string, t: string)
    ensures Squeeze(s + t) == Squeeze(s) + Squeeze(t)
  {
    if s == "" {
      assert s + t == t;
    } else {
      SqueezeJoins(s[1..], t);
      assert (s + t)[1..] == s[1..] + t;
    }
  }

  lemma SqueezeOne(c: char)
    ensures 'A' <= c <= 'Z' || '0' <= c <= '9' ==> Squeeze([c]) == [c]
    ensures 'a' <= c <= 'z' ==> Squeeze([c]) == [(c as int - 'a' as int + 'A' as int) as char]
    ensures !('A' <= c <= 'Z') && !('a' <= c <= 'z') && !('0' <= c <= '9') ==> Squeeze([c]) == ""
  {
    assert [c][1..] == "";
  }
}
