/**
 The result cache of the analysis tools and the per-account data versions that key it.

 A sync commits new trades of an account and afterwards increments the account's counter.  A tool
 call reads the counters of its accounts, in the order of its argument, builds a key from them and
 returns a stored result under that key, or runs the tool and stores its result.  Commits, counter
 increments, version reads, look-ups, the reads a tool makes account by account, and stores are
 separate steps of any number of workers and tool threads.
 */
module ToolCache {
  import opened Prelude

  /** Accounts are numbered in the order of their identifiers. */
  type Account = nat

  // ---------------------------------------------------------------- keys

  function Insert(x: nat, s: seq<nat>): seq<nat> {
    if s == [] || x <= s[0] then [x] + s else [s[0]] + Insert(x, s[1..])
  }

  function Sort(s: seq<nat>): seq<nat> {
    if s == [] then [] else Insert(s[0], Sort(s[1..]))
  }

  function Digit(d: nat): char
    requires d < 10
  {
    ['0', '1', '2', '3', '4', '5', '6', '7', '8', '9'][d]
  }

  /** Decimal notation of a counter. */
  function Decimal(n: nat): string {
    if n < 10 then [Digit(n)] else Decimal(n / 10) + [Digit(n % 10)]
  }

  /** The counters joined by colons, in call order. */
  function Join(versions: seq<nat>): string
    requires versions != []
  {
    if |versions| == 1 then Decimal(versions[0])
    else Decimal(versions[0]) + ":" + Join(versions[1..])
  }

  function VersionString(versions: seq<nat>): string {
    if versions == [] then "0" else Join(versions)
  }

  datatype Key = Key(tool: string, args: string, accounts: seq<Account>, version: string)

  /** Sorted accounts, but versions in call order. */
  function MakeKey(tool: string, args: string, accounts: seq<Account>, versions: seq<nat>): Key {
    Key(tool, args, Sort(accounts), VersionString(versions))
  }

  // ---------------------------------------------------------------- state

  /** An increment of `account`'s counter by the sync that made commit number `sync`, when there were
      `upto` commits. */
  datatype Bump = Bump(account: Account, sync: nat, upto: nat)

  /** A tool call past its version read: `at` increments had happened then. `seen` maps an account
      to the number of commits its data included when the tool read it. */
  datatype Call = Call(tool: string, args: string, accounts: seq<Account>, versions: seq<nat>, at: nat,
                       looked: bool, seen: map<Account, nat>)

  /** A version read that some call made. */
  datatype VersionRead = VersionRead(key: Key, accounts: seq<Account>, versions: seq<nat>, at: nat)

  /** What a tool is asked. */
  datatype Question = Question(tool: string, args: string, accounts: seq<Account>)

  /** A stored result, with the question it was computed for. */
  datatype Entry = Entry(question: Question, versions: seq<nat>, at: nat, seen: map<Account, nat>)

  /** A result given to a caller who asked `question` and whose version read saw `at` increments; it was
      computed for `source`. */
  datatype Served = Served(question: Question, source: Question, at: nat, seen: map<Account, nat>, hit: bool)

  datatype State = State(
    commits: seq<Account>,
    pending: set<nat>,
    counters: map<Account, nat>,
    bumps: seq<Bump>,
    calls: map<nat, Call>,
    history: seq<VersionRead>,
    cache: map<Key, Entry>,
    served: seq<Served>)

  const Empty := State([], {}, map[], [], map[], [], map[], [])

  datatype Step =
    | Commit(account: Account)
    | BumpVersion(sync: nat)
    | LoseBump(sync: nat)
    | ReadVersions(tool: string, args: string, accounts: seq<Account>)
    | Lookup(call: nat)
    | ReadAccount(call: nat, account: Account)
    | StoreResult(call: nat)
    | Expire(key: Key)

  function Counter(s: State, a: Account): nat {
    if a in s.counters then s.counters[a] else 0
  }

  function Versions(s: State, accounts: seq<Account>): seq<nat> {
    seq(|accounts|, i requires 0 <= i < |accounts| => Counter(s, accounts[i]))
  }

  function QuestionOf(c: Call): Question {
    Question(c.tool, c.args, c.accounts)
  }

  function KeyOf(c: Call): Key {
    MakeKey(c.tool, c.args, c.accounts, c.versions)
  }

  predicate Complete(c: Call) {
    forall a :: a in c.accounts ==> a in c.seen
  }

  predicate Enabled(s: State, step: Step) {
    match step
    case Commit(_) => true
    case BumpVersion(id) => id in s.pending && id < |s.commits|
    case LoseBump(id) => id in s.pending
    case ReadVersions(_, _, _) => true
    case Lookup(c) => c in s.calls && !s.calls[c].looked
    case ReadAccount(c, a) => c in s.calls && s.calls[c].looked && a in s.calls[c].accounts && a !in s.calls[c].seen
    case StoreResult(c) => c in s.calls && s.calls[c].looked && Complete(s.calls[c])
    case Expire(_) => true
  }

  function ApplyBump(s: State, id: nat): State
    requires id < |s.commits|
  {
    var a := s.commits[id];
    s.(pending := s.pending - {id},
       counters := s.counters[a := Counter(s, a) + 1],
       bumps := s.bumps + [Bump(a, id, |s.commits|)])
  }

  function ApplyLookup(s: State, c: nat): State
    requires c in s.calls
  {
    var call := s.calls[c];
    if KeyOf(call) in s.cache then
      s.(calls := s.calls - {c},
         served := s.served + [Served(QuestionOf(call), s.cache[KeyOf(call)].question, call.at, s.cache[KeyOf(call)].seen, true)])
    else s.(calls := s.calls[c := call.(looked := true)])
  }

  function ApplyStore(s: State, c: nat): State
    requires c in s.calls
  {
    var call := s.calls[c];
    s.(calls := s.calls - {c},
       cache := s.cache[KeyOf(call) := Entry(QuestionOf(call), call.versions, call.at, call.seen)],
       served := s.served + [Served(QuestionOf(call), QuestionOf(call), call.at, call.seen, false)])
  }

  function Apply(s: State, step: Step): State
    requires Enabled(s, step)
  {
    match step
    case Commit(a) => s.(commits := s.commits + [a], pending := s.pending + {|s.commits|})
    case BumpVersion(id) => ApplyBump(s, id)
    case LoseBump(id) => s.(pending := s.pending - {id})
    case ReadVersions(tool, args, accounts) =>
      var versions := Versions(s, accounts);
      s.(calls := s.calls[|s.history| := Call(tool, args, accounts, versions, |s.bumps|, false, map[])],
         history := s.history + [VersionRead(MakeKey(tool, args, accounts, versions), accounts, versions, |s.bumps|)])
    case Lookup(c) => ApplyLookup(s, c)
    case ReadAccount(c, a) =>
      s.(calls := s.calls[c := s.calls[c].(seen := s.calls[c].seen[a := |s.commits|])])
    case StoreResult(c) => ApplyStore(s, c)
    case Expire(k) => s.(cache := s.cache - {k})
  }

  ghost predicate Executes(s: State, steps: seq<Step>)
    decreases |steps|
  {
    steps == [] || (Enabled(s, steps[0]) && Executes(Apply(s, steps[0]), steps[1..]))
  }

  ghost function Run(s: State, steps: seq<Step>): State
    requires Executes(s, steps)
    decreases |steps|
  {
    if steps == [] then s else Run(Apply(s, steps[0]), steps[1..])
  }

  // ---------------------------------------------------------------- sorting

  lemma InsertMembers(x: nat, s: seq<nat>, y: nat)
    ensures y in Insert(x, s) <==> y == x || y in s
  {
    if s != [] && !(x <= s[0]) {
      InsertMembers(x, s[1..], y);
      assert s == [s[0]] + s[1..];
    }
  }

  lemma {:induction false} SortMembers(s: seq<nat>, y: nat)
    ensures y in Sort(s) <==> y in s
  {
    if s != [] {
      InsertMembers(s[0], Sort(s[1..]), y);
      SortMembers(s[1..], y);
      assert s == [s[0]] + s[1..];
    }
  }

  lemma InsertCommutes(x: nat, y: nat, s: seq<nat>)
    ensures Insert(x, Insert(y, s)) == Insert(y, Insert(x, s))
  {
    if s != [] && x > s[0] && y > s[0] {
      InsertCommutes(x, y, s[1..]);
      assert ([s[0]] + Insert(x, s[1..]))[1..] == Insert(x, s[1..]);
      assert ([s[0]] + Insert(y, s[1..]))[1..] == Insert(y, s[1..]);
    } else if s != [] {
      assert ([x] + s)[1..] == s && ([y] + s)[1..] == s;
      assert ([s[0]] + Insert(x, s[1..]))[1..] == Insert(x, s[1..]);
      assert ([s[0]] + Insert(y, s[1..]))[1..] == Insert(y, s[1..]);
    } else {
      assert [x][1..] == [] && [y][1..] == [];
    }
  }

  /** Swapping an element to the front does not change the sorted list. */
  lemma SortMoveFront(p: seq<nat>, x: nat, q: seq<nat>)
    ensures Sort(p + [x] + q) == Insert(x, Sort(p + q))
  {
    if p == [] {
      assert p + [x] + q == [x] + q && p + q == q;
      assert ([x] + q)[1..] == q;
    } else {
      SortMoveFront(p[1..], x, q);
      assert (p + [x] + q)[1..] == p[1..] + [x] + q;
      assert (p + q)[1..] == p[1..] + q;
      InsertCommutes(p[0], x, Sort(p[1..] + q));
    }
  }

  lemma Pick(t: seq<nat>, x: nat) returns (j: nat)
    requires x in t
    ensures j < |t| && t == t[..j] + [x] + t[j + 1..]
    ensures multiset(t) == multiset(t[..j] + t[j + 1..]) + multiset{x}
  {
    j :| j < |t| && t[j] == x;
    assert t == t[..j] + [x] + t[j + 1..];
  }

  lemma CancelOne(m: multiset<nat>, n: multiset<nat>, x: nat)
    requires m + multiset{x} == n + multiset{x}
    ensures m == n
  {
    assert (m + multiset{x}) - multiset{x} == m && (n + multiset{x}) - multiset{x} == n;
  }

  lemma FirstOf(s: seq<nat>)
    requires s != []
    ensures multiset(s) == multiset(s[1..]) + multiset{s[0]}
  {
    assert s == [s[0]] + s[1..];
  }

  lemma {:induction false} SortCanonical(s: seq<nat>, t: seq<nat>)
    requires multiset(s) == multiset(t)
    ensures Sort(s) == Sort(t)
  {
    if s == [] {
      assert |multiset(t)| == 0;
      assert t == [];
    } else {
      assert s[0] in multiset(s);
      var j := Pick(t, s[0]);
      FirstOf(s);
      var rest := t[..j] + t[j + 1..];
      CancelOne(multiset(s[1..]), multiset(rest), s[0]);
      SortCanonical(s[1..], rest);
      SortMoveFront(t[..j], s[0], t[j + 1..]);
    }
  }

  lemma InsertMultiset(x: nat, s: seq<nat>)
    ensures multiset(Insert(x, s)) == multiset(s) + multiset{x}
  {
    if s != [] && !(x <= s[0]) {
      InsertMultiset(x, s[1..]);
      assert s == [s[0]] + s[1..];
    }
  }

  lemma {:induction false} SortMultiset(s: seq<nat>)
    ensures multiset(Sort(s)) == multiset(s)
  {
    if s != [] {
      InsertMultiset(s[0], Sort(s[1..]));
      SortMultiset(s[1..]);
      assert s == [s[0]] + s[1..];
    }
  }

  /** The account part of the key is blind to the order of the accounts, and to nothing else. */
  lemma SortsAlikeExactly(s: seq<nat>, t: seq<nat>)
    ensures Sort(s) == Sort(t) <==> multiset(s) == multiset(t)
  {
    SortMultiset(s);
    SortMultiset(t);
    if multiset(s) == multiset(t) {
      SortCanonical(s, t);
    }
  }

  // ---------------------------------------------------------------- version strings

  lemma DecimalPlain(n: nat)
    ensures Decimal(n) != [] && ':' !in Decimal(n)
  {
  }

  lemma DecimalSplits(n: nat)
    requires n >= 10
    ensures Decimal(n) != [] && Decimal(n)[..|Decimal(n)| - 1] == Decimal(n / 10)
    ensures |Decimal(n)| > 1
  {
    DecimalPlain(n / 10);
  }

  lemma LastDigit(m: nat, n: nat)
    requires Decimal(m) == Decimal(n)
    ensures m % 10 == n % 10
  {
    DecimalPlain(m);
    var s := Decimal(m);
    assert s[|s| - 1] == Digit(m % 10) == Digit(n % 10);
  }

  lemma {:induction false} DecimalInjective(m: nat, n: nat)
    requires Decimal(m) == Decimal(n)
    ensures m == n
  {
    LastDigit(m, n);
    if m >= 10 {
      DecimalSplits(m);
      if n >= 10 {
        DecimalSplits(n);
        DecimalInjective(m / 10, n / 10);
      }
    } else if n >= 10 {
      DecimalSplits(n);
    }
  }

  lemma FirstColon(s: string, r: string, t: string, q: string)
    requires ':' !in s && ':' !in t && s + ":" + r == t + ":" + q
    ensures s == t && r == q
  {
    var whole := s + ":" + r;
    assert whole[|s|] == ':' && whole[|t|] == ':';
    assert forall i :: 0 <= i < |s| ==> whole[i] == s[i];
    assert forall i :: 0 <= i < |t| ==> whole[i] == t[i];
    assert |s| == |t|;
    assert s == whole[..|s|] && t == whole[..|t|];
    assert r == whole[|s| + 1..] && q == whole[|t| + 1..];
  }

  /** Equal version strings list equal versions. */
  lemma {:induction false} JoinInjective(v: seq<nat>, w: seq<nat>)
    requires v != [] && |v| == |w| && Join(v) == Join(w)
    ensures v == w
  {
    if |v| == 1 {
      DecimalInjective(v[0], w[0]);
    } else {
      DecimalPlain(v[0]);
      DecimalPlain(w[0]);
      FirstColon(Decimal(v[0]), Join(v[1..]), Decimal(w[0]), Join(w[1..]));
      DecimalInjective(v[0], w[0]);
      JoinInjective(v[1..], w[1..]);
    }
  }

  /** Calls with the same key ask the same tool the same arguments about the same accounts, and list the
      same versions in call order. */
  lemma KeySeparatesExactly(t: string, x: string, s: seq<Account>, v: seq<nat>, u: string, y: string, r: seq<Account>, w: seq<nat>)
    requires |v| == |s| && |w| == |r|
    ensures MakeKey(t, x, s, v) == MakeKey(u, y, r, w) <==> t == u && x == y && multiset(s) == multiset(r) && v == w
  {
    SortsAlikeExactly(s, r);
    if multiset(s) == multiset(r) {
      assert |s| == |multiset(s)| == |multiset(r)| == |r|;
      if v != [] && VersionString(v) == VersionString(w) {
        JoinInjective(v, w);
      }
    }
  }

  // ---------------------------------------------------------------- counters only grow

  /** The value of the counter of `a` after these increments. */
  ghost function Count(bumps: seq<Bump>, a: Account): nat {
    if bumps == [] then 0
    else Count(bumps[..|bumps| - 1], a) + if bumps[|bumps| - 1].account == a then 1 else 0
  }

  ghost function Sum(versions: seq<nat>): nat {
    if versions == [] then 0 else versions[0] + Sum(versions[1..])
  }

  /** The counters of the listed accounts added up. */
  ghost function Total(bumps: seq<Bump>, accounts: seq<Account>): nat {
    if accounts == [] then 0 else Count(bumps, accounts[0]) + Total(bumps, accounts[1..])
  }

  ghost function VersionsAt(bumps: seq<Bump>, accounts: seq<Account>): seq<nat> {
    seq(|accounts|, i requires 0 <= i < |accounts| => Count(bumps, accounts[i]))
  }

  lemma CountAppend(bumps: seq<Bump>, b: Bump, a: Account)
    ensures Count(bumps + [b], a) == Count(bumps, a) + if b.account == a then 1 else 0
  {
    DropAppended(bumps, b);
  }

  /** A later reading is larger by at least the increments in between. */
  lemma {:induction false} CountGrows(bumps: seq<Bump>, m: nat, n: nat, a: Account)
    requires m <= n <= |bumps|
    ensures Count(bumps[..m], a) <= Count(bumps[..n], a)
    ensures (exists i :: m <= i < n && bumps[i].account == a) ==> Count(bumps[..m], a) < Count(bumps[..n], a)
    decreases n
  {
    if m < n {
      CountGrows(bumps, m, n - 1, a);
      assert bumps[..n] == bumps[..n - 1] + [bumps[n - 1]];
      CountAppend(bumps[..n - 1], bumps[n - 1], a);
    }
  }

  lemma TotalInsert(bumps: seq<Bump>, x: Account, s: seq<Account>)
    ensures Total(bumps, Insert(x, s)) == Count(bumps, x) + Total(bumps, s)
  {
    if s == [] || x <= s[0] {
      assert ([x] + s)[1..] == s;
    } else {
      TotalInsert(bumps, x, s[1..]);
      assert ([s[0]] + Insert(x, s[1..]))[1..] == Insert(x, s[1..]);
    }
  }

  lemma {:induction false} TotalSort(bumps: seq<Bump>, s: seq<Account>)
    ensures Total(bumps, Sort(s)) == Total(bumps, s)
  {
    if s != [] {
      TotalInsert(bumps, s[0], Sort(s[1..]));
      TotalSort(bumps, s[1..]);
    }
  }

  lemma {:induction false} TotalIsSum(bumps: seq<Bump>, s: seq<Account>)
    ensures Sum(VersionsAt(bumps, s)) == Total(bumps, s)
  {
    if s != [] {
      TotalIsSum(bumps, s[1..]);
      assert VersionsAt(bumps, s)[1..] == VersionsAt(bumps, s[1..]);
    }
  }

  /** Of two readings the earlier total is the smaller, and equal totals mean equal counters. */
  lemma {:induction false} TotalGrows(bumps: seq<Bump>, m: nat, n: nat, s: seq<Account>, a: Account)
    requires m <= n <= |bumps|
    ensures Total(bumps[..m], s) <= Total(bumps[..n], s)
    ensures a in s && Total(bumps[..m], s) == Total(bumps[..n], s) ==> Count(bumps[..m], a) == Count(bumps[..n], a)
  {
    if s != [] {
      CountGrows(bumps, m, n, s[0]);
      TotalGrows(bumps, m, n, s[1..], a);
    }
  }

  lemma SameKeyOrdered(bumps: seq<Bump>, s: seq<Account>, m: nat, t: seq<Account>, n: nat, a: Account)
    requires m <= n <= |bumps| && Sort(s) == Sort(t) && a in s
    requires VersionsAt(bumps[..m], s) == VersionsAt(bumps[..n], t)
    ensures Count(bumps[..m], a) == Count(bumps[..n], a)
  {
    TotalIsSum(bumps[..m], s);
    TotalIsSum(bumps[..n], t);
    TotalSort(bumps[..n], s);
    TotalSort(bumps[..n], t);
    TotalGrows(bumps, m, n, s, a);
  }

  /** Two calls that build the same key saw the same version of every account, although the key
      does not say which version belongs to which account: counters only grow, and equal lists
      have equal sums. */
  lemma SameKeySameVersions(bumps: seq<Bump>, s: seq<Account>, m: nat, t: seq<Account>, n: nat, a: Account)
    requires m <= |bumps| && n <= |bumps| && a in s
    requires Sort(s) == Sort(t)
    requires VersionString(VersionsAt(bumps[..m], s)) == VersionString(VersionsAt(bumps[..n], t))
    ensures a in t
    ensures Count(bumps[..m], a) == Count(bumps[..n], a)
  {
    SortMembers(s, a);
    SortMembers(t, a);
    SortMultiset(s);
    SortMultiset(t);
    assert |s| == |multiset(s)| == |multiset(t)| == |t|;
    JoinInjective(VersionsAt(bumps[..m], s), VersionsAt(bumps[..n], t));
    if m <= n {
      SameKeyOrdered(bumps, s, m, t, n, a);
    } else {
      SameKeyOrdered(bumps, t, n, s, m, a);
    }
  }

  // ---------------------------------------------------------------- invariant

  /** Data that included the first `n` commits has everything committed before any of the first `at`
      increments of `a`. */
  ghost predicate Includes(bumps: seq<Bump>, at: nat, a: Account, n: nat) {
    forall i :: 0 <= i < at && i < |bumps| && bumps[i].account == a ==> bumps[i].upto <= n
  }

  ghost predicate Fresh(bumps: seq<Bump>, at: nat, seen: map<Account, nat>) {
    at <= |bumps| && forall a :: a in seen ==> Includes(bumps, at, a, seen[a])
  }

  ghost predicate CallOk(bumps: seq<Bump>, c: Call) {
    Fresh(bumps, c.at, c.seen) && c.versions == VersionsAt(bumps[..c.at], c.accounts)
  }

  ghost predicate EntryOk(bumps: seq<Bump>, k: Key, e: Entry) {
    && Fresh(bumps, e.at, e.seen)
    && e.versions == VersionsAt(bumps[..e.at], e.question.accounts)
    && k.tool == e.question.tool && k.args == e.question.args && k.accounts == Sort(e.question.accounts)
    && k.version == VersionString(e.versions)
    && (forall a :: a in e.question.accounts ==> a in e.seen)
  }

  /** Every account of the call is answered, and the answer includes what the caller could know of. */
  /** The same question up to the order of the accounts. */
  predicate SameQuestion(q: Question, r: Question) {
    q.tool == r.tool && q.args == r.args && multiset(q.accounts) == multiset(r.accounts)
  }

  ghost predicate ServedOk(bumps: seq<Bump>, v: Served) {
    && v.at <= |bumps| && SameQuestion(v.question, v.source)
    && forall a :: a in v.question.accounts ==> a in v.seen && Includes(bumps, v.at, a, v.seen[a])
  }

  ghost predicate BumpsOk(s: State) {
    forall i :: 0 <= i < |s.bumps| ==>
      s.bumps[i].sync < s.bumps[i].upto <= |s.commits| && s.commits[s.bumps[i].sync] == s.bumps[i].account
  }

  ghost predicate CountersOk(s: State) {
    forall a :: Counter(s, a) == Count(s.bumps, a)
  }

  ghost predicate CallsOk(s: State) {
    forall c :: c in s.calls ==> CallOk(s.bumps, s.calls[c])
  }

  ghost predicate CacheOk(s: State) {
    forall k :: k in s.cache ==> EntryOk(s.bumps, k, s.cache[k])
  }

  ghost predicate AllServedOk(s: State) {
    forall i :: 0 <= i < |s.served| ==> ServedOk(s.bumps, s.served[i])
  }

  ghost predicate ReadOk(bumps: seq<Bump>, r: VersionRead) {
    && r.at <= |bumps| && r.versions == VersionsAt(bumps[..r.at], r.accounts)
    && r.key.accounts == Sort(r.accounts) && r.key.version == VersionString(r.versions)
  }

  ghost predicate HistoryOk(s: State) {
    forall i :: 0 <= i < |s.history| ==> ReadOk(s.bumps, s.history[i])
  }

  ghost predicate Inv(s: State) {
    BumpsOk(s) && CountersOk(s) && CallsOk(s) && CacheOk(s) && AllServedOk(s) && HistoryOk(s)
  }

  lemma FreshExtends(bumps: seq<Bump>, b: Bump, at: nat, seen: map<Account, nat>)
    requires Fresh(bumps, at, seen)
    ensures Fresh(bumps + [b], at, seen)
    ensures (bumps + [b])[..at] == bumps[..at]
  {
    forall a | a in seen
      ensures Includes(bumps + [b], at, a, seen[a])
    {
      assert Includes(bumps, at, a, seen[a]);
      assert forall i :: 0 <= i < at ==> (bumps + [b])[i] == bumps[i];
    }
  }

  lemma ServedExtends(bumps: seq<Bump>, b: Bump, v: Served)
    requires ServedOk(bumps, v)
    ensures ServedOk(bumps + [b], v)
  {
    forall a | a in v.question.accounts
      ensures Includes(bumps + [b], v.at, a, v.seen[a])
    {
      assert Includes(bumps, v.at, a, v.seen[a]);
      assert forall i :: 0 <= i < v.at ==> (bumps + [b])[i] == bumps[i];
    }
  }

  /** An increment leaves every earlier reading and every earlier result as they were. */
  lemma BumpKeeps(s: State, id: nat)
    requires Inv(s) && id < |s.commits|
    ensures Inv(ApplyBump(s, id))
  {
    var n := ApplyBump(s, id);
    var b := Bump(s.commits[id], id, |s.commits|);
    assert n.bumps == s.bumps + [b];
    forall a
      ensures Counter(n, a) == Count(n.bumps, a)
    {
      assert Counter(s, a) == Count(s.bumps, a);
      CountAppend(s.bumps, b, a);
    }
    forall c | c in n.calls
      ensures CallOk(n.bumps, n.calls[c])
    {
      assert CallOk(s.bumps, s.calls[c]);
      FreshExtends(s.bumps, b, s.calls[c].at, s.calls[c].seen);
    }
    forall k | k in n.cache
      ensures EntryOk(n.bumps, k, n.cache[k])
    {
      assert EntryOk(s.bumps, k, s.cache[k]);
      FreshExtends(s.bumps, b, s.cache[k].at, s.cache[k].seen);
    }
    forall i | 0 <= i < |n.served|
      ensures ServedOk(n.bumps, n.served[i])
    {
      assert ServedOk(s.bumps, s.served[i]);
      ServedExtends(s.bumps, b, s.served[i]);
    }
    forall i | 0 <= i < |n.history|
      ensures ReadOk(n.bumps, n.history[i])
    {
      assert ReadOk(s.bumps, s.history[i]);
      FreshExtends(s.bumps, b, s.history[i].at, map[]);
    }
  }

  /** A version read records the counters of that moment. */
  lemma ReadVersionsKeeps(s: State, tool: string, args: string, accounts: seq<Account>)
    requires Inv(s)
    ensures Inv(Apply(s, Step.ReadVersions(tool, args, accounts)))
  {
    var n := Apply(s, Step.ReadVersions(tool, args, accounts));
    assert s.bumps[..|s.bumps|] == s.bumps;
    assert Versions(s, accounts) == VersionsAt(s.bumps, accounts) by {
      forall i | 0 <= i < |accounts|
        ensures Counter(s, accounts[i]) == Count(s.bumps, accounts[i])
      {
      }
    }
    assert CallOk(n.bumps, n.calls[|s.history|]);
    forall c | c in n.calls
      ensures CallOk(n.bumps, n.calls[c])
    {
      if c != |s.history| {
        assert CallOk(s.bumps, s.calls[c]);
      }
    }
  }

  /** Data read now includes every sync that has incremented a counter: commits come first. */
  lemma ReadAccountKeeps(s: State, c: nat, a: Account)
    requires Inv(s) && Enabled(s, ReadAccount(c, a))
    ensures Inv(Apply(s, ReadAccount(c, a)))
  {
    var n := Apply(s, ReadAccount(c, a));
    assert CallOk(s.bumps, s.calls[c]);
    assert Includes(s.bumps, s.calls[c].at, a, |s.commits|);
    forall d | d in n.calls
      ensures CallOk(n.bumps, n.calls[d])
    {
      assert CallOk(s.bumps, s.calls[d]);
    }
  }

  /** A result stored under a caller's key includes every sync that caller could know of. */
  lemma HitIncludes(bumps: seq<Bump>, c: Call, e: Entry, a: Account)
    requires CallOk(bumps, c) && EntryOk(bumps, KeyOf(c), e) && a in c.accounts
    ensures a in e.seen && Includes(bumps, c.at, a, e.seen[a])
  {
    SameKeySameVersions(bumps, c.accounts, c.at, e.question.accounts, e.at, a);
    assert Includes(bumps, e.at, a, e.seen[a]);
    forall i | 0 <= i < c.at && bumps[i].account == a
      ensures bumps[i].upto <= e.seen[a]
    {
      if e.at <= i {
        CountGrows(bumps, e.at, c.at, a);
        assert false;
      }
    }
  }

  lemma LookupKeeps(s: State, c: nat)
    requires Inv(s) && c in s.calls
    ensures Inv(ApplyLookup(s, c))
  {
    var n, call := ApplyLookup(s, c), s.calls[c];
    assert CallOk(s.bumps, call);
    if KeyOf(call) in s.cache {
      var e := s.cache[KeyOf(call)];
      assert EntryOk(s.bumps, KeyOf(call), e);
      SortsAlikeExactly(call.accounts, e.question.accounts);
      forall a | a in call.accounts
        ensures a in e.seen && Includes(s.bumps, call.at, a, e.seen[a])
      {
        HitIncludes(s.bumps, call, e, a);
      }
      assert ServedOk(s.bumps, Served(QuestionOf(call), e.question, call.at, e.seen, true));
    }
    assert forall d :: d in n.calls ==> CallOk(s.bumps, s.calls[d]);
  }

  lemma StoreKeeps(s: State, c: nat)
    requires Inv(s) && Enabled(s, StoreResult(c))
    ensures Inv(ApplyStore(s, c))
  {
    var n, call := ApplyStore(s, c), s.calls[c];
    assert CallOk(s.bumps, call);
    assert ServedOk(s.bumps, Served(QuestionOf(call), QuestionOf(call), call.at, call.seen, false));
    assert EntryOk(s.bumps, KeyOf(call), Entry(QuestionOf(call), call.versions, call.at, call.seen));
    assert forall d :: d in n.calls ==> CallOk(s.bumps, s.calls[d]);
    assert forall k :: k in s.cache ==> EntryOk(s.bumps, k, s.cache[k]);
  }

  lemma StepKeeps(s: State, step: Step)
    requires Inv(s) && Enabled(s, step)
    ensures Inv(Apply(s, step))
  {
    match step
    case Commit(a) =>
    case BumpVersion(id) => BumpKeeps(s, id);
    case LoseBump(id) =>
      assert forall a :: Counter(s, a) == Counter(Apply(s, step), a);
    case ReadVersions(tool, args, accounts) => ReadVersionsKeeps(s, tool, args, accounts);
    case Lookup(c) => LookupKeeps(s, c);
    case ReadAccount(c, a) => ReadAccountKeeps(s, c, a);
    case StoreResult(c) => StoreKeeps(s, c);
    case Expire(k) =>
      assert forall a :: Counter(s, a) == Counter(Apply(s, step), a);
  }

  lemma {:induction false} RunKeeps(s: State, steps: seq<Step>)
    requires Inv(s) && Executes(s, steps)
    ensures Inv(Run(s, steps))
    decreases |steps|
  {
    if steps != [] {
      StepKeeps(s, steps[0]);
      RunKeeps(Apply(s, steps[0]), steps[1..]);
    }
  }

  // ---------------------------------------------------------------- what a caller gets

  /** The commits of one account among the first `n`: what a tool reading that account then sees. */
  ghost function Data(commits: seq<Account>, n: nat, a: Account): set<nat> {
    set i | 0 <= i < n && i < |commits| && commits[i] == a
  }

  /** An increment of the account among the first `at` came after commit `id`. */
  ghost predicate Announced(bumps: seq<Bump>, at: nat, a: Account, id: nat) {
    exists i :: 0 <= i < at && i < |bumps| && bumps[i].account == a && id < bumps[i].upto
  }

  /** Every sync of the account among the first `at` increments is among the first `n` commits. */
  ghost predicate SyncsSeen(bumps: seq<Bump>, at: nat, a: Account, n: nat) {
    forall i :: 0 <= i < at && i < |bumps| && bumps[i].account == a ==> bumps[i].sync < n
  }

  /** In every run, every result given out, from the cache or not, has data of every account of the
      call, including every commit before any increment of that account that was visible at the
      caller's version read; a sync's own increment is one such. */
  lemma FreshnessTheorem(steps: seq<Step>, k: nat, a: Account, id: nat)
    requires Executes(Empty, steps)
    requires k < |Run(Empty, steps).served| && a in Run(Empty, steps).served[k].question.accounts
    ensures a in Run(Empty, steps).served[k].seen
    ensures Announced(Run(Empty, steps).bumps, Run(Empty, steps).served[k].at, a, id) ==>
              id < Run(Empty, steps).served[k].seen[a]
    ensures SyncsSeen(Run(Empty, steps).bumps, Run(Empty, steps).served[k].at, a, Run(Empty, steps).served[k].seen[a])
  {
    assert Inv(Empty);
    RunKeeps(Empty, steps);
    var s := Run(Empty, steps);
    assert ServedOk(s.bumps, s.served[k]);
    assert Includes(s.bumps, s.served[k].at, a, s.served[k].seen[a]);
  }

  /** In every run a result, from the cache or not, was computed for the caller's own tool, arguments and
      accounts. */
  lemma ServedForOwnQuestion(steps: seq<Step>, k: nat)
    requires Executes(Empty, steps) && k < |Run(Empty, steps).served|
    ensures Run(Empty, steps).served[k].source.tool == Run(Empty, steps).served[k].question.tool
    ensures Run(Empty, steps).served[k].source.args == Run(Empty, steps).served[k].question.args
    ensures multiset(Run(Empty, steps).served[k].source.accounts) == multiset(Run(Empty, steps).served[k].question.accounts)
  {
    assert Inv(Empty);
    RunKeeps(Empty, steps);
    assert ServedOk(Run(Empty, steps).bumps, Run(Empty, steps).served[k]);
  }

  /** Every commit of the account came before some of the first `at` increments of the account. */
  ghost predicate AllAnnounced(s: State, at: nat, a: Account) {
    forall id :: 0 <= id < |s.commits| && s.commits[id] == a ==> Announced(s.bumps, at, a, id)
  }

  lemma AccountUpToDate(steps: seq<Step>, k: nat, a: Account)
    requires Executes(Empty, steps)
    requires k < |Run(Empty, steps).served| && a in Run(Empty, steps).served[k].question.accounts
    requires AllAnnounced(Run(Empty, steps), Run(Empty, steps).served[k].at, a)
    ensures a in Run(Empty, steps).served[k].seen
    ensures Data(Run(Empty, steps).commits, Run(Empty, steps).served[k].seen[a], a)
         == Data(Run(Empty, steps).commits, |Run(Empty, steps).commits|, a)
  {
    var s := Run(Empty, steps);
    FreshnessTheorem(steps, k, a, 0);
    forall id | id in Data(s.commits, |s.commits|, a)
      ensures id in Data(s.commits, s.served[k].seen[a], a)
    {
      FreshnessTheorem(steps, k, a, id);
    }
  }

  /** The data of the accounts of a question, as far as it was read. */
  ghost function View(commits: seq<Account>, q: Question, seen: map<Account, nat>): map<Account, set<nat>> {
    map a | a in q.accounts :: Data(commits, if a in seen then seen[a] else 0, a)
  }

  ghost function Everything(commits: seq<Account>, q: Question): map<Account, nat> {
    map a | a in q.accounts :: |commits|
  }

  /** The answer of a tool: a function of the tool, its arguments, the accounts in any order, and their data. */
  ghost function Answer<T>(f: (string, string, multiset<Account>, map<Account, set<nat>>) -> T, q: Question,
                           data: map<Account, set<nat>>): T
  {
    f(q.tool, q.args, multiset(q.accounts), data)
  }

  /** A result, cached or not, is the answer that asking the caller's own question again at the end of the
      run would give, if all commits of its accounts came before some increment that the caller saw. */
  lemma AgreesWithRerun<T>(f: (string, string, multiset<Account>, map<Account, set<nat>>) -> T, steps: seq<Step>, k: nat)
    requires Executes(Empty, steps) && k < |Run(Empty, steps).served|
    requires forall a :: a in Run(Empty, steps).served[k].question.accounts ==>
               AllAnnounced(Run(Empty, steps), Run(Empty, steps).served[k].at, a)
    ensures Answer(f, Run(Empty, steps).served[k].source,
                   View(Run(Empty, steps).commits, Run(Empty, steps).served[k].source, Run(Empty, steps).served[k].seen))
         == Answer(f, Run(Empty, steps).served[k].question,
                   View(Run(Empty, steps).commits, Run(Empty, steps).served[k].question,
                        Everything(Run(Empty, steps).commits, Run(Empty, steps).served[k].question)))
  {
    var s := Run(Empty, steps);
    var v := s.served[k];
    ServedForOwnQuestion(steps, k);
    assert forall a :: a in v.source.accounts <==> a in multiset(v.source.accounts);
    assert forall a :: a in v.question.accounts <==> a in multiset(v.question.accounts);
    forall a | a in v.question.accounts
      ensures a in v.seen && Data(s.commits, v.seen[a], a) == Data(s.commits, |s.commits|, a)
    {
      AccountUpToDate(steps, k, a);
    }
    assert View(s.commits, v.source, v.seen) == View(s.commits, v.question, Everything(s.commits, v.question));
  }

  /** Any two version reads of one run that built the same key, finished calls included, saw the same
      version of every account. */
  lemma SameKeySameReading(steps: seq<Step>, i: nat, j: nat, p: nat)
    requires Executes(Empty, steps)
    requires i < |Run(Empty, steps).history| && j < |Run(Empty, steps).history|
    requires Run(Empty, steps).history[i].key == Run(Empty, steps).history[j].key
    requires p < |Run(Empty, steps).history[i].accounts|
    ensures |Run(Empty, steps).history[i].versions| == |Run(Empty, steps).history[i].accounts|
    ensures |Run(Empty, steps).history[j].versions| == |Run(Empty, steps).history[j].accounts|
    ensures Run(Empty, steps).history[i].accounts[p] in Run(Empty, steps).history[j].accounts
    ensures forall q :: 0 <= q < |Run(Empty, steps).history[j].accounts| ==>
              Run(Empty, steps).history[j].accounts[q] == Run(Empty, steps).history[i].accounts[p] ==>
                Run(Empty, steps).history[j].versions[q] == Run(Empty, steps).history[i].versions[p]
  {
    assert Inv(Empty);
    RunKeeps(Empty, steps);
    var s := Run(Empty, steps);
    var r, t := s.history[i], s.history[j];
    assert ReadOk(s.bumps, r) && ReadOk(s.bumps, t);
    SameKeySameVersions(s.bumps, r.accounts, r.at, t.accounts, t.at, r.accounts[p]);
  }

  // ---------------------------------------------------------------- the shared store

  /** The committed trades, and the counters and cached results in Redis. The history and the calls
      between their steps are ghost. */
  class SharedStore {
    var commits: seq<Account>
    var counters: map<Account, nat>
    var results: map<Key, map<Account, nat>>
    ghost var pending: set<nat>
    ghost var bumps: seq<Bump>
    ghost var calls: map<nat, Call>
    ghost var history: seq<VersionRead>
    ghost var cache: map<Key, Entry>
    ghost var served: seq<Served>

    ghost function Abs(): State
      reads this
    {
      State(commits, pending, counters, bumps, calls, history, cache, served)
    }

    /** Redis holds the results of the cache. */
    ghost predicate Valid()
      reads this
    {
      results == map k | k in cache :: cache[k].seen
    }

    constructor ()
      ensures Valid() && Abs() == Empty
    {
      commits, counters, results := [], map[], map[];
      pending, bumps, calls, history, cache, served := {}, [], map[], [], map[], [];
    }

    method CommitSync(account: Account) returns (sync: nat)
      requires Valid()
      modifies this
      ensures Valid() && sync == old(|commits|)
      ensures Abs() == Apply(old(Abs()), Commit(account))
    {
      sync := |commits|;
      commits := commits + [account];
      pending := pending + {sync};
    }

    /** The increment that follows the commit of `sync`. */
    method BumpDataVersion(account: Account, ghost sync: nat)
      requires Valid() && Enabled(Abs(), BumpVersion(sync)) && commits[sync] == account
      modifies this
      ensures Valid() && Abs() == Apply(old(Abs()), BumpVersion(sync))
    {
      var v := if account in counters then counters[account] else 0;
      counters := counters[account := v + 1];
      pending, bumps := pending - {sync}, bumps + [Bump(account, sync, |commits|)];
    }

    /** The counters of the accounts in call order, a missing one read as zero, and the key they make. */
    method ReadVersions(tool: string, args: string, accounts: seq<Account>) returns (key: Key, ghost call: nat)
      requires Valid()
      modifies this
      ensures Valid() && call == old(|history|) && call in calls && key == KeyOf(calls[call])
      ensures Abs() == Apply(old(Abs()), Step.ReadVersions(tool, args, accounts))
    {
      var versions := [];
      for i := 0 to |accounts|
        invariant Valid() && Abs() == old(Abs())
        invariant versions == Versions(Abs(), accounts[..i])
      {
        var a := accounts[i];
        versions := versions + [if a in counters then counters[a] else 0];
      }
      assert accounts[..|accounts|] == accounts;
      key := MakeKey(tool, args, accounts, versions);
      call := |history|;
      calls := calls[call := Call(tool, args, accounts, versions, |bumps|, false, map[])];
      history := history + [VersionRead(key, accounts, versions, |bumps|)];
    }

    method Lookup(key: Key, ghost call: nat) returns (hit: Option<map<Account, nat>>)
      requires Valid() && Enabled(Abs(), Step.Lookup(call)) && key == KeyOf(calls[call])
      modifies this
      ensures Valid() && Abs() == Apply(old(Abs()), Step.Lookup(call))
      ensures hit.Some? <==> key in old(results)
      ensures hit.Some? ==> hit.value == old(results)[key]
    {
      ghost var c := calls[call];
      if key in results {
        hit := Some(results[key]);
        calls, served := calls - {call}, served + [Served(QuestionOf(c), cache[key].question, c.at, cache[key].seen, true)];
      } else {
        hit := None;
        calls := calls[call := c.(looked := true)];
      }
    }

    /** Stores what the tool computed from the data it read. */
    method StoreResult(key: Key, seen: map<Account, nat>, ghost call: nat)
      requires Valid() && Enabled(Abs(), Step.StoreResult(call)) && key == KeyOf(calls[call]) && seen == calls[call].seen
      modifies this
      ensures Valid() && Abs() == Apply(old(Abs()), Step.StoreResult(call))
      ensures results == old(results)[key := seen]
    {
      ghost var c := calls[call];
      results := results[key := seen];
      cache := cache[key := Entry(QuestionOf(c), c.versions, c.at, seen)];
      calls, served := calls - {call}, served + [Served(QuestionOf(c), QuestionOf(c), c.at, seen, false)];
    }
  }
}
