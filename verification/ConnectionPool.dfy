/**
 The pool of broker connections, shared by coroutines on one event loop.

 `entries` holds warm connections, `opening` the one open task per account.  Code between two awaits
 runs without interruption.  No section under the pool's lock contains an await, so the lock is free
 whenever a coroutine asks for it, and taking a free lock does not suspend: the sections under the
 lock are no points of interruption either.  In particular a synchronized connection is stored and
 its open task unregistered in one piece.  The steps below are the pieces of `acquire`, `_open` and
 `evict_idle` between their awaits, and a sequence of steps is one interleaving of any number of
 those coroutines.
 */
module ConnectionPool {
  import opened Prelude

  type Account = string
  type Conn = nat

  datatype Entry = Entry(conn: Conn, lastUsed: int)

  /** What an open task awaits, and in the end its result. */
  datatype Phase =
    | Fetching
    | Connecting(conn: Conn)
    | Syncing(conn: Conn)
    | Closing(conn: Conn)
    | Finished(result: Option<Conn>)

  datatype Task = Task(account: Account, phase: Phase)

  /** An `acquire` past its locked section: the stale connection it must close first, if any, and
      the open task it then awaits. */
  datatype Caller = Caller(account: Account, stale: Option<Conn>, task: nat)

  /** A connection handed to a caller, through an open task or straight from the entries. */
  datatype Grant = Grant(account: Account, conn: Conn, via: Option<nat>)

  datatype Owner = InTask(task: nat) | InEntries(account: Account) | InCaller(caller: nat) | InEvictor(evictor: nat) | Closed | Lost

  datatype State = State(
    entries: map<Account, Entry>,
    opening: map<Account, nat>,
    tasks: map<nat, Task>,
    callers: map<nat, Caller>,
    evictors: map<nat, seq<Conn>>,
    conns: map<Conn, Account>,
    closed: seq<Conn>,
    lost: set<Conn>,
    grants: seq<Grant>,
    owner: map<Conn, Owner>,
    next: nat)

  const Empty := State(map[], map[], map[], map[], map[], map[], [], {}, [], map[], 0)

  datatype Step =
    | Acquire(account: Account, healthy: bool, now: int)
    | CloseStale(caller: nat, raises: bool)
    | Resume(caller: nat)
    | Fetched(task: nat, ok: bool)
    | Connected(task: nat, ok: bool)
    | Synced(task: nat, ok: bool, now: int)
    | CloseFailed(task: nat)
    | EvictIdle(cutoff: int, victims: seq<Account>)
    | EvictClose(evictor: nat, raises: bool)

  predicate Live(p: Phase) {
    !p.Finished?
  }

  /** The connection an open task is responsible for. */
  function Held(p: Phase): Option<Conn> {
    match p
    case Connecting(c) => Some(c)
    case Syncing(c) => Some(c)
    case Closing(c) => Some(c)
    case _ => None
  }

  /** The connection an open task returns to its callers. */
  function Result(p: Phase): Option<Conn> {
    if p.Finished? then p.result else None
  }

  /** The accounts whose entry has been idle since before the cutoff. */
  function Idle(s: State, cutoff: int): set<Account> {
    set a | a in s.entries && s.entries[a].lastUsed < cutoff
  }

  ghost predicate Enabled(s: State, step: Step) {
    match step
    case Acquire(_, _, _) => true
    case CloseStale(k, _) => k in s.callers && s.callers[k].stale.Some?
    case Resume(k) => k in s.callers && s.callers[k].stale.None? && s.callers[k].task in s.tasks
                      && s.tasks[s.callers[k].task].phase.Finished?
    case Fetched(t, _) => t in s.tasks && s.tasks[t].phase.Fetching?
    case Connected(t, _) => t in s.tasks && s.tasks[t].phase.Connecting?
    case Synced(t, _, _) => t in s.tasks && s.tasks[t].phase.Syncing?
    case CloseFailed(t) => t in s.tasks && s.tasks[t].phase.Closing?
    case EvictIdle(cutoff, victims) => Distinct(victims) && forall a :: a in victims <==> a in Idle(s, cutoff)
    case EvictClose(e, _) => e in s.evictors && s.evictors[e] != []
  }

  function SetPhase(s: State, t: nat, p: Phase): State
    requires t in s.tasks
  {
    s.(tasks := s.tasks[t := s.tasks[t].(phase := p)])
  }

  /** Makes sure an open task is registered for the account. */
  function Register(s: State, a: Account): State {
    if a in s.opening then s
    else s.(tasks := s.tasks[s.next := Task(a, Fetching)], opening := s.opening[a := s.next], next := s.next + 1)
  }

  /** A caller takes the entry out, if there is one, and will await the registered open. */
  function TakeEntry(s: State, a: Account): State
    requires a in s.opening
  {
    var k := s.next;
    if a in s.entries then
      s.(entries := s.entries - {a},
         owner := s.owner[s.entries[a].conn := InCaller(k)],
         callers := s.callers[k := Caller(a, Some(s.entries[a].conn), s.opening[a])],
         next := k + 1)
    else s.(callers := s.callers[k := Caller(a, None, s.opening[a])], next := k + 1)
  }

  /** The locked section of `acquire`, when the entry is missing or unhealthy. */
  function JoinOrOpen(s: State, a: Account): State {
    TakeEntry(Register(s, a), a)
  }

  function ApplyAcquire(s: State, a: Account, healthy: bool, now: int): State {
    if a in s.entries && healthy then
      s.(entries := s.entries[a := s.entries[a].(lastUsed := now)],
         grants := s.grants + [Grant(a, s.entries[a].conn, None)])
    else JoinOrOpen(s, a)
  }

  function ApplyCloseStale(s: State, k: nat, raises: bool): State
    requires k in s.callers && s.callers[k].stale.Some?
  {
    var c := s.callers[k].stale.value;
    s.(closed := s.closed + [c],
       owner := s.owner[c := Closed],
       callers := if raises then s.callers - {k} else s.callers[k := s.callers[k].(stale := None)])
  }

  function ApplyResume(s: State, k: nat): State
    requires k in s.callers && s.callers[k].task in s.tasks && s.tasks[s.callers[k].task].phase.Finished?
  {
    var caller := s.callers[k];
    var result := s.tasks[caller.task].phase.result;
    s.(callers := s.callers - {k},
       grants := if result.Some? then s.grants + [Grant(caller.account, result.value, Some(caller.task))] else s.grants)
  }

  /** The registration is popped by account, whoever owns it, and the task is done. */
  function Finish(s: State, t: nat, result: Option<Conn>): State
    requires t in s.tasks
  {
    SetPhase(s.(opening := s.opening - {s.tasks[t].account}), t, Finished(result))
  }

  /** `get_account` returned; a deployed account yields a new streaming connection. */
  function ApplyFetched(s: State, t: nat, ok: bool): State
    requires t in s.tasks
  {
    if !ok then Finish(s, t, None)
    else
      var c := s.next;
      SetPhase(s.(conns := s.conns[c := s.tasks[t].account], owner := s.owner[c := InTask(t)], next := c + 1), t, Connecting(c))
  }

  /** The synchronized connection becomes the account's entry, and the task is done. */
  function ApplyPublish(s: State, t: nat, now: int): State
    requires t in s.tasks && s.tasks[t].phase.Syncing?
  {
    var a, c := s.tasks[t].account, s.tasks[t].phase.conn;
    Finish(s.(entries := s.entries[a := Entry(c, now)], owner := s.owner[c := InEntries(a)]), t, Some(c))
  }

  /** The close of a failed open ended, with or without an exception. */
  function ApplyCloseFailed(s: State, t: nat): State
    requires t in s.tasks && s.tasks[t].phase.Closing?
  {
    var c := s.tasks[t].phase.conn;
    Finish(s.(closed := s.closed + [c], owner := s.owner[c := Closed]), t, None)
  }

  function ConnsOf(s: State, victims: seq<Account>): seq<Conn>
    requires forall a :: a in victims ==> a in s.entries
  {
    seq(|victims|, i requires 0 <= i < |victims| => s.entries[victims[i]].conn)
  }

  function ApplyEvictIdle(s: State, victims: seq<Account>): State
    requires forall a :: a in victims ==> a in s.entries
  {
    var conns := ConnsOf(s, victims);
    var e := s.next;
    s.(entries := s.entries - (set a | a in victims),
       evictors := s.evictors[e := conns],
       owner := map c | c in s.owner.Keys + (set x | x in conns) :: if c in conns then InEvictor(e) else s.owner[c],
       next := e + 1)
  }

  /** An exception from `close` ends the eviction loop; what it had not reached yet is dropped. */
  function ApplyEvictClose(s: State, e: nat, raises: bool): State
    requires e in s.evictors && s.evictors[e] != []
  {
    var c, rest := s.evictors[e][0], s.evictors[e][1..];
    var done := s.(closed := s.closed + [c], owner := s.owner[c := Closed]);
    if raises then
      done.(evictors := s.evictors - {e},
            lost := s.lost + (set x | x in rest),
            owner := map x | x in done.owner.Keys + (set y | y in rest) :: if x in rest then Lost else done.owner[x])
    else done.(evictors := s.evictors[e := rest])
  }

  function Apply(s: State, step: Step): State
    requires Enabled(s, step)
  {
    match step
    case Acquire(a, healthy, now) => ApplyAcquire(s, a, healthy, now)
    case CloseStale(k, raises) => ApplyCloseStale(s, k, raises)
    case Resume(k) => ApplyResume(s, k)
    case Fetched(t, ok) => ApplyFetched(s, t, ok)
    case Connected(t, ok) => SetPhase(s, t, if ok then Syncing(s.tasks[t].phase.conn) else Closing(s.tasks[t].phase.conn))
    case Synced(t, ok, now) => if ok then ApplyPublish(s, t, now) else SetPhase(s, t, Closing(s.tasks[t].phase.conn))
    case CloseFailed(t) => ApplyCloseFailed(s, t)
    case EvictIdle(_, victims) => ApplyEvictIdle(s, victims)
    case EvictClose(e, raises) => ApplyEvictClose(s, e, raises)
  }

  ghost predicate Executes(s: State, steps: seq<Step>)
    decreases |steps|
  {
    steps == [] || (Enabled(s, steps[0]) && Executes(Apply(s, steps[0]), steps[1..]))
  }

  ghost function Run(s: State, steps: seq<Step>): State
    requires Executes(s, steps)
    decreases |steps|
  {
    if steps == [] then s else Run(Apply(s, steps[0]), steps[1..])
  }

  // ---------------------------------------------------------------- invariant

  /** Where the connection actually is. */
  ghost predicate Holds(s: State, c: Conn, o: Owner) {
    match o
    case InTask(t) => t in s.tasks && Held(s.tasks[t].phase) == Some(c)
    case InEntries(a) => a in s.entries && s.entries[a].conn == c
    case InCaller(k) => k in s.callers && s.callers[k].stale == Some(c)
    case InEvictor(e) => e in s.evictors && c in s.evictors[e]
    case Closed => c in s.closed
    case Lost => c in s.lost
  }

  /** Every connection is in exactly one place. */
  ghost predicate OwnersOk(s: State) {
    && s.owner.Keys == s.conns.Keys
    && forall c: Conn, o: Owner :: Holds(s, c, o) <==> (c in s.owner && s.owner[c] == o)
  }

  ghost predicate QueuesOk(s: State) {
    Distinct(s.closed) && forall e :: e in s.evictors ==> Distinct(s.evictors[e])
  }

  /** The registered opens are the live ones, one per account, and an account with an open under
      way has no entry. */
  ghost predicate OpensOk(s: State) {
    && (forall a :: a in s.opening ==> s.opening[a] in s.tasks && s.tasks[s.opening[a]].account == a && Live(s.tasks[s.opening[a]].phase))
    && (forall t :: t in s.tasks && Live(s.tasks[t].phase) ==> s.tasks[t].account in s.opening && s.opening[s.tasks[t].account] == t)
    && (forall a :: a in s.opening ==> a !in s.entries)
  }

  ghost predicate IdsOk(s: State) {
    && (forall t :: t in s.tasks ==> t < s.next)
    && (forall k :: k in s.callers ==> k < s.next)
    && (forall e :: e in s.evictors ==> e < s.next)
    && (forall c :: c in s.conns ==> c < s.next)
  }

  /** The connection a task works on, or its result, belongs to the task's account. */
  ghost predicate TaskConnOk(s: State, t: Task) {
    && (Held(t.phase).Some? ==> Held(t.phase).value in s.conns && s.conns[Held(t.phase).value] == t.account)
    && (Result(t.phase).Some? ==> Result(t.phase).value in s.conns && s.conns[Result(t.phase).value] == t.account)
  }

  ghost predicate AccountsOk(s: State) {
    && (forall t :: t in s.tasks ==> TaskConnOk(s, s.tasks[t]))
    && (forall a :: a in s.entries ==> s.entries[a].conn in s.conns && s.conns[s.entries[a].conn] == a)
    && (forall k :: k in s.callers ==> s.callers[k].task in s.tasks && s.tasks[s.callers[k].task].account == s.callers[k].account)
  }

  ghost predicate GrantsOk(s: State) {
    forall i :: 0 <= i < |s.grants| ==>
      && s.grants[i].conn in s.conns && s.conns[s.grants[i].conn] == s.grants[i].account
      && (s.grants[i].via.Some? ==>
            s.grants[i].via.value in s.tasks && s.tasks[s.grants[i].via.value].phase == Finished(Some(s.grants[i].conn)))
  }

  ghost predicate Inv(s: State) {
    OwnersOk(s) && QueuesOk(s) && RestOk(s)
  }

  // ---------------------------------------------------------------- every step keeps it

  /** Everything but the whereabouts of connections. */
  ghost predicate RestOk(s: State) {
    OpensOk(s) && IdsOk(s) && AccountsOk(s) && GrantsOk(s)
  }

  /** The step moved connection `x` to `o`, and no other connection anywhere. */
  ghost predicate Moved(s: State, t: State, x: Conn, to: Owner) {
    && t.owner == s.owner[x := to]
    && t.conns.Keys == s.conns.Keys + {x}
    && forall c: Conn, o: Owner :: Holds(t, c, o) <==> if c == x then o == to else Holds(s, c, o)
  }

  lemma MoveKeepsOwners(s: State, t: State, x: Conn, to: Owner)
    requires OwnersOk(s) && Moved(s, t, x, to)
    ensures OwnersOk(t)
  {
  }

  /** No connection moved. */
  ghost predicate Stayed(s: State, t: State) {
    && t.owner == s.owner && t.conns == s.conns
    && forall c: Conn, o: Owner :: Holds(t, c, o) <==> Holds(s, c, o)
  }

  lemma StayKeepsOwners(s: State, t: State)
    requires OwnersOk(s) && Stayed(s, t)
    ensures OwnersOk(t)
  {
  }

  /** The one place where a connection of the pool is. */
  lemma OnlyAt(s: State, x: Conn, at: Owner)
    requires OwnersOk(s) && Holds(s, x, at)
    ensures x in s.owner && x in s.conns
    ensures forall o: Owner :: Holds(s, x, o) <==> o == at
  {
  }

  lemma GrantKeeps(s: State, a: Account, now: int)
    requires Inv(s) && a in s.entries
    ensures Inv(ApplyAcquire(s, a, true, now))
  {
    StayKeepsOwners(s, ApplyAcquire(s, a, true, now));
  }

  lemma JoinOpens(s: State, a: Account)
    requires OpensOk(s) && IdsOk(s)
    ensures OpensOk(JoinOrOpen(s, a))
  {
    if a !in s.opening {
      var t := JoinOrOpen(s, a);
      assert t.tasks == s.tasks[s.next := Task(a, Fetching)] && t.opening == s.opening[a := s.next];
      assert a !in t.entries && forall b :: b in t.entries ==> b in s.entries && t.entries[b] == s.entries[b];
    }
  }

  lemma RegisterTasks(s: State, a: Account)
    requires AccountsOk(s) && IdsOk(s)
    ensures AccountsOk(Register(s, a))
  {
    var t := Register(s, a);
    forall n | n in s.tasks
      ensures n in t.tasks && t.tasks[n] == s.tasks[n] && TaskConnOk(t, t.tasks[n])
    {
      assert TaskConnOk(s, s.tasks[n]);
    }
  }

  lemma RegisterAccounts(s: State, a: Account)
    requires AccountsOk(s) && GrantsOk(s) && IdsOk(s)
    ensures AccountsOk(Register(s, a)) && GrantsOk(Register(s, a)) && IdsOk(Register(s, a))
  {
    RegisterTasks(s, a);
    var t := Register(s, a);
    assert forall n :: n in s.tasks ==> n in t.tasks && t.tasks[n] == s.tasks[n];
  }

  lemma RegisterStays(s: State, a: Account)
    requires IdsOk(s)
    ensures Stayed(s, Register(s, a))
  {
  }

  lemma TakeMoves(s: State, a: Account)
    requires OwnersOk(s) && IdsOk(s) && a in s.opening && a in s.entries
    ensures Moved(s, TakeEntry(s, a), s.entries[a].conn, InCaller(s.next))
  {
    var t, x := TakeEntry(s, a), s.entries[a].conn;
    assert Holds(s, x, InEntries(a));
    OnlyAt(s, x, InEntries(a));
    forall c: Conn, o: Owner
      ensures Holds(t, c, o) <==> if c == x then o == InCaller(s.next) else Holds(s, c, o)
    {
      assert Holds(s, x, o) <==> o == InEntries(a);
    }
  }

  lemma TakeAccounts(s: State, a: Account)
    requires AccountsOk(s) && a in s.opening && s.opening[a] in s.tasks && s.tasks[s.opening[a]].account == a
    ensures AccountsOk(TakeEntry(s, a))
  {
    var t := TakeEntry(s, a);
    assert t.tasks == s.tasks && t.conns == s.conns;
    forall n | n in t.tasks
      ensures TaskConnOk(t, t.tasks[n])
    {
      assert TaskConnOk(s, s.tasks[n]);
    }
  }

  lemma TakeOthers(s: State, a: Account)
    requires GrantsOk(s) && IdsOk(s) && QueuesOk(s) && a in s.opening
    ensures GrantsOk(TakeEntry(s, a)) && IdsOk(TakeEntry(s, a)) && QueuesOk(TakeEntry(s, a))
  {
  }

  lemma TakeOwners(s: State, a: Account)
    requires OwnersOk(s) && IdsOk(s) && a in s.opening
    ensures OwnersOk(TakeEntry(s, a))
  {
    if a in s.entries {
      TakeMoves(s, a);
      MoveKeepsOwners(s, TakeEntry(s, a), s.entries[a].conn, InCaller(s.next));
    } else {
      StayKeepsOwners(s, TakeEntry(s, a));
    }
  }

  lemma JoinKeeps(s: State, a: Account)
    requires Inv(s)
    ensures Inv(JoinOrOpen(s, a))
  {
    var r := Register(s, a);
    RegisterStays(s, a);
    StayKeepsOwners(s, r);
    RegisterAccounts(s, a);
    JoinOpens(s, a);
    TakeOwners(r, a);
    TakeAccounts(r, a);
    TakeOthers(r, a);
  }

  lemma ClosedDistinct(s: State, x: Conn, at: Owner)
    requires OwnersOk(s) && Holds(s, x, at) && at != Closed && Distinct(s.closed)
    ensures Distinct(s.closed + [x])
  {
    assert !Holds(s, x, Closed);
  }

  lemma CloseStaleKeeps(s: State, k: nat, raises: bool)
    requires Inv(s) && k in s.callers && s.callers[k].stale.Some?
    ensures Inv(ApplyCloseStale(s, k, raises))
  {
    var t, x := ApplyCloseStale(s, k, raises), s.callers[k].stale.value;
    assert Holds(s, x, InCaller(k));
    OnlyAt(s, x, InCaller(k));
    ClosedDistinct(s, x, InCaller(k));
    forall c: Conn, o: Owner
      ensures Holds(t, c, o) <==> if c == x then o == Closed else Holds(s, c, o)
    {
      assert Holds(s, x, o) <==> o == InCaller(k);
    }
    MoveKeepsOwners(s, t, x, Closed);
  }

  lemma ResumeKeeps(s: State, k: nat)
    requires Inv(s) && Enabled(s, Resume(k))
    ensures Inv(ApplyResume(s, k))
  {
    StayKeepsOwners(s, ApplyResume(s, k));
  }

  /** The step moved open task `n` on and touched no other task and no caller. */
  ghost predicate Advanced(s: State, t: State, n: nat) {
    && n in s.tasks && Live(s.tasks[n].phase) && t.tasks.Keys == s.tasks.Keys
    && t.tasks - {n} == s.tasks - {n} && t.tasks[n].account == s.tasks[n].account
    && t.callers == s.callers && t.evictors == s.evictors && t.grants == s.grants && s.next <= t.next
    && (forall c :: c in s.conns ==> c in t.conns && t.conns[c] == s.conns[c])
    && (forall c :: c in t.conns ==> c < t.next)
  }

  lemma OtherTask(s: State, t: State, n: nat, m: nat)
    requires Advanced(s, t, n) && m in s.tasks && m != n
    ensures m in t.tasks && t.tasks[m] == s.tasks[m]
  {
    assert m in s.tasks - {n} && (s.tasks - {n})[m] == (t.tasks - {n})[m];
  }

  lemma AdvanceGrants(s: State, t: State, n: nat)
    requires GrantsOk(s) && Advanced(s, t, n)
    ensures GrantsOk(t)
  {
    forall i | 0 <= i < |t.grants| && t.grants[i].via.Some?
      ensures t.grants[i].via.value in t.tasks && t.tasks[t.grants[i].via.value].phase == Finished(Some(t.grants[i].conn))
    {
      OtherTask(s, t, n, t.grants[i].via.value);
    }
  }

  lemma AdvanceAccounts(s: State, t: State, n: nat)
    requires AccountsOk(s) && Advanced(s, t, n) && TaskConnOk(t, t.tasks[n])
    requires forall a :: a in t.entries ==> t.entries[a].conn in t.conns && t.conns[t.entries[a].conn] == a
    ensures AccountsOk(t)
  {
    forall m | m in t.tasks
      ensures TaskConnOk(t, t.tasks[m]) && t.tasks[m].account == s.tasks[m].account
    {
      if m != n {
        OtherTask(s, t, n, m);
        assert TaskConnOk(s, s.tasks[m]);
      }
    }
  }

  lemma AdvanceIds(s: State, t: State, n: nat)
    requires IdsOk(s) && Advanced(s, t, n)
    ensures IdsOk(t)
  {
  }

  lemma AdvanceKeeps(s: State, t: State, n: nat)
    requires RestOk(s) && Advanced(s, t, n) && OpensOk(t) && TaskConnOk(t, t.tasks[n])
    requires forall a :: a in t.entries ==> t.entries[a].conn in t.conns && t.conns[t.entries[a].conn] == a
    ensures RestOk(t)
  {
    AdvanceGrants(s, t, n);
    AdvanceAccounts(s, t, n);
    AdvanceIds(s, t, n);
  }

  lemma FetchFailedOpens(s: State, n: nat)
    requires OpensOk(s) && n in s.tasks && s.tasks[n].phase.Fetching?
    ensures OpensOk(ApplyFetched(s, n, false))
  {
  }

  lemma FetchFailedStays(s: State, n: nat)
    requires n in s.tasks && s.tasks[n].phase.Fetching?
    ensures Stayed(s, ApplyFetched(s, n, false))
  {
  }

  lemma FetchFailedKeeps(s: State, n: nat)
    requires Inv(s) && n in s.tasks && s.tasks[n].phase.Fetching?
    ensures Inv(ApplyFetched(s, n, false))
  {
    FetchFailedOpens(s, n);
    FetchFailedStays(s, n);
    StayKeepsOwners(s, ApplyFetched(s, n, false));
    AdvanceKeeps(s, ApplyFetched(s, n, false), n);
  }

  lemma FetchedOwners(s: State, n: nat)
    requires OwnersOk(s) && IdsOk(s) && n in s.tasks && s.tasks[n].phase.Fetching?
    ensures OwnersOk(ApplyFetched(s, n, true))
  {
    var t, x := ApplyFetched(s, n, true), s.next;
    assert forall o: Owner :: !Holds(s, x, o);
    forall c: Conn, o: Owner
      ensures Holds(t, c, o) <==> if c == x then o == InTask(n) else Holds(s, c, o)
    {
      assert !Holds(s, x, o);
    }
    MoveKeepsOwners(s, t, x, InTask(n));
  }

  lemma FetchedOpens(s: State, n: nat)
    requires OpensOk(s) && n in s.tasks && s.tasks[n].phase.Fetching?
    ensures OpensOk(ApplyFetched(s, n, true))
  {
  }

  lemma FetchedRest(s: State, n: nat)
    requires RestOk(s) && n in s.tasks && s.tasks[n].phase.Fetching?
    ensures RestOk(ApplyFetched(s, n, true))
  {
    FetchedOpens(s, n);
    AdvanceKeeps(s, ApplyFetched(s, n, true), n);
  }

  lemma PassOnOpens(s: State, n: nat, p: Phase)
    requires OpensOk(s) && n in s.tasks && Live(s.tasks[n].phase)
    requires Held(p).Some? && Held(p) == Held(s.tasks[n].phase)
    ensures OpensOk(SetPhase(s, n, p))
  {
  }

  lemma PassOn(s: State, n: nat, p: Phase)
    requires Inv(s) && n in s.tasks && Live(s.tasks[n].phase)
    requires Held(p).Some? && Held(p) == Held(s.tasks[n].phase)
    ensures Inv(SetPhase(s, n, p))
  {
    PassOnOpens(s, n, p);
    StayKeepsOwners(s, SetPhase(s, n, p));
    assert TaskConnOk(s, s.tasks[n]);
    AdvanceKeeps(s, SetPhase(s, n, p), n);
  }

  lemma PublishOpens(s: State, n: nat, now: int)
    requires OpensOk(s) && n in s.tasks && s.tasks[n].phase.Syncing?
    ensures OpensOk(ApplyPublish(s, n, now))
  {
  }

  lemma PublishRest(s: State, n: nat, now: int)
    requires RestOk(s) && n in s.tasks && s.tasks[n].phase.Syncing?
    ensures RestOk(ApplyPublish(s, n, now))
  {
    PublishOpens(s, n, now);
    assert TaskConnOk(s, s.tasks[n]);
    AdvanceKeeps(s, ApplyPublish(s, n, now), n);
  }

  lemma PublishKeeps(s: State, n: nat, now: int)
    requires Inv(s) && n in s.tasks && s.tasks[n].phase.Syncing?
    ensures Inv(ApplyPublish(s, n, now))
  {
    var t, x := ApplyPublish(s, n, now), s.tasks[n].phase.conn;
    assert Holds(s, x, InTask(n));
    OnlyAt(s, x, InTask(n));
    assert s.tasks[n].account !in s.entries;
    forall c: Conn, o: Owner
      ensures Holds(t, c, o) <==> if c == x then o == InEntries(s.tasks[n].account) else Holds(s, c, o)
    {
      assert Holds(s, x, o) <==> o == InTask(n);
    }
    MoveKeepsOwners(s, t, x, InEntries(s.tasks[n].account));
    PublishRest(s, n, now);
  }

  lemma CloseFailedOpens(s: State, n: nat)
    requires OpensOk(s) && n in s.tasks && s.tasks[n].phase.Closing?
    ensures OpensOk(ApplyCloseFailed(s, n))
  {
  }

  lemma CloseFailedRest(s: State, n: nat)
    requires RestOk(s) && n in s.tasks && s.tasks[n].phase.Closing?
    ensures RestOk(ApplyCloseFailed(s, n))
  {
    CloseFailedOpens(s, n);
    AdvanceKeeps(s, ApplyCloseFailed(s, n), n);
  }

  lemma CloseFailedKeeps(s: State, n: nat)
    requires Inv(s) && n in s.tasks && s.tasks[n].phase.Closing?
    ensures Inv(ApplyCloseFailed(s, n))
  {
    var t, x := ApplyCloseFailed(s, n), s.tasks[n].phase.conn;
    assert Holds(s, x, InTask(n));
    OnlyAt(s, x, InTask(n));
    ClosedDistinct(s, x, InTask(n));
    forall c: Conn, o: Owner
      ensures Holds(t, c, o) <==> if c == x then o == Closed else Holds(s, c, o)
    {
      assert Holds(s, x, o) <==> o == InTask(n);
    }
    MoveKeepsOwners(s, t, x, Closed);
    CloseFailedRest(s, n);
  }

  /** The evicted connections are exactly those held by the victims' entries, each once. */
  lemma VictimConns(s: State, victims: seq<Account>)
    requires OwnersOk(s) && Distinct(victims) && forall a :: a in victims ==> a in s.entries
    ensures Distinct(ConnsOf(s, victims))
    ensures forall c :: c in ConnsOf(s, victims) <==> c in s.owner && s.owner[c].InEntries? && s.owner[c].account in victims
  {
    var conns := ConnsOf(s, victims);
    forall i | 0 <= i < |victims|
      ensures conns[i] in s.owner && s.owner[conns[i]] == InEntries(victims[i])
    {
      assert Holds(s, conns[i], InEntries(victims[i]));
    }
    forall c | c in s.owner && s.owner[c].InEntries? && s.owner[c].account in victims
      ensures c in conns
    {
      assert Holds(s, c, s.owner[c]);
      var i :| 0 <= i < |victims| && victims[i] == s.owner[c].account;
      assert conns[i] == c;
    }
  }

  lemma EvictIdleOwners(s: State, victims: seq<Account>)
    requires OwnersOk(s) && IdsOk(s) && Distinct(victims) && forall a :: a in victims ==> a in s.entries
    ensures OwnersOk(ApplyEvictIdle(s, victims))
  {
    var t, conns := ApplyEvictIdle(s, victims), ConnsOf(s, victims);
    VictimConns(s, victims);
    assert t.owner.Keys == s.owner.Keys;
    forall c: Conn, o: Owner
      ensures Holds(t, c, o) <==> (c in t.owner && t.owner[c] == o)
    {
      assert Holds(s, c, o) <==> (c in s.owner && s.owner[c] == o);
      if c in s.owner {
        assert Holds(s, c, s.owner[c]);
      }
    }
  }

  lemma EvictIdleKeeps(s: State, cutoff: int, victims: seq<Account>)
    requires Inv(s) && Enabled(s, EvictIdle(cutoff, victims))
    ensures Inv(ApplyEvictIdle(s, victims))
  {
    VictimConns(s, victims);
    EvictIdleOwners(s, victims);
    EvictIdleRest(s, victims);
  }

  lemma EvictIdleRest(s: State, victims: seq<Account>)
    requires RestOk(s) && forall a :: a in victims ==> a in s.entries
    ensures RestOk(ApplyEvictIdle(s, victims))
  {
  }

  lemma EvictCloseOwners(s: State, e: nat, raises: bool)
    requires OwnersOk(s) && QueuesOk(s) && e in s.evictors && s.evictors[e] != []
    ensures OwnersOk(ApplyEvictClose(s, e, raises))
  {
    var t, q := ApplyEvictClose(s, e, raises), s.evictors[e];
    forall x | x in q
      ensures x in s.owner && s.owner[x] == InEvictor(e)
    {
      assert Holds(s, x, InEvictor(e));
    }
    assert q == [q[0]] + q[1..];
    assert q[0] !in q[1..];
    assert forall x :: x in q <==> x == q[0] || x in q[1..];
    assert forall x :: x in q[1..] ==> x in q;
    assert t.owner.Keys == s.owner.Keys;
    forall c: Conn, o: Owner
      ensures Holds(t, c, o) <==> (c in t.owner && t.owner[c] == o)
    {
      assert Holds(s, c, o) <==> (c in s.owner && s.owner[c] == o);
    }
  }

  lemma EvictCloseQueues(s: State, e: nat, raises: bool)
    requires QueuesOk(s) && OwnersOk(s) && e in s.evictors && s.evictors[e] != []
    ensures QueuesOk(ApplyEvictClose(s, e, raises))
  {
    assert Holds(s, s.evictors[e][0], InEvictor(e));
    ClosedDistinct(s, s.evictors[e][0], InEvictor(e));
  }

  lemma EvictCloseKeeps(s: State, e: nat, raises: bool)
    requires Inv(s) && e in s.evictors && s.evictors[e] != []
    ensures Inv(ApplyEvictClose(s, e, raises))
  {
    EvictCloseOwners(s, e, raises);
    EvictCloseQueues(s, e, raises);
    EvictCloseRest(s, e, raises);
  }

  lemma EvictCloseRest(s: State, e: nat, raises: bool)
    requires RestOk(s) && e in s.evictors && s.evictors[e] != []
    ensures RestOk(ApplyEvictClose(s, e, raises))
  {
    var t := ApplyEvictClose(s, e, raises);
    assert t.entries == s.entries && t.tasks == s.tasks && t.opening == s.opening && t.callers == s.callers;
    assert AccountsOk(t);
  }

  /** Every step of every interleaving keeps the invariant. */
  lemma StepKeeps(s: State, step: Step)
    requires Inv(s) && Enabled(s, step)
    ensures Inv(Apply(s, step))
  {
    match step
    case Acquire(a, healthy, now) =>
      if a in s.entries && healthy {
        GrantKeeps(s, a, now);
      } else {
        JoinKeeps(s, a);
      }
    case CloseStale(k, raises) => CloseStaleKeeps(s, k, raises);
    case Resume(k) => ResumeKeeps(s, k);
    case Fetched(n, ok) =>
      if ok {
        FetchedOwners(s, n);
        FetchedRest(s, n);
      } else {
        FetchFailedKeeps(s, n);
      }
    case Connected(n, ok) => PassOn(s, n, if ok then Syncing(s.tasks[n].phase.conn) else Closing(s.tasks[n].phase.conn));
    case Synced(n, ok, now) =>
      if ok {
        PublishKeeps(s, n, now);
      } else {
        PassOn(s, n, Closing(s.tasks[n].phase.conn));
      }
    case CloseFailed(n) => CloseFailedKeeps(s, n);
    case EvictIdle(cutoff, victims) => EvictIdleKeeps(s, cutoff, victims);
    case EvictClose(e, raises) => EvictCloseKeeps(s, e, raises);
  }

  lemma {:induction false} RunKeeps(s: State, steps: seq<Step>)
    requires Inv(s) && Executes(s, steps)
    ensures Inv(Run(s, steps))
    decreases |steps|
  {
    if steps != [] {
      StepKeeps(s, steps[0]);
      RunKeeps(Apply(s, steps[0]), steps[1..]);
    }
  }

  // ---------------------------------------------------------------- main results

  lemma EmptyInv()
    ensures Inv(Empty)
  {
  }

  /** In every interleaving an account has at most one open task under way, which is the registered
      one, and while it is under way there is no entry that it could overwrite. */
  lemma SingleFlight(steps: seq<Step>)
    requires Executes(Empty, steps)
    ensures var s := Run(Empty, steps);
      && (forall m, n :: m in s.tasks && n in s.tasks && s.tasks[m].account == s.tasks[n].account
            ==> Live(s.tasks[m].phase) && Live(s.tasks[n].phase) ==> m == n)
      && (forall n :: n in s.tasks && Live(s.tasks[n].phase) ==> s.tasks[n].account !in s.entries)
      && (forall a :: a in s.opening <==> exists n :: n in s.tasks && Live(s.tasks[n].phase) && s.tasks[n].account == a)
  {
    EmptyInv();
    RunKeeps(Empty, steps);
  }

  /** Every connection obtained is in exactly one place: with its open task, in the entries, with
      the one caller or evictor that closes it, closed, or dropped; and none is closed twice. */
  lemma ExactlyOneOwner(steps: seq<Step>, c: Conn)
    requires Executes(Empty, steps)
    ensures var s := Run(Empty, steps);
      && Distinct(s.closed)
      && (c in s.conns ==> exists o :: Holds(s, c, o))
      && (c !in s.conns ==> forall o :: !Holds(s, c, o))
      && forall o1, o2 :: Holds(s, c, o1) && Holds(s, c, o2) ==> o1 == o2
  {
    EmptyInv();
    RunKeeps(Empty, steps);
    var s := Run(Empty, steps);
    if c in s.conns {
      assert Holds(s, c, s.owner[c]);
    }
  }

  /** The connections a step drops: those queued behind an eviction close that raises. */
  ghost function DroppedBy(s: State, step: Step): set<Conn>
    requires Enabled(s, step)
  {
    if step.EvictClose? && step.raises then (set c | c in s.evictors[step.evictor][1..]) else {}
  }

  ghost function Dropped(s: State, steps: seq<Step>): set<Conn>
    requires Executes(s, steps)
    decreases |steps|
  {
    if steps == [] then {} else DroppedBy(s, steps[0]) + Dropped(Apply(s, steps[0]), steps[1..])
  }

  lemma StepLoses(s: State, step: Step)
    requires Enabled(s, step)
    ensures Apply(s, step).lost == s.lost + DroppedBy(s, step)
  {
    match step
    case Acquire(_, _, _) =>
    case CloseStale(_, _) =>
    case Resume(_) =>
    case Fetched(_, _) =>
    case Connected(_, _) =>
    case Synced(_, _, _) =>
    case CloseFailed(_) =>
    case EvictIdle(_, _) =>
    case EvictClose(_, _) =>
  }

  lemma {:induction false} RunLoses(s: State, steps: seq<Step>)
    requires Executes(s, steps)
    ensures Run(s, steps).lost == s.lost + Dropped(s, steps)
    decreases |steps|
  {
    if steps != [] {
      StepLoses(s, steps[0]);
      RunLoses(Apply(s, steps[0]), steps[1..]);
    }
  }

  /** A caller receives a connection of its own account, and all callers of one open task receive
      the same one. */
  lemma GrantsAgree(steps: seq<Step>)
    requires Executes(Empty, steps)
    ensures var s := Run(Empty, steps);
      && (forall i :: 0 <= i < |s.grants| ==> s.grants[i].conn in s.conns && s.conns[s.grants[i].conn] == s.grants[i].account)
      && (forall i, j :: 0 <= i < |s.grants| && 0 <= j < |s.grants| && s.grants[i].via.Some? && s.grants[i].via == s.grants[j].via
            ==> s.grants[i].conn == s.grants[j].conn)
  {
    EmptyInv();
    RunKeeps(Empty, steps);
  }

  // ---------------------------------------------------------------- the manager object

  /** The pool object; the coroutines suspended on the event loop are part of its state. */
  class ConnectionManager {
    var entries: map<Account, Entry>
    var opening: map<Account, nat>
    var tasks: map<nat, Task>
    var callers: map<nat, Caller>
    var evictors: map<nat, seq<Conn>>
    var next: nat
    ghost var conns: map<Conn, Account>
    ghost var closed: seq<Conn>
    ghost var lost: set<Conn>
    ghost var grants: seq<Grant>
    ghost var owner: map<Conn, Owner>

    ghost function Abs(): State
      reads this
    {
      State(entries, opening, tasks, callers, evictors, conns, closed, lost, grants, owner, next)
    }

    constructor ()
      ensures Abs() == Empty
    {
      entries, opening, tasks, callers, evictors, next := map[], map[], map[], map[], map[], 0;
      conns, closed, lost, grants, owner := map[], [], {}, [], map[];
    }

    /** The locked section of `acquire`: a warm connection, or the task to await. */
    method Acquire(account: Account, healthy: bool, now: int) returns (warm: Option<Conn>)
      modifies this
      ensures Abs() == ApplyAcquire(old(Abs()), account, healthy, now)
      ensures warm.Some? <==> account in old(entries) && healthy
      ensures warm.Some? ==> warm.value == old(entries)[account].conn
    {
      if account in entries && healthy {
        var entry := entries[account];
        entries := entries[account := entry.(lastUsed := now)];
        grants := grants + [Grant(account, entry.conn, None)];
        return Some(entry.conn);
      }
      Join(account);
      warm := None;
    }

    method Join(account: Account)
      modifies this
      ensures Abs() == JoinOrOpen(old(Abs()), account)
    {
      if account !in opening {
        tasks := tasks[next := Task(account, Fetching)];
        opening := opening[account := next];
        next := next + 1;
      }
      if account in entries {
        var stale := entries[account].conn;
        entries := entries - {account};
        owner := owner[stale := InCaller(next)];
        callers := callers[next := Caller(account, Some(stale), opening[account])];
      } else {
        callers := callers[next := Caller(account, None, opening[account])];
      }
      next := next + 1;
    }

    /** The end of a successful `_open`: the locked section that stores the synchronized connection, and
        the `finally` section. */
    method Publish(task: nat, now: int)
      requires task in tasks && tasks[task].phase.Syncing?
      modifies this
      ensures Abs() == ApplyPublish(old(Abs()), task, now)
    {
      var account, conn := tasks[task].account, tasks[task].phase.conn;
      entries := entries[account := Entry(conn, now)];
      owner := owner[conn := InEntries(account)];
      Leave(task, Some(conn));
    }

    /** The `finally` section of `_open`. */
    method Leave(task: nat, result: Option<Conn>)
      requires task in tasks
      modifies this
      ensures Abs() == Finish(old(Abs()), task, result)
    {
      opening := opening - {tasks[task].account};
      tasks := tasks[task := Task(tasks[task].account, Finished(result))];
    }

    /** The locked section of `evict_idle`: takes every entry idle since before the cutoff out of
        the pool, one by one, and nothing else. */
    method EvictIdle(cutoff: int) returns (evictor: nat, victims: seq<Account>)
      modifies this
      ensures Distinct(victims) && forall a :: a in victims <==> a in Idle(old(Abs()), cutoff)
      ensures Abs() == ApplyEvictIdle(old(Abs()), victims)
      ensures evictor == old(next)
    {
      var queue;
      victims, queue := CollectIdle(entries, cutoff);
      evictor := next;
      entries := entries - (set a | a in victims);
      evictors := evictors[evictor := queue];
      owner := map c | c in owner.Keys + (set x | x in queue) :: if c in queue then InEvictor(evictor) else owner[c];
      next := next + 1;
      assert queue == ConnsOf(old(Abs()), victims);
    }
  }

  /** The accounts idle since before the cutoff, one by one, with their connections. */
  method CollectIdle(entries: map<Account, Entry>, cutoff: int) returns (victims: seq<Account>, queue: seq<Conn>)
    ensures Distinct(victims) && |queue| == |victims|
    ensures forall a :: a in victims <==> a in entries && entries[a].lastUsed < cutoff
    ensures forall i :: 0 <= i < |victims| ==> victims[i] in entries && queue[i] == entries[victims[i]].conn
  {
    var expired := set a | a in entries && entries[a].lastUsed < cutoff;
    victims, queue := [], [];
    while expired != {}
      invariant expired <= entries.Keys && Distinct(victims) && |queue| == |victims|
      invariant forall a :: a in entries && entries[a].lastUsed < cutoff <==> a in expired || a in victims
      invariant forall a :: a in victims ==> a !in expired
      invariant forall i :: 0 <= i < |victims| ==> victims[i] in entries && queue[i] == entries[victims[i]].conn
      decreases |expired|
    {
      var a :| a in expired;
      victims, queue := victims + [a], queue + [entries[a].conn];
      expired := expired - {a};
    }
  }
}
