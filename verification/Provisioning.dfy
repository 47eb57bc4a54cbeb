/**
 The life of a broker connection: provisioned, deployed and deleted by redelivered events.

 Handlers run one at a time per connection, and each commits its row several times.  A delivery is
 the list of its lasting effects (commits of the row, accounts made and removed at the provider) and
 a process that dies performs a prefix of the list.
 */
module Provisioning {
  import opened Prelude

  type Id = string

  datatype State =
    | Submitted | Provisioning | Deploying | Connecting | Synchronizing | Ready
    | InvalidCredentials | ServerNotFound | ProvisioningFailed | BrokerDisconnected
    | SynchronizationFailed | TradingDisabled | Deleting | Deleted

  datatype Connection = Connection(state: State, accountId: Option<Id>, password: Option<string>, login: string, server: string)

  /** The states in which the account at the provider is in use. */
  predicate Live(s: State) {
    s.Deploying? || s.Connecting? || s.Synchronizing? || s.Ready?
  }

  predicate IsFailure(s: State) {
    s.InvalidCredentials? || s.ServerNotFound? || s.ProvisioningFailed? || s.BrokerDisconnected? || s.TradingDisabled?
  }

  type Failure = s: State | IsFailure(s) witness ProvisioningFailed

  // ---------------------------------------------------------------- what provider and terminal answer

  /** `Unfinished` and `Refused` may leave an account that the provider made without telling. */
  datatype CreateAnswer = Made(id: Id) | Unfinished(silent: Option<Id>) | Refused(silent: Option<Id>, failure: Failure)

  datatype AccountInfo = AccountInfo(login: string, server: string, tradeAllowed: bool, investorMode: bool)

  datatype Terminal = NotAcquired | Acquired(info: Option<AccountInfo>)

  /** None where a call succeeds, otherwise the state its error maps to. */
  datatype Answers = Answers(
    decrypts: bool, create: CreateAnswer, fetch: Option<Failure>, deploy: Option<Failure>, connect: Option<Failure>,
    terminal: Terminal, closes: bool, undeploys: bool, removes: bool)

  /** Why a synchronized account may not be used. */
  function Rejects(c: Connection, info: Option<AccountInfo>): Option<State> {
    if info.None? then Some(SynchronizationFailed)
    else if info.value.login != c.login || Lowered(info.value.server) != Lowered(c.server)
    then Some(SynchronizationFailed)
    else if !info.value.tradeAllowed || info.value.investorMode then Some(TradingDisabled)
    else None
  }

  // ---------------------------------------------------------------- effects

  datatype Effect = Save(row: Connection) | CreateAccount(id: Id) | RemoveAccount(id: Id)

  datatype World = World(row: Connection, accounts: set<Id>)

  function Perform(w: World, e: Effect): World {
    match e
    case Save(row) => w.(row := row)
    case CreateAccount(id) => w.(accounts := w.accounts + {id})
    case RemoveAccount(id) => w.(accounts := w.accounts - {id})
  }

  function PerformAll(w: World, es: seq<Effect>): World
    decreases |es|
  {
    if es == [] then w else PerformAll(Perform(w, es[0]), es[1..])
  }

  /** The account cannot be fetched when the provider has no such account. */
  function FetchFailure(id: Id, accounts: set<Id>, x: Answers): Option<Failure> {
    if id !in accounts then Some(ProvisioningFailed) else x.fetch
  }

  /** Validation of the terminal after synchronization; nothing is saved when it cannot be acquired. */
  function FinishEffects(c: Connection, x: Answers): seq<Effect> {
    if c.accountId.None? || x.terminal.NotAcquired? then []
    else if Rejects(c, x.terminal.info).Some? then [Save(c.(state := Rejects(c, x.terminal.info).value))]
    else [Save(c.(state := Ready))]
  }

  function ConnectEffects(c: Connection, x: Answers): seq<Effect> {
    [Save(c.(state := Connecting))] +
    if x.connect.Some? then [Save(c.(state := x.connect.value))]
    else [Save(c.(state := Synchronizing))] + FinishEffects(c, x)
  }

  function DeployEffects(c: Connection, accounts: set<Id>, x: Answers): seq<Effect> {
    [Save(c.(state := Deploying))] +
    if c.accountId.Some? && FetchFailure(c.accountId.value, accounts, x).Some?
    then [Save(c.(state := FetchFailure(c.accountId.value, accounts, x).value))]
    else if x.deploy.Some? then [Save(c.(state := x.deploy.value))]
    else ConnectEffects(c, x)
  }

  function Silently(id: Option<Id>): seq<Effect> {
    if id.Some? then [CreateAccount(id.value)] else []
  }

  function ProvisionEffects(c: Connection, accounts: set<Id>, x: Answers): seq<Effect> {
    if c.password.None? then FinishEffects(c, x)
    else if !x.decrypts then []
    else if c.accountId.Some? then DeployEffects(c, accounts, x)
    else
      var p := c.(state := Provisioning);
      [Save(p)] +
      match x.create
      case Unfinished(silent) => Silently(silent)
      case Refused(silent, failure) => Silently(silent) + [Save(p.(state := failure))]
      case Made(id) => [CreateAccount(id)] + DeployEffects(p.(accountId := Some(id)), accounts + {id}, x)
  }

  /** The row after a completed deletion. */
  function Erased(c: Connection): Connection {
    c.(state := Deleted, accountId := None, password := None)
  }

  predicate RemovesAccount(id: Id, accounts: set<Id>, x: Answers) {
    FetchFailure(id, accounts, x).None? && x.undeploys && x.removes
  }

  function DeleteEffects(c: Connection, accounts: set<Id>, x: Answers): seq<Effect> {
    if c.accountId.None? then [Save(c.(state := Deleting)), Save(Erased(c))]
    else if !x.closes then []
    else if RemovesAccount(c.accountId.value, accounts, x)
    then [Save(c.(state := Deleting)), RemoveAccount(c.accountId.value), Save(Erased(c))]
    else [Save(c.(state := Deleting))]
  }

  datatype Delivery =
    | Provision(answers: Answers)
    | Delete(answers: Answers)
    | RetriesExhausted
    | Retry
    | RequestDelete
    | Resubmit(password: string)

  function Effects(w: World, d: Delivery): seq<Effect> {
    match d
    case Provision(x) => ProvisionEffects(w.row, w.accounts, x)
    case Delete(x) => DeleteEffects(w.row, w.accounts, x)
    case RetriesExhausted =>
      if w.row.state.Provisioning? && w.row.accountId.None? then [Save(w.row.(state := ProvisioningFailed))] else []
    case Retry =>
      if w.row.state.Deleting? || w.row.state.Deleted? then [] else [Save(w.row.(state := State.Provisioning))]
    case RequestDelete => if w.row.state.Deleted? then [] else [Save(w.row.(state := Deleting))]
    case Resubmit(password) =>
      if w.row.state.Deleted?
      then [Save(w.row.(state := Submitted, accountId := None, password := Some(password)))] else []
  }

  /** The effects performed by a process that dies after `alive` of them. */
  function Cut(es: seq<Effect>, alive: nat): seq<Effect> {
    if alive < |es| then es[..alive] else es
  }

  function Deliver(w: World, d: Delivery, alive: nat): World {
    PerformAll(w, Cut(Effects(w, d), alive))
  }

  ghost function Run(w: World, ds: seq<(Delivery, nat)>): World
    decreases |ds|
  {
    if ds == [] then w else Run(Deliver(w, ds[0].0, ds[0].1), ds[1..])
  }

  function Fresh(password: string, login: string, server: string): World {
    World(Connection(Submitted, None, Some(password), login, server), {})
  }

  // ---------------------------------------------------------------- the invariant

  /** A connection in use has an account, and a deleted one has neither account nor password. */
  ghost predicate RowOk(c: Connection) {
    (Live(c.state) ==> c.accountId.Some?) && (c.state.Deleted? ==> c.accountId.None? && c.password.None?)
  }

  ghost predicate SavesOk(es: seq<Effect>) {
    forall i :: 0 <= i < |es| && es[i].Save? ==> RowOk(es[i].row)
  }

  lemma SavesOkConcat(a: seq<Effect>, b: seq<Effect>)
    requires SavesOk(a) && SavesOk(b)
    ensures SavesOk(a + b)
  {
  }

  lemma DeploySavesOk(c: Connection, accounts: set<Id>, x: Answers)
    requires c.accountId.Some?
    ensures SavesOk(DeployEffects(c, accounts, x))
  {
    assert SavesOk(FinishEffects(c, x));
    assert SavesOk(ConnectEffects(c, x));
  }

  lemma ProvisionSavesOk(c: Connection, accounts: set<Id>, x: Answers)
    requires RowOk(c)
    ensures SavesOk(ProvisionEffects(c, accounts, x))
  {
    if c.password.None? {
      assert SavesOk(FinishEffects(c, x));
    } else if c.accountId.Some? {
      DeploySavesOk(c, accounts, x);
    } else {
      var p := c.(state := Provisioning);
      assert SavesOk([Save(p)]);
      match x.create {
        case Unfinished(silent) =>
        case Refused(silent, failure) =>
        case Made(id) =>
          var q := p.(accountId := Some(id));
          DeploySavesOk(q, accounts + {id}, x);
          SavesOkConcat([CreateAccount(id)], DeployEffects(q, accounts + {id}, x));
          SavesOkConcat([Save(p)], [CreateAccount(id)] + DeployEffects(q, accounts + {id}, x));
      }
    }
  }

  lemma {:induction false} PerformKeeps(w: World, es: seq<Effect>)
    requires RowOk(w.row) && SavesOk(es)
    ensures RowOk(PerformAll(w, es).row)
    decreases |es|
  {
    if es != [] {
      PerformKeeps(Perform(w, es[0]), es[1..]);
    }
  }

  lemma DeliverKeeps(w: World, d: Delivery, alive: nat)
    requires RowOk(w.row)
    ensures RowOk(Deliver(w, d, alive).row)
  {
    if d.Provision? {
      ProvisionSavesOk(w.row, w.accounts, d.answers);
    }
    assert SavesOk(Effects(w, d));
    PerformKeeps(w, Cut(Effects(w, d), alive));
  }

  lemma {:induction false} RunKeeps(w: World, ds: seq<(Delivery, nat)>)
    requires RowOk(w.row)
    ensures RowOk(Run(w, ds).row)
    decreases |ds|
  {
    if ds != [] {
      DeliverKeeps(w, ds[0].0, ds[0].1);
      RunKeeps(Deliver(w, ds[0].0, ds[0].1), ds[1..]);
    }
  }

  /** Over any deliveries, repeated and cut short anywhere, a connection that is deploying, connecting,
      synchronizing or ready has a provider account, and a deleted one has neither account nor password. */
  lemma RowTheorem(password: string, login: string, server: string, ds: seq<(Delivery, nat)>)
    ensures Live(Run(Fresh(password, login, server), ds).row.state) ==> Run(Fresh(password, login, server), ds).row.accountId.Some?
    ensures Run(Fresh(password, login, server), ds).row.state.Deleted? ==>
              Run(Fresh(password, login, server), ds).row.accountId.None? && Run(Fresh(password, login, server), ds).row.password.None?
  {
    RunKeeps(Fresh(password, login, server), ds);
  }

  // ---------------------------------------------------------------- after deletion

  /** Nothing is left to delete. */
  ghost predicate Gone(c: Connection) {
    (c.state.Deleted? || c.state.Deleting?) && c.accountId.None? && c.password.None?
  }

  lemma PerformFirst(w: World, e: Effect, es: seq<Effect>)
    ensures PerformAll(w, [e] + es) == PerformAll(Perform(w, e), es)
  {
    assert ([e] + es)[1..] == es;
  }

  lemma PerformTwo(w: World, a: Connection, b: Connection, alive: nat)
    ensures PerformAll(w, Cut([Save(a), Save(b)], alive)) ==
            w.(row := if alive == 0 then w.row else if alive == 1 then a else b)
  {
    var es := [Save(a), Save(b)];
    if alive == 0 {
      assert Cut(es, alive) == [];
    } else if alive == 1 {
      assert Cut(es, alive) == [Save(a)];
      PerformFirst(w, Save(a), []);
    } else {
      assert es == [Save(a)] + [Save(b)];
      PerformFirst(w, Save(a), [Save(b)]);
      PerformFirst(w.(row := a), Save(b), []);
    }
  }

  lemma PerformNone(w: World, alive: nat)
    ensures PerformAll(w, Cut([], alive)) == w
  {
  }

  lemma PerformOne(w: World, a: Connection, alive: nat)
    ensures PerformAll(w, Cut([Save(a)], alive)) == w.(row := if alive == 0 then w.row else a)
  {
    assert [Save(a)][1..] == [];
    assert alive == 0 ==> Cut([Save(a)], alive) == [];
  }

  /** Once gone, only a new submission by the user changes anything but the state, and the state only
      moves between deleted and, by a delete that dies half-way, deleting. */
  lemma GoneStep(w: World, d: Delivery, alive: nat)
    requires Gone(w.row) && !d.Resubmit?
    ensures Gone(Deliver(w, d, alive).row)
    ensures Deliver(w, d, alive).accounts == w.accounts
    ensures Deliver(w, d, alive).row.state ==
            if d.Delete? && alive == 1 then Deleting
            else if d.Delete? && alive >= 2 then Deleted
            else w.row.state
  {
    if d.Delete? {
      PerformTwo(w, w.row.(state := Deleting), Erased(w.row), alive);
    } else if d.RequestDelete? && w.row.state.Deleting? {
      PerformOne(w, w.row.(state := Deleting), alive);
    } else {
      assert Effects(w, d) == [];
      PerformNone(w, alive);
    }
  }

  /** The number of effects performed by the last delete that performed any, if there is one. */
  ghost function LastDelete(ds: seq<(Delivery, nat)>): Option<nat> {
    if ds == [] then None
    else if ds[|ds| - 1].0.Delete? && ds[|ds| - 1].1 > 0 then Some(ds[|ds| - 1].1)
    else LastDelete(ds[..|ds| - 1])
  }

  lemma {:induction false} RunSplits(w: World, ds: seq<(Delivery, nat)>)
    requires ds != []
    ensures Run(w, ds) == Deliver(Run(w, ds[..|ds| - 1]), ds[|ds| - 1].0, ds[|ds| - 1].1)
    decreases |ds|
  {
    if |ds| == 1 {
      assert ds[1..] == [];
    } else {
      RunSplits(Deliver(w, ds[0].0, ds[0].1), ds[1..]);
      assert ds[1..][..|ds| - 2] == ds[..|ds| - 1][1..];
    }
  }

  lemma {:induction false} GoneRun(w: World, ds: seq<(Delivery, nat)>)
    requires Gone(w.row) && forall i :: 0 <= i < |ds| ==> !ds[i].0.Resubmit?
    ensures Gone(Run(w, ds).row) && Run(w, ds).accounts == w.accounts
    ensures Run(w, ds).row.state == if LastDelete(ds).None? then w.row.state
                                    else if LastDelete(ds).value == 1 then Deleting else Deleted
    decreases |ds|
  {
    if ds != [] {
      GoneRun(w, ds[..|ds| - 1]);
      RunSplits(w, ds);
      GoneStep(Run(w, ds[..|ds| - 1]), ds[|ds| - 1].0, ds[|ds| - 1].1);
    }
  }

  /** After a completed deletion the connection is deleted again at the end of any redelivered events
      exactly when the last delete that did anything was not cut short after its first commit. */
  lemma DeletedStaysExactly(w: World, ds: seq<(Delivery, nat)>)
    requires RowOk(w.row) && w.row.state.Deleted?
    requires forall i :: 0 <= i < |ds| ==> !ds[i].0.Resubmit?
    ensures Run(w, ds).row.state.Deleted? <==> LastDelete(ds) != Some(1)
    ensures Run(w, ds).row.accountId.None? && Run(w, ds).row.password.None? && Run(w, ds).accounts == w.accounts
  {
    GoneRun(w, ds);
  }

  // ---------------------------------------------------------------- deleting the provider's account

  lemma PerformThree(w: World, a: Connection, id: Id, b: Connection)
    ensures PerformAll(w, [Save(a), RemoveAccount(id), Save(b)]) == World(b, w.accounts - {id})
    ensures PerformAll(w, [Save(a), RemoveAccount(id)]) == World(a, w.accounts - {id})
  {
    var gone := World(a, w.accounts - {id});
    assert [Save(a), RemoveAccount(id), Save(b)] == [Save(a)] + ([RemoveAccount(id)] + [Save(b)]);
    PerformFirst(w, Save(a), [RemoveAccount(id)] + [Save(b)]);
    PerformFirst(w.(row := a), RemoveAccount(id), [Save(b)]);
    PerformFirst(gone, Save(b), []);
    assert [Save(a), RemoveAccount(id)] == [Save(a)] + ([RemoveAccount(id)] + []);
    PerformFirst(w, Save(a), [RemoveAccount(id)] + []);
    PerformFirst(w.(row := a), RemoveAccount(id), []);
  }

  /** An uninterrupted delete ends deleted exactly when there is no account or the provider still has it
      and answers every call; then no account but the recorded one is removed. */
  lemma DeleteCompletesExactly(w: World, x: Answers, alive: nat)
    requires RowOk(w.row) && alive >= 3
    ensures Deliver(w, Delete(x), alive).row.state.Deleted? <==>
            w.row.accountId.None? ||
            (x.closes && w.row.accountId.value in w.accounts && x.fetch.None? && x.undeploys && x.removes)
    ensures Deliver(w, Delete(x), alive).row.state.Deleted? ==>
              Deliver(w, Delete(x), alive).accounts ==
              w.accounts - if w.row.accountId.Some? then {w.row.accountId.value} else {}
  {
    var c := w.row;
    if c.accountId.None? {
      PerformTwo(w, c.(state := Deleting), Erased(c), alive);
    } else if !x.closes {
      PerformNone(w, alive);
    } else if RemovesAccount(c.accountId.value, w.accounts, x) {
      PerformThree(w, c.(state := Deleting), c.accountId.value, Erased(c));
    } else {
      PerformOne(w, c.(state := Deleting), alive);
    }
  }

  /** A delete that dies between removing the account and its last commit leaves a row that still names
      the removed account. */
  lemma CutDeleteWedges(w: World, x: Answers)
    requires w.row.accountId.Some? && x.closes && RemovesAccount(w.row.accountId.value, w.accounts, x)
    ensures Wedged(Deliver(w, Delete(x), 2), w.row.accountId.value)
  {
    var c := w.row;
    var es := [Save(c.(state := Deleting)), RemoveAccount(c.accountId.value), Save(Erased(c))];
    assert Cut(es, 2) == [Save(c.(state := Deleting)), RemoveAccount(c.accountId.value)];
    PerformThree(w, c.(state := Deleting), c.accountId.value, Erased(c));
  }

  ghost predicate Wedged(w: World, id: Id) {
    w.row.accountId == Some(id) && id !in w.accounts && !w.row.state.Deleted?
  }

  ghost predicate KeepsAccount(es: seq<Effect>, id: Id) {
    forall i :: 0 <= i < |es| ==> es[i].Save? && es[i].row.accountId == Some(id) && !es[i].row.state.Deleted?
  }

  lemma {:induction false} PerformWedged(w: World, es: seq<Effect>, id: Id)
    requires Wedged(w, id) && KeepsAccount(es, id)
    ensures Wedged(PerformAll(w, es), id)
    decreases |es|
  {
    if es != [] {
      PerformWedged(Perform(w, es[0]), es[1..], id);
    }
  }

  lemma WedgedEffects(w: World, d: Delivery, id: Id)
    requires Wedged(w, id)
    ensures KeepsAccount(Effects(w, d), id)
  {
    if d.Provision? {
      assert KeepsAccount(FinishEffects(w.row, d.answers), id);
    }
  }

  /** From then on no deliveries whatever bring the connection to deleted: fetching the account fails. */
  lemma {:induction false} WedgedForever(w: World, ds: seq<(Delivery, nat)>, id: Id)
    requires Wedged(w, id)
    ensures Wedged(Run(w, ds), id)
    decreases |ds|
  {
    if ds != [] {
      var es := Effects(w, ds[0].0);
      WedgedEffects(w, ds[0].0, id);
      assert KeepsAccount(Cut(es, ds[0].1), id);
      PerformWedged(w, Cut(es, ds[0].1), id);
      WedgedForever(Deliver(w, ds[0].0, ds[0].1), ds[1..], id);
    }
  }

  // ---------------------------------------------------------------- accounts that outlive their row

  /** The provider has no account but the recorded one. */
  ghost predicate NoOrphan(w: World) {
    forall id :: id in w.accounts ==> w.row.accountId == Some(id)
  }

  /** The provider made an account in the course of the create call. */
  function MadeBy(a: CreateAnswer): Option<Id> {
    match a
    case Made(id) => Some(id)
    case Unfinished(silent) => silent
    case Refused(silent, _) => silent
  }

  /** A new provisioning in which the provider makes an account that is not recorded: it does so
      silently, or the process dies right after the call. */
  ghost predicate Leaves(w: World, d: Delivery, alive: nat) {
    && d.Provision? && w.row.password.Some? && w.row.accountId.None? && d.answers.decrypts
    && MadeBy(d.answers.create).Some?
    && (if d.answers.create.Made? then alive == 2 else alive >= 2)
  }

  ghost predicate OnlySaves(es: seq<Effect>, id: Option<Id>) {
    forall i :: 0 <= i < |es| ==> es[i].Save? && es[i].row.accountId == id
  }

  lemma {:induction false} SavesKeepAccounts(w: World, es: seq<Effect>, id: Option<Id>)
    requires OnlySaves(es, id)
    ensures PerformAll(w, es).accounts == w.accounts
    ensures PerformAll(w, es).row.accountId == if es == [] then w.row.accountId else id
    decreases |es|
  {
    if es != [] {
      SavesKeepAccounts(Perform(w, es[0]), es[1..], id);
    }
  }

  lemma DeployOnlySaves(c: Connection, accounts: set<Id>, x: Answers)
    ensures OnlySaves(FinishEffects(c, x), c.accountId)
    ensures OnlySaves(DeployEffects(c, accounts, x), c.accountId)
  {
    assert OnlySaves(ConnectEffects(c, x), c.accountId);
  }

  /** A delivery that only saves rows with the recorded account leaves none behind. */
  lemma SavesLeaveNothing(w: World, es: seq<Effect>, alive: nat)
    requires NoOrphan(w) && OnlySaves(es, w.row.accountId)
    ensures NoOrphan(PerformAll(w, Cut(es, alive)))
  {
    SavesKeepAccounts(w, Cut(es, alive), w.row.accountId);
  }

  lemma NewAccountLeaves(w: World, x: Answers, alive: nat)
    requires NoOrphan(w) && w.row.password.Some? && w.row.accountId.None? && x.decrypts
    ensures NoOrphan(Deliver(w, Provision(x), alive)) <==> !Leaves(w, Provision(x), alive)
  {
    var p := w.row.(state := State.Provisioning);
    var es := ProvisionEffects(w.row, w.accounts, x);
    CutFirst(w, Save(p), es[1..], alive);
    assert es == [Save(p)] + es[1..];
    if alive > 0 {
      NewAccountRest(World(p, w.accounts), x, alive - 1);
    }
  }

  /** What follows the first commit of a new provisioning. */
  lemma NewAccountRest(w: World, x: Answers, alive: nat)
    requires NoOrphan(w) && w.row.password.Some? && w.row.accountId.None? && x.decrypts && w.row.state.Provisioning?
    ensures NoOrphan(PerformAll(w, Cut(ProvisionEffects(w.row, w.accounts, x)[1..], alive))) <==>
            !(MadeBy(x.create).Some? && if x.create.Made? then alive == 1 else alive >= 1)
  {
    var es := ProvisionEffects(w.row, w.accounts, x)[1..];
    match x.create {
      case Made(id) =>
        var q := w.row.(accountId := Some(id));
        var deploy := DeployEffects(q, w.accounts + {id}, x);
        assert es == [CreateAccount(id)] + deploy;
        CutFirst(w, CreateAccount(id), deploy, alive);
        if alive > 0 {
          var v := World(w.row, w.accounts + {id});
          DeployOnlySaves(q, w.accounts + {id}, x);
          SavesKeepAccounts(v, Cut(deploy, alive - 1), Some(id));
          assert id in v.accounts;
        }
      case Unfinished(silent) =>
        assert es == Silently(silent);
        SilentRest(w, silent, [], alive);
      case Refused(silent, failure) =>
        assert es == Silently(silent) + [Save(w.row.(state := failure))];
        SilentRest(w, silent, [Save(w.row.(state := failure))], alive);
    }
  }

  lemma SilentRest(w: World, silent: Option<Id>, rest: seq<Effect>, alive: nat)
    requires NoOrphan(w) && w.row.accountId.None? && OnlySaves(rest, None)
    ensures NoOrphan(PerformAll(w, Cut(Silently(silent) + rest, alive))) <==> !(silent.Some? && alive >= 1)
  {
    if silent.Some? {
      var v := World(w.row, w.accounts + {silent.value});
      CutFirst(w, CreateAccount(silent.value), rest, alive);
      if alive > 0 {
        SavesKeepAccounts(v, Cut(rest, alive - 1), None);
        assert silent.value in v.accounts;
      }
    } else {
      assert Silently(silent) + rest == rest;
      SavesKeepAccounts(w, Cut(rest, alive), None);
    }
  }

  lemma DeleteLeavesNothing(w: World, x: Answers, alive: nat)
    requires NoOrphan(w)
    ensures NoOrphan(Deliver(w, Delete(x), alive))
  {
    var c := w.row;
    if c.accountId.None? {
      SavesLeaveNothing(w, DeleteEffects(c, w.accounts, x), alive);
    } else if x.closes && RemovesAccount(c.accountId.value, w.accounts, x) {
      var id, marked := c.accountId.value, c.(state := Deleting);
      var last := [RemoveAccount(id)] + [Save(Erased(c))];
      assert DeleteEffects(c, w.accounts, x) == [Save(marked)] + last;
      CutFirst(w, Save(marked), last, alive);
      if alive > 0 {
        var v := World(marked, w.accounts);
        CutFirst(v, RemoveAccount(id), [Save(Erased(c))], alive - 1);
        if alive > 1 {
          CutLast(World(marked, w.accounts - {id}), Save(Erased(c)), alive - 2);
        }
      }
    } else {
      SavesLeaveNothing(w, DeleteEffects(c, w.accounts, x), alive);
    }
  }

  /** A delivery leaves an account unrecorded exactly when it makes a new one silently or dies between
      the provider's call and the commit that records it. */
  lemma LeavesExactly(w: World, d: Delivery, alive: nat)
    requires NoOrphan(w) && RowOk(w.row)
    ensures NoOrphan(Deliver(w, d, alive)) <==> !Leaves(w, d, alive)
  {
    if d.Delete? {
      DeleteLeavesNothing(w, d.answers, alive);
    } else if d.Provision? && w.row.password.Some? && w.row.accountId.None? && d.answers.decrypts {
      NewAccountLeaves(w, d.answers, alive);
    } else {
      if d.Provision? {
        DeployOnlySaves(w.row, w.accounts, d.answers);
      }
      SavesLeaveNothing(w, Effects(w, d), alive);
    }
  }

  ghost predicate LeavesAt(w: World, ds: seq<(Delivery, nat)>, k: nat) {
    k < |ds| && Leaves(Run(w, ds[..k]), ds[k].0, ds[k].1)
  }

  ghost predicate AlwaysRecorded(w: World, ds: seq<(Delivery, nat)>) {
    forall k :: 0 <= k <= |ds| ==> NoOrphan(Run(w, ds[..k]))
  }

  /** A run keeps the provider's accounts down to the recorded one at every point exactly when none of
      its deliveries leaves an account unrecorded. */
  lemma {:induction false} RecordedExactly(w: World, ds: seq<(Delivery, nat)>)
    requires NoOrphan(w) && RowOk(w.row)
    ensures AlwaysRecorded(w, ds) <==> !exists k :: LeavesAt(w, ds, k)
    decreases |ds|
  {
    if ds == [] {
      assert Run(w, ds[..0]) == w;
    } else {
      var head, last := ds[..|ds| - 1], ds[|ds| - 1];
      RecordedExactly(w, head);
      RunKeeps(w, head);
      RunSplits(w, ds);
      assert ds[..|ds|] == ds && ds[..|head|] == head && head[..|head|] == head;
      PrefixRecorded(w, ds, head);
      PrefixLeaves(w, ds, head);
      if AlwaysRecorded(w, head) {
        assert NoOrphan(Run(w, head[..|head|]));
        LeavesExactly(Run(w, head), last.0, last.1);
      }
    }
  }

  lemma PrefixRecorded(w: World, ds: seq<(Delivery, nat)>, head: seq<(Delivery, nat)>)
    requires ds != [] && head == ds[..|ds| - 1]
    ensures AlwaysRecorded(w, ds) <==> AlwaysRecorded(w, head) && NoOrphan(Run(w, ds))
  {
    assert ds[..|ds|] == ds;
    if AlwaysRecorded(w, ds) {
      forall k | 0 <= k <= |head|
        ensures NoOrphan(Run(w, head[..k]))
      {
        assert head[..k] == ds[..k];
      }
    }
    if AlwaysRecorded(w, head) && NoOrphan(Run(w, ds)) {
      forall k | 0 <= k <= |ds|
        ensures NoOrphan(Run(w, ds[..k]))
      {
        if k <= |head| {
          assert head[..k] == ds[..k];
        }
      }
    }
  }

  lemma LeavesInPrefix(w: World, ds: seq<(Delivery, nat)>, head: seq<(Delivery, nat)>, k: nat)
    requires ds != [] && head == ds[..|ds| - 1] && k < |head|
    ensures LeavesAt(w, head, k) <==> LeavesAt(w, ds, k)
  {
    assert head[..k] == ds[..k];
  }

  lemma PrefixLeaves(w: World, ds: seq<(Delivery, nat)>, head: seq<(Delivery, nat)>)
    requires ds != [] && head == ds[..|ds| - 1]
    ensures (exists k :: LeavesAt(w, ds, k)) <==>
            (exists k :: LeavesAt(w, head, k)) || Leaves(Run(w, head), ds[|head|].0, ds[|head|].1)
  {
    assert LeavesAt(w, ds, |head|) <==> Leaves(Run(w, head), ds[|head|].0, ds[|head|].1);
    forall k: nat | k < |head|
      ensures LeavesAt(w, head, k) <==> LeavesAt(w, ds, k)
    {
      LeavesInPrefix(w, ds, head, k);
    }
  }

  /** A fresh connection that ends deleted after such a run leaves nothing with the provider. */
  lemma DeletedLeavesNothing(password: string, login: string, server: string, ds: seq<(Delivery, nat)>)
    requires Run(Fresh(password, login, server), ds).row.state.Deleted?
    requires !exists k :: LeavesAt(Fresh(password, login, server), ds, k)
    ensures Run(Fresh(password, login, server), ds).accounts == {}
  {
    var w := Fresh(password, login, server);
    RecordedExactly(w, ds);
    assert ds[..|ds|] == ds;
    assert NoOrphan(Run(w, ds[..|ds|]));
    RunKeeps(w, ds);
  }

  /** A delete that overtakes the recording of a new account ends deleted and leaves the account with the
      provider. */
  lemma EarlyDeleteOrphans(password: string, login: string, server: string, x: Answers, id: Id)
    requires x.decrypts && x.create == Made(id)
    ensures Run(Fresh(password, login, server), [(Provision(x), 2), (Delete(x), 2)]).row.state.Deleted?
    ensures id in Run(Fresh(password, login, server), [(Provision(x), 2), (Delete(x), 2)]).accounts
  {
    var w := Fresh(password, login, server);
    var p := w.row.(state := Provisioning);
    var es := Effects(w, Provision(x));
    assert es[0] == Save(p) && es[1] == CreateAccount(id);
    assert Cut(es, 2) == [Save(p), CreateAccount(id)];
    assert [Save(p), CreateAccount(id)] == [Save(p)] + ([CreateAccount(id)] + []);
    PerformFirst(w, Save(p), [CreateAccount(id)] + []);
    PerformFirst(w.(row := p), CreateAccount(id), []);
    var v := Deliver(w, Provision(x), 2);
    assert v == World(p, {id});
    PerformTwo(v, p.(state := Deleting), Erased(p), 2);
    var ds: seq<(Delivery, nat)> := [(Provision(x), 2), (Delete(x), 2)];
    var rest: seq<(Delivery, nat)> := [(Delete(x), 2)];
    assert ds[1..] == rest && rest[1..] == [];
    var u := Deliver(v, Delete(x), 2);
    assert Run(u, []) == u;
    assert Run(v, rest) == u;
    assert Run(w, ds) == Run(v, rest);
  }

  // ---------------------------------------------------------------- ready

  ghost predicate ReadyOnlyIf(es: seq<Effect>, ok: bool) {
    forall i :: 0 <= i < |es| && es[i].Save? && es[i].row.state.Ready? ==> ok
  }

  lemma {:induction false} ReadyComesFromSave(w: World, es: seq<Effect>, ok: bool)
    requires ReadyOnlyIf(es, ok) && PerformAll(w, es).row.state.Ready?
    ensures w.row.state.Ready? || ok
    decreases |es|
  {
    if es != [] {
      ReadyComesFromSave(Perform(w, es[0]), es[1..], ok);
    }
  }

  /** The terminal is the requested account and may trade. */
  predicate Usable(c: Connection, t: Terminal) {
    && t.Acquired? && t.info.Some?
    && t.info.value.login == c.login
    && Lowered(t.info.value.server) == Lowered(c.server)
    && t.info.value.tradeAllowed && !t.info.value.investorMode
  }

  lemma DeployReady(c: Connection, accounts: set<Id>, x: Answers)
    ensures ReadyOnlyIf(DeployEffects(c, accounts, x), Usable(c, x.terminal))
    ensures ReadyOnlyIf(FinishEffects(c, x), Usable(c, x.terminal))
  {
    assert ReadyOnlyIf(FinishEffects(c, x), Usable(c, x.terminal));
    assert ReadyOnlyIf(ConnectEffects(c, x), Usable(c, x.terminal));
  }

  /** A delivery makes a connection ready only after its terminal was found to be the requested account
      with trading allowed. */
  lemma ReadyMeansValidated(w: World, d: Delivery, alive: nat)
    requires !w.row.state.Ready? && Deliver(w, d, alive).row.state.Ready?
    ensures d.Provision? && Usable(w.row, d.answers.terminal)
  {
    var es := Effects(w, d);
    var ok := d.Provision? && Usable(w.row, d.answers.terminal);
    if d.Provision? {
      ProvisionReady(w.row, w.accounts, d.answers);
    }
    assert ReadyOnlyIf(es, ok);
    assert ReadyOnlyIf(Cut(es, alive), ok);
    ReadyComesFromSave(w, Cut(es, alive), ok);
  }

  lemma ProvisionReady(c: Connection, accounts: set<Id>, x: Answers)
    ensures ReadyOnlyIf(ProvisionEffects(c, accounts, x), Usable(c, x.terminal))
  {
    DeployReady(c, accounts, x);
    if x.create.Made? {
      var q := c.(state := Provisioning, accountId := Some(x.create.id));
      DeployReady(q, accounts + {x.create.id}, x);
      assert Usable(q, x.terminal) == Usable(c, x.terminal);
    }
  }

  // ---------------------------------------------------------------- what an uncut delivery leaves

  lemma {:induction false} PerformConcat(w: World, es: seq<Effect>, fs: seq<Effect>)
    ensures PerformAll(w, es + fs) == PerformAll(PerformAll(w, es), fs)
    decreases |es|
  {
    if es == [] {
      assert es + fs == fs;
    } else {
      PerformConcat(Perform(w, es[0]), es[1..], fs);
      assert (es + fs)[1..] == es[1..] + fs;
    }
  }

  /** The last row saved is the row that remains. */
  lemma LastSaveRemains(w: World, es: seq<Effect>, row: Connection)
    ensures PerformAll(w, es + [Save(row)]).row == row
  {
    PerformConcat(w, es, [Save(row)]);
    PerformOne(PerformAll(w, es), row, 1);
    assert Cut([Save(row)], 1) == [Save(row)];
  }

  /** The account of the provisioning: the recorded one, or the one just made. */
  function AccountFor(c: Connection, x: Answers): Option<Id> {
    if c.accountId.Some? then c.accountId else if x.create.Made? then Some(x.create.id) else None
  }

  /** The account can be fetched: the provider has it and answers. */
  predicate Fetches(w: World, x: Answers) {
    AccountFor(w.row, x).Some? && (w.row.accountId.Some? ==> w.row.accountId.value in w.accounts) && x.fetch.None?
  }

  lemma UncutDeploy(c: Connection, accounts: set<Id>, x: Answers) returns (es: seq<Effect>, row: Connection)
    requires c.accountId.Some?
    ensures DeployEffects(c, accounts, x) == es + [Save(row)]
    ensures row == c.(state := row.state)
    ensures c.accountId.value !in accounts ==> row.state == ProvisioningFailed
    ensures c.accountId.value in accounts && x.fetch.Some? ==> row.state == x.fetch.value
    ensures c.accountId.value in accounts && x.fetch.None? && x.deploy.Some? ==> row.state == x.deploy.value
    ensures c.accountId.value in accounts && x.fetch.None? && x.deploy.None? && x.connect.Some? ==> row.state == x.connect.value
    ensures c.accountId.value in accounts && x.fetch.None? && x.deploy.None? && x.connect.None? ==> row.state == TerminalState(c, x.terminal)
  {
    var all := DeployEffects(c, accounts, x);
    var last := |all| - 1;
    es := all[..last];
    assert all[last].Save?;
    row := all[last].row;
  }

  /** The state that the terminal's answer leads to. */
  ghost function TerminalState(c: Connection, t: Terminal): State {
    if t.NotAcquired? then Synchronizing
    else if t.info.None? then SynchronizationFailed
    else if t.info.value.login != c.login || Lowered(t.info.value.server) != Lowered(c.server) then SynchronizationFailed
    else if !t.info.value.tradeAllowed || t.info.value.investorMode then TradingDisabled
    else Ready
  }

  /** An uninterrupted provisioning ends in the state of the first call that fails, or with every call answered
      in the state that the terminal's answer leads to, and records its account. */
  lemma ProvisionOutcome(w: World, x: Answers, alive: nat)
    requires w.row.password.Some? && x.decrypts && AccountFor(w.row, x).Some?
    requires alive >= |ProvisionEffects(w.row, w.accounts, x)|
    ensures Deliver(w, Provision(x), alive).row == w.row.(accountId := AccountFor(w.row, x), state := Deliver(w, Provision(x), alive).row.state)
    ensures w.row.accountId.Some? && w.row.accountId.value !in w.accounts ==> Deliver(w, Provision(x), alive).row.state == ProvisioningFailed
    ensures (w.row.accountId.Some? ==> w.row.accountId.value in w.accounts) && x.fetch.Some? ==>
              Deliver(w, Provision(x), alive).row.state == x.fetch.value
    ensures Fetches(w, x) && x.deploy.Some? ==> Deliver(w, Provision(x), alive).row.state == x.deploy.value
    ensures Fetches(w, x) && x.deploy.None? && x.connect.Some? ==> Deliver(w, Provision(x), alive).row.state == x.connect.value
    ensures Fetches(w, x) && x.deploy.None? && x.connect.None? ==> Deliver(w, Provision(x), alive).row.state == TerminalState(w.row, x.terminal)
  {
    var es := ProvisionEffects(w.row, w.accounts, x);
    assert Cut(es, alive) == es;
    if w.row.accountId.Some? {
      var fs, row := UncutDeploy(w.row, w.accounts, x);
      LastSaveRemains(w, fs, row);
    } else {
      var p := w.row.(state := State.Provisioning);
      var q := p.(accountId := Some(x.create.id));
      var fs, row := UncutDeploy(q, w.accounts + {x.create.id}, x);
      assert es == ([Save(p), CreateAccount(x.create.id)] + fs) + [Save(row)];
      LastSaveRemains(w, [Save(p), CreateAccount(x.create.id)] + fs, row);
    }
  }

  /** So it ends ready exactly when every call succeeds and the terminal is the requested account and may trade. */
  lemma ReadyExactly(w: World, x: Answers, alive: nat)
    requires w.row.password.Some? && x.decrypts && AccountFor(w.row, x).Some?
    requires alive >= |ProvisionEffects(w.row, w.accounts, x)|
    ensures Deliver(w, Provision(x), alive).row.state.Ready? <==>
            Fetches(w, x) && x.deploy.None? && x.connect.None? && Usable(w.row, x.terminal)
  {
    ProvisionOutcome(w, x, alive);
  }

  /** Without an account made, a first provisioning ends `provisioning` while the provider is still at work, and
      in the state of the refusal otherwise; without a password nothing is provisioned. */
  lemma NoAccountOutcome(w: World, x: Answers, alive: nat)
    requires w.row.accountId.None? && alive >= |ProvisionEffects(w.row, w.accounts, x)|
    ensures w.row.password.Some? && x.decrypts && x.create.Unfinished? ==>
              Deliver(w, Provision(x), alive).row == w.row.(state := State.Provisioning)
    ensures w.row.password.Some? && x.decrypts && x.create.Refused? ==>
              Deliver(w, Provision(x), alive).row == w.row.(state := x.create.failure)
    ensures w.row.password.None? || !x.decrypts ==> Deliver(w, Provision(x), alive) == w
  {
    var es := ProvisionEffects(w.row, w.accounts, x);
    assert Cut(es, alive) == es;
    if w.row.password.Some? && x.decrypts && !x.create.Made? {
      var p := w.row.(state := State.Provisioning);
      var silent := Silently(x.create.silent);
      PerformConcat(w, [Save(p)], silent);
      PerformOne(w, p, 1);
      assert Cut([Save(p)], 1) == [Save(p)];
      if x.create.Unfinished? {
        assert es == [Save(p)] + silent;
        CutLast(World(p, w.accounts), if silent == [] then Save(p) else silent[0], 1);
        assert silent != [] ==> Cut([silent[0]], 1) == silent;
      } else {
        assert es == ([Save(p)] + silent) + [Save(p.(state := x.create.failure))];
        LastSaveRemains(w, [Save(p)] + silent, p.(state := x.create.failure));
      }
    }
  }

  /** The end of the retries fails a connection that is provisioning without an account, and no other; a retry
      puts any connection not deleted or being deleted back to provisioning; a deletion request marks any not
      deleted; a new submission takes over a deleted one only. */
  lemma RequestOutcome(w: World, d: Delivery, alive: nat)
    requires alive >= 1 && !d.Provision? && !d.Delete?
    ensures Deliver(w, d, alive).accounts == w.accounts
    ensures d.RetriesExhausted? ==> (Deliver(w, d, alive).row ==
              if w.row.state == State.Provisioning && w.row.accountId == None then w.row.(state := ProvisioningFailed) else w.row)
    ensures d.Retry? ==> (Deliver(w, d, alive).row ==
              if w.row.state == Deleting || w.row.state == Deleted then w.row else w.row.(state := State.Provisioning))
    ensures d.RequestDelete? ==> (Deliver(w, d, alive).row ==
              if w.row.state == Deleted then w.row else w.row.(state := Deleting))
    ensures d.Resubmit? && w.row.state == Deleted ==>
              Deliver(w, d, alive).row == w.row.(state := Submitted, accountId := None, password := Some(d.password))
    ensures d.Resubmit? && w.row.state != Deleted ==> Deliver(w, d, alive).row == w.row
  {
    var es := Effects(w, d);
    PerformNone(w, alive);
    if es != [] {
      assert es == [es[0]];
      PerformOne(w, es[0].row, alive);
    }
  }

  // ---------------------------------------------------------------- the handlers

  /** What is left of a list of effects when the first has been performed. */
  lemma CutFirst(w: World, e: Effect, es: seq<Effect>, alive: nat)
    ensures alive == 0 ==> PerformAll(w, Cut([e] + es, alive)) == w
    ensures alive > 0 ==> PerformAll(w, Cut([e] + es, alive)) == PerformAll(Perform(w, e), Cut(es, alive - 1))
  {
    if alive == 0 {
      assert Cut([e] + es, alive) == [];
    } else {
      assert Cut([e] + es, alive) == [e] + Cut(es, alive - 1);
      PerformFirst(w, e, Cut(es, alive - 1));
    }
  }

  lemma CutLast(w: World, e: Effect, alive: nat)
    ensures PerformAll(w, Cut([e], alive)) == if alive == 0 then w else Perform(w, e)
  {
    assert [e] == [e] + [];
    CutFirst(w, e, [], alive);
  }

  /** A worker process with the connection row loaded in a session; it dies when `alive` is used up. */
  class ProvisioningWorker {
    var stored: Connection
    var accounts: set<Id>
    var alive: nat

    ghost function Abs(): World
      reads this
    {
      World(stored, accounts)
    }

    constructor (row: Connection, accounts: set<Id>, alive: nat)
      ensures Abs() == World(row, accounts) && this.alive == alive
    {
      this.stored, this.accounts, this.alive := row, accounts, alive;
    }

    /** A commit of the row; false when the process dies before it. */
    method Persist(row: Connection) returns (ok: bool)
      modifies this
      ensures ok <==> old(alive) > 0
      ensures ok ==> Abs() == Perform(old(Abs()), Save(row)) && alive == old(alive) - 1
      ensures !ok ==> Abs() == old(Abs()) && alive == 0
    {
      ok := alive > 0;
      if ok {
        alive, stored := alive - 1, row;
      }
    }

    method AtProvider(add: bool, id: Id) returns (ok: bool)
      modifies this
      ensures ok <==> old(alive) > 0
      ensures ok ==> Abs() == Perform(old(Abs()), if add then CreateAccount(id) else RemoveAccount(id)) && alive == old(alive) - 1
      ensures !ok ==> Abs() == old(Abs()) && alive == 0
    {
      ok := alive > 0;
      if ok {
        alive, accounts := alive - 1, if add then accounts + {id} else accounts - {id};
      }
    }

    /** Marks the row, removes the account when there is one, and erases account and password. */
    method Cleanup(x: Answers)
      modifies this
      ensures Abs() == Deliver(old(Abs()), Delete(x), old(alive))
    {
      ghost var w, n := Abs(), alive;
      var connection := stored;
      if connection.accountId.Some? && !x.closes {
        PerformNone(w, n);
        return;
      }
      connection := connection.(state := Deleting);
      ghost var es := DeleteEffects(w.row, w.accounts, x);
      assert es == [Save(connection)] + es[1..];
      CutFirst(w, Save(connection), es[1..], n);
      var ok := Persist(connection);
      if !ok { return; }
      if connection.accountId.Some? {
        var id := connection.accountId.value;
        if FetchFailure(id, accounts, x).Some? || !x.undeploys || !x.removes {
          PerformNone(Abs(), alive);
          return;
        }
        assert es[1..] == [RemoveAccount(id)] + [Save(Erased(w.row))];
        CutFirst(Abs(), RemoveAccount(id), [Save(Erased(w.row))], alive);
        ok := AtProvider(false, id);
        if !ok { return; }
        connection := connection.(accountId := None);
      }
      connection := connection.(password := None, state := Deleted);
      assert connection == Erased(w.row);
      CutLast(Abs(), Save(connection), alive);
      ok := Persist(connection);
    }

    /** From connecting to ready. */
    method ConnectAndFinish(c: Connection, x: Answers)
      modifies this
      ensures Abs() == PerformAll(old(Abs()), Cut(ConnectEffects(c, x), old(alive)))
    {
      ghost var w, n := Abs(), alive;
      var connection := c.(state := Connecting);
      ghost var es := ConnectEffects(c, x);
      assert es == [Save(connection)] + es[1..];
      CutFirst(w, Save(connection), es[1..], n);
      var ok := Persist(connection);
      if !ok { return; }
      if x.connect.Some? {
        connection := connection.(state := x.connect.value);
        CutLast(Abs(), Save(connection), alive);
        ok := Persist(connection);
        return;
      }
      connection := connection.(state := Synchronizing);
      assert es[1..] == [Save(connection)] + FinishEffects(c, x);
      CutFirst(Abs(), Save(connection), FinishEffects(c, x), alive);
      ok := Persist(connection);
      if !ok { return; }
      Finish(c, x);
    }

    method Finish(c: Connection, x: Answers)
      modifies this
      ensures Abs() == PerformAll(old(Abs()), Cut(FinishEffects(c, x), old(alive)))
    {
      if c.accountId.None? || x.terminal.NotAcquired? {
        PerformNone(Abs(), alive);
        return;
      }
      var rejected := Rejects(c, x.terminal.info);
      var connection := c.(state := if rejected.Some? then rejected.value else Ready);
      CutLast(Abs(), Save(connection), alive);
      var ok := Persist(connection);
    }

    method Deploy(c: Connection, x: Answers)
      modifies this
      ensures Abs() == PerformAll(old(Abs()), Cut(DeployEffects(c, old(accounts), x), old(alive)))
    {
      ghost var w, n := Abs(), alive;
      var connection := c.(state := Deploying);
      ghost var es := DeployEffects(c, accounts, x);
      assert es == [Save(connection)] + es[1..];
      CutFirst(w, Save(connection), es[1..], n);
      var ok := Persist(connection);
      if !ok { return; }
      var failure := if c.accountId.Some? then FetchFailure(c.accountId.value, accounts, x) else None;
      if failure.None? {
        failure := x.deploy;
      }
      if failure.Some? {
        connection := connection.(state := failure.value);
        assert es[1..] == [Save(connection)];
        CutLast(Abs(), Save(connection), alive);
        ok := Persist(connection);
        return;
      }
      assert es[1..] == ConnectEffects(c, x);
      ConnectAndFinish(c, x);
    }

    /** The account made without telling, where there is one. */
    method Silent(id: Option<Id>) returns (ok: bool)
      modifies this
      ensures Abs() == PerformAll(old(Abs()), Cut(Silently(id), old(alive)))
      ensures ok <==> old(alive) >= |Silently(id)|
      ensures ok ==> alive == old(alive) - |Silently(id)|
    {
      if id.Some? {
        CutLast(Abs(), CreateAccount(id.value), alive);
        ok := AtProvider(true, id.value);
      } else {
        PerformNone(Abs(), alive);
        ok := true;
      }
    }

    method Provision(x: Answers)
      modifies this
      ensures Abs() == Deliver(old(Abs()), Delivery.Provision(x), old(alive))
    {
      ghost var w, n, es := Abs(), alive, ProvisionEffects(stored, accounts, x);
      var connection := stored;
      if connection.password.None? {
        Finish(connection, x);
      } else if !x.decrypts {
        PerformNone(w, n);
      } else if connection.accountId.Some? {
        Deploy(connection, x);
      } else {
        connection := connection.(state := State.Provisioning);
        assert es == [Save(connection)] + es[1..];
        CutFirst(w, Save(connection), es[1..], n);
        var ok := Persist(connection);
        if ok {
          CreateAndDeploy(connection, x);
        }
      }
    }

    /** What follows the first commit of a new provisioning. */
    method CreateAndDeploy(c: Connection, x: Answers)
      requires c.accountId.None? && c.password.Some? && x.decrypts && c.state.Provisioning?
      modifies this
      ensures Abs() == PerformAll(old(Abs()), Cut(ProvisionEffects(c, old(accounts), x)[1..], old(alive)))
    {
      ghost var w, n, es := Abs(), alive, ProvisionEffects(c, accounts, x)[1..];
      match x.create {
        case Unfinished(silent) =>
          assert es == Silently(silent);
          var ok := Silent(silent);
        case Refused(silent, failure) =>
          var connection := c.(state := failure);
          assert es == Silently(silent) + [Save(connection)];
          if silent.Some? {
            CutFirst(w, CreateAccount(silent.value), [Save(connection)], n);
          } else {
            assert es == [Save(connection)];
          }
          var ok := Silent(silent);
          if ok {
            CutLast(Abs(), Save(connection), alive);
            ok := Persist(connection);
          }
        case Made(id) =>
          var connection := c.(accountId := Some(id));
          assert es == [CreateAccount(id)] + DeployEffects(connection, w.accounts + {id}, x);
          CutFirst(w, CreateAccount(id), DeployEffects(connection, w.accounts + {id}, x), n);
          var ok := AtProvider(true, id);
          if ok {
            Deploy(connection, x);
          }
      }
    }

    /** Ends the waiting for an account that never came. */
    method MarkRetriesExhausted()
      modifies this
      ensures Abs() == Deliver(old(Abs()), RetriesExhausted, old(alive))
    {
      if !stored.state.Provisioning? || stored.accountId.Some? {
        PerformNone(Abs(), alive);
      } else {
        CutLast(Abs(), Save(stored.(state := ProvisioningFailed)), alive);
        var ok := Persist(stored.(state := ProvisioningFailed));
      }
    }
  }
}
