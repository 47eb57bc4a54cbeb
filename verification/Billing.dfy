/**
 Subscriptions, kept in step with the billing provider by webhooks, plan changes and cancellations.

 Time is a number of seconds.  `None` as the result of an operation means that it raises.
 */
module Billing {
  import opened Prelude
  import A = Affiliates

  type User = A.User

  datatype Plan = Journal | Copy
  datatype Status = Active | PastDue | Unpaid | Canceled

  datatype Subscription = Subscription(
    user: User, providerId: string, productId: string, customerId: Option<string>,
    plan: Plan, limit: nat, status: Status, currency: string, amount: string,
    periodStart: Option<int>, periodEnd: Option<int>, graceEndsAt: Option<int>,
    cancelAtPeriodEnd: bool, canceledAt: Option<int>,
    pendingPlan: Option<Plan>, pendingLimit: Option<nat>, pendingAt: Option<int>)

  // ---------------------------------------------------------------- catalog and access

  /** The product of the journal plan, and those of the copy plans for 1 to 10 accounts. */
  datatype Catalog = Catalog(journal: string, copy: seq<string>)

  ghost predicate CatalogOk(c: Catalog) {
    |c.copy| == 10 && Distinct([c.journal] + c.copy)
  }

  function ProductFor(c: Catalog, plan: Plan, accounts: int): Option<string> {
    if plan.Journal? then Some(c.journal)
    else if 1 <= accounts <= |c.copy| then Some(c.copy[accounts - 1])
    else None
  }

  function TierOf(copy: seq<string>, product: string): Option<nat> {
    if copy == [] then None
    else if copy[0] == product then Some(1)
    else
      var t := TierOf(copy[1..], product);
      if t.Some? then Some(t.value + 1) else None
  }

  function EntitlementFor(c: Catalog, product: string): Option<(Plan, nat)> {
    if product == c.journal then Some((Journal, 0))
    else
      var t := TierOf(c.copy, product);
      if t.Some? then Some((Copy, t.value)) else None
  }

  lemma {:induction false} TierOfProduct(copy: seq<string>, k: nat)
    requires Distinct(copy) && k < |copy|
    ensures TierOf(copy, copy[k]) == Some(k + 1)
  {
    if k > 0 {
      TierOfProduct(copy[1..], k - 1);
    }
  }

  /** The product sold for a plan grants that plan. */
  lemma CatalogRoundTrip(c: Catalog, plan: Plan, accounts: int)
    requires CatalogOk(c) && ProductFor(c, plan, accounts).Some?
    ensures EntitlementFor(c, ProductFor(c, plan, accounts).value) == Some((plan, if plan.Copy? then accounts else 0))
  {
    var all := [c.journal] + c.copy;
    if plan.Copy? {
      forall i, j | 0 <= i < j < |c.copy|
        ensures c.copy[i] != c.copy[j]
      {
        assert all[i + 1] != all[j + 1];
      }
      TierOfProduct(c.copy, accounts - 1);
      assert all[0] != all[accounts];
    }
  }

  /** What is sold, and for how long a payment may be late. */
  datatype Terms = Terms(catalog: Catalog, grace: int)

  /** The plan and account limit that count at a moment. */
  function Effective(s: Subscription, now: int): (Plan, nat) {
    if s.pendingPlan.Some? && s.pendingAt.Some? && s.pendingAt.value <= now
    then (s.pendingPlan.value, if s.pendingLimit.Some? then s.pendingLimit.value else 0)
    else (s.plan, s.limit)
  }

  predicate HasPaidAccess(s: Subscription, now: int) {
    match s.status
    case Active => s.periodEnd.None? || s.periodEnd.value > now
    case PastDue => s.graceEndsAt.Some? && s.graceEndsAt.value > now
    case _ => false
  }

  predicate HasCopyAccess(s: Subscription, now: int) {
    Effective(s, now).0.Copy? && Effective(s, now).1 > 0 && HasPaidAccess(s, now)
  }

  // ---------------------------------------------------------------- subscription payloads

  /** `status` is none for an unknown status, `readable` tells whether the dates parse, and `user` is the
      account that the metadata or the customer's address names. */
  datatype Payload = Payload(
    subscriptionId: Option<string>, productId: Option<string>, nestedProductId: Option<string>,
    status: Option<Status>, readable: bool,
    periodStart: Option<int>, periodEnd: Option<int>, canceledAt: Option<int>, cancelAtPeriodEnd: bool,
    customerId: Option<string>, currency: Option<string>, amount: Option<string>, user: Option<User>)

  function OrElse<T>(a: Option<T>, b: Option<T>): Option<T> {
    if a.Some? then a else b
  }

  function OrDefault<T>(a: Option<T>, b: T): T {
    if a.Some? then a.value else b
  }

  function Product(p: Payload): Option<string> {
    OrElse(p.productId, p.nestedProductId)
  }

  function Grants(c: Catalog, p: Payload): Option<(Plan, nat)> {
    if Product(p).Some? then EntitlementFor(c, Product(p).value) else None
  }

  predicate PendingMatches(s: Subscription, plan: Plan, limit: nat, now: int) {
    s.pendingPlan == Some(plan) && s.pendingLimit == Some(limit) && s.pendingAt.Some? && s.pendingAt.value > now
  }

  function Entitled(s: Subscription, plan: Plan, limit: nat, now: int): Subscription {
    if PendingMatches(s, plan, limit, now) then s
    else s.(plan := plan, limit := limit, pendingPlan := None, pendingLimit := None, pendingAt := None)
  }

  function WithStatus(c: Terms, s: Subscription, status: Status, now: int): Subscription {
    s.(status := status,
       graceEndsAt := if status.PastDue? && s.graceEndsAt.None? then Some(now + c.grace)
                      else if status.Active? then None
                      else s.graceEndsAt)
  }

  function ApplyPayload(c: Terms, s: Subscription, p: Payload, deleted: bool, now: int): Option<Subscription> {
    if p.subscriptionId.None? || Grants(c.catalog, p).None? || (!deleted && p.status.None?) || !p.readable then None
    else
      var (plan, limit) := Grants(c.catalog, p).value;
      var e := Entitled(s, plan, limit, now).(
        providerId := p.subscriptionId.value, productId := Product(p).value,
        customerId := OrElse(p.customerId, s.customerId),
        currency := OrDefault(p.currency, s.currency), amount := OrDefault(p.amount, s.amount),
        periodStart := p.periodStart, periodEnd := p.periodEnd,
        cancelAtPeriodEnd := p.cancelAtPeriodEnd, canceledAt := p.canceledAt);
      Some(WithStatus(c, e, if deleted then Canceled else p.status.value, now))
  }

  // ---------------------------------------------------------------- events

  datatype Kind = Created | Updated | Deleted

  datatype Body =
    | SubscriptionEvent(kind: Kind, payload: Payload)
    | PaymentFailed(subscriptionId: Option<string>)
    | InvoicePaid(invoice: A.Invoice)
    | RefundPaid(refund: A.Refund)
    | DisputeCreated(refund: A.Refund)
    | OtherBody

  /** `Malformed` lacks an identifier, a type or data. */
  datatype Event = Malformed | Event(id: string, body: Body)

  datatype Env = Env(terms: Terms, program: A.Program, dec: real -> real)

  datatype Db = Db(subs: map<User, Subscription>, ledger: seq<A.Commission>, claims: set<string>)

  const EmptyDb := Db(map[], [], {})

  ghost predicate Owns(subs: map<User, Subscription>, u: User, id: string) {
    u in subs && subs[u].providerId == id
  }

  /** The subscription with a provider identifier; the identifier is a unique column. */
  ghost function Find(subs: map<User, Subscription>, id: Option<string>): Option<User> {
    if id.Some? && exists u :: Owns(subs, u, id.value) then
      var u :| Owns(subs, u, id.value);
      Some(u)
    else None
  }

  function NewSubscription(c: Catalog, p: Payload, user: User): Option<Subscription> {
    if p.subscriptionId.None? || p.productId.None? || EntitlementFor(c, p.productId.value).None? then None
    else
      var (plan, limit) := EntitlementFor(c, p.productId.value).value;
      Some(Subscription(user, p.subscriptionId.value, p.productId.value, None, plan, limit, Active,
                        OrDefault(p.currency, "USD"), OrDefault(p.amount, "0.00"),
                        None, None, None, false, None, None, None, None))
  }

  /** The row a subscription event is written to. */
  ghost function Target(subs: map<User, Subscription>, kind: Kind, p: Payload): Option<User> {
    var found := Find(subs, p.subscriptionId);
    if found.Some? then found
    else if !kind.Created? || p.user.None? then None
    else if p.user.value in subs && (subs[p.user.value].status.Active? || subs[p.user.value].status.PastDue?) then None
    else p.user
  }

  ghost function HandleSubscription(c: Terms, subs: map<User, Subscription>, kind: Kind, p: Payload, now: int)
    : Option<map<User, Subscription>>
  {
    var u := Target(subs, kind, p);
    if u.None? then
      if kind.Created? && p.user.None? && Find(subs, p.subscriptionId).None? then None else Some(subs)
    else
      var start := if u.value in subs then Some(subs[u.value]) else NewSubscription(c.catalog, p, u.value);
      if start.None? then None
      else
        var s := ApplyPayload(c, start.value, p, kind.Deleted?, now);
        if s.None? then None else Some(subs[u.value := s.value])
  }

  ghost function Handle(env: Env, db: Db, body: Body, now: int): Option<Db> {
    match body
    case SubscriptionEvent(kind, p) =>
      var subs := HandleSubscription(env.terms, db.subs, kind, p, now);
      if subs.None? then None else Some(db.(subs := subs.value))
    case PaymentFailed(id) =>
      var u := Find(db.subs, id);
      if u.None? then Some(db)
      else Some(db.(subs := db.subs[u.value := WithStatus(env.terms, db.subs[u.value], PastDue, now)]))
    case InvoicePaid(i) =>
      var u := Find(db.subs, i.subscription);
      if u.None? || db.subs[u.value].status.Canceled? then Some(db)
      else
        var items := A.Create(db.ledger, env.program, u, i, now);
        if items.None? then None
        else Some(db.(subs := db.subs[u.value := WithStatus(env.terms, db.subs[u.value], Active, now)], ledger := items.value))
    case RefundPaid(r) =>
      var items := A.Reverse(env.dec, db.ledger, r, "refund", now);
      if items.None? then None else Some(db.(ledger := items.value))
    case DisputeCreated(r) =>
      var items := A.Reverse(env.dec, db.ledger, r, "dispute", now);
      if items.None? then None else Some(db.(ledger := items.value))
    case OtherBody => Some(db)
  }

  datatype Outcome = Raised | Duplicate | Processed

  ghost function OutcomeOf(env: Env, db: Db, e: Event, now: int): Outcome {
    if e.Malformed? then Raised
    else if e.id in db.claims then Duplicate
    else if Handle(env, db, e.body, now).None? then Raised
    else Processed
  }

  /** The claim and the handler commit together or not at all. */
  ghost function Deliver(env: Env, db: Db, e: Event, now: int): Db {
    if OutcomeOf(env, db, e, now).Processed?
    then (var n := Handle(env, db, e.body, now).value; n.(claims := db.claims + {e.id}))
    else db
  }

  // ---------------------------------------------------------------- exactly once

  datatype Delivery = Delivery(event: Event, now: int)

  ghost function DeliverAll(env: Env, db: Db, ds: seq<Delivery>): Db
    decreases |ds|
  {
    if ds == [] then db else DeliverAll(env, Deliver(env, db, ds[0].event, ds[0].now), ds[1..])
  }

  /** The deliveries that were processed. */
  ghost function Kept(env: Env, db: Db, ds: seq<Delivery>): seq<Delivery>
    decreases |ds|
  {
    if ds == [] then []
    else (if OutcomeOf(env, db, ds[0].event, ds[0].now).Processed? then [ds[0]] else [])
         + Kept(env, Deliver(env, db, ds[0].event, ds[0].now), ds[1..])
  }

  /** The handlers alone, without any claims. */
  ghost function HandleAll(env: Env, db: Db, ds: seq<Delivery>): Option<Db>
    decreases |ds|
  {
    if ds == [] then Some(db)
    else if ds[0].event.Malformed? then None
    else
      var n := Handle(env, db, ds[0].event.body, ds[0].now);
      if n.None? then None else HandleAll(env, n.value, ds[1..])
  }

  ghost function Ids(ds: seq<Delivery>): set<string> {
    set d | d in ds && d.event.Event? :: d.event.id
  }

  /** Handlers neither read nor write the claims. */
  lemma HandleIgnoresClaims(env: Env, db: Db, body: Body, now: int, claims: set<string>)
    ensures Handle(env, db.(claims := claims), body, now).None? == Handle(env, db, body, now).None?
    ensures Handle(env, db, body, now).Some? ==>
              Handle(env, db.(claims := claims), body, now).value == Handle(env, db, body, now).value.(claims := claims)
              && Handle(env, db, body, now).value.claims == db.claims
  {
  }

  /** A claimed event is never processed again. */
  lemma {:induction false} KeptAreNew(env: Env, db: Db, ds: seq<Delivery>)
    ensures forall d :: d in Kept(env, db, ds) ==> d.event.Event? && d.event.id !in db.claims
    ensures DeliverAll(env, db, ds).claims == db.claims + Ids(Kept(env, db, ds))
    ensures forall i, j :: 0 <= i < j < |Kept(env, db, ds)| ==> Kept(env, db, ds)[i].event.id != Kept(env, db, ds)[j].event.id
    decreases |ds|
  {
    if ds != [] {
      var d, next := ds[0], Deliver(env, db, ds[0].event, ds[0].now);
      KeptAreNew(env, next, ds[1..]);
      var k, rest := Kept(env, db, ds), Kept(env, next, ds[1..]);
      if OutcomeOf(env, db, d.event, d.now).Processed? {
        assert k == [d] + rest;
        assert Ids(k) == {d.event.id} + Ids(rest);
      } else {
        assert k == rest;
      }
    }
  }

  /** Processing only the kept deliveries, claims or no claims, gives the same state. */
  lemma {:induction false} KeptSuffice(env: Env, db: Db, ds: seq<Delivery>)
    ensures DeliverAll(env, db, Kept(env, db, ds)) == DeliverAll(env, db, ds)
    decreases |ds|
  {
    if ds != [] {
      var d, next := ds[0], Deliver(env, db, ds[0].event, ds[0].now);
      KeptSuffice(env, next, ds[1..]);
      var rest := Kept(env, next, ds[1..]);
      if OutcomeOf(env, db, d.event, d.now).Processed? {
        assert ([d] + rest)[1..] == rest;
      } else {
        assert Kept(env, db, ds) == rest;
      }
    }
  }

  lemma {:induction false} HandleAllIgnoresClaims(env: Env, db: Db, ds: seq<Delivery>, claims: set<string>)
    requires HandleAll(env, db, ds).Some?
    ensures HandleAll(env, db.(claims := claims), ds) == Some(HandleAll(env, db, ds).value.(claims := claims))
    decreases |ds|
  {
    if ds != [] {
      HandleIgnoresClaims(env, db, ds[0].event.body, ds[0].now, claims);
      var n := Handle(env, db, ds[0].event.body, ds[0].now).value;
      HandleAllIgnoresClaims(env, n, ds[1..], claims);
    }
  }

  lemma {:induction false} KeptHandled(env: Env, db: Db, ds: seq<Delivery>)
    ensures HandleAll(env, db, Kept(env, db, ds)) == Some(DeliverAll(env, db, ds).(claims := db.claims))
    decreases |ds|
  {
    if ds != [] {
      var d, next := ds[0], Deliver(env, db, ds[0].event, ds[0].now);
      KeptHandled(env, next, ds[1..]);
      var rest := Kept(env, next, ds[1..]);
      if OutcomeOf(env, db, d.event, d.now).Processed? {
        var n := Handle(env, db, d.event.body, d.now).value;
        HandleIgnoresClaims(env, db, d.event.body, d.now, db.claims);
        HandleAllIgnoresClaims(env, next, rest, db.claims);
        assert next.(claims := db.claims) == n;
        assert ([d] + rest)[1..] == rest;
      } else {
        assert Kept(env, db, ds) == rest;
      }
    }
  }

  /** For any deliveries with repeats and failures, the final state is the one that the handlers give
      for the processed deliveries alone, each identifier among them once. */
  lemma ExactlyOnceTheorem(env: Env, db: Db, ds: seq<Delivery>)
    ensures HandleAll(env, db, Kept(env, db, ds)) == Some(DeliverAll(env, db, ds).(claims := db.claims))
    ensures DeliverAll(env, db, Kept(env, db, ds)) == DeliverAll(env, db, ds)
    ensures forall d :: d in Kept(env, db, ds) ==> d in ds && d.event.Event? && d.event.id !in db.claims
    ensures forall i, j :: 0 <= i < j < |Kept(env, db, ds)| ==> Kept(env, db, ds)[i].event.id != Kept(env, db, ds)[j].event.id
    ensures DeliverAll(env, db, ds).claims == db.claims + Ids(Kept(env, db, ds))
  {
    KeptHandled(env, db, ds);
    KeptSuffice(env, db, ds);
    KeptAreNew(env, db, ds);
    KeptWithin(env, db, ds);
  }

  lemma {:induction false} KeptWithin(env: Env, db: Db, ds: seq<Delivery>)
    ensures forall d :: d in Kept(env, db, ds) ==> d in ds
    decreases |ds|
  {
    if ds != [] {
      KeptWithin(env, Deliver(env, db, ds[0].event, ds[0].now), ds[1..]);
      assert ds == [ds[0]] + ds[1..];
    }
  }

  lemma {:induction false} DeliverAllSplits(env: Env, db: Db, ds: seq<Delivery>, k: nat)
    requires k < |ds|
    ensures DeliverAll(env, db, ds[..k + 1]) == Deliver(env, DeliverAll(env, db, ds[..k]), ds[k].event, ds[k].now)
    decreases k
  {
    if k == 0 {
      assert ds[..1][1..] == [];
    } else {
      var next := Deliver(env, db, ds[0].event, ds[0].now);
      DeliverAllSplits(env, next, ds[1..], k - 1);
      assert ds[..k + 1][1..] == ds[1..][..k];
      assert ds[..k][1..] == ds[1..][..k - 1];
    }
  }

  lemma {:induction false} ClaimsStay(env: Env, db: Db, ds: seq<Delivery>)
    ensures db.claims <= DeliverAll(env, db, ds).claims
    decreases |ds|
  {
    if ds != [] {
      ClaimsStay(env, Deliver(env, db, ds[0].event, ds[0].now), ds[1..]);
    }
  }

  lemma {:induction false} DeliverAllConcat(env: Env, db: Db, a: seq<Delivery>, b: seq<Delivery>)
    ensures DeliverAll(env, db, a + b) == DeliverAll(env, DeliverAll(env, db, a), b)
    decreases |a|
  {
    if a == [] {
      assert a + b == b;
    } else {
      DeliverAllConcat(env, Deliver(env, db, a[0].event, a[0].now), a[1..], b);
      assert (a + b)[1..] == a[1..] + b;
    }
  }

  /** Of the deliveries of one identifier at most one changes anything: after the first that succeeds
      all others are duplicates, and one that raises leaves everything, its claim included. */
  lemma ChangesAtMostOnce(env: Env, db: Db, ds: seq<Delivery>, i: nat, j: nat)
    requires i < j < |ds| && ds[i].event.Event? && ds[j].event.Event? && ds[i].event.id == ds[j].event.id
    requires OutcomeOf(env, DeliverAll(env, db, ds[..i]), ds[i].event, ds[i].now).Processed?
    ensures OutcomeOf(env, DeliverAll(env, db, ds[..j]), ds[j].event, ds[j].now).Duplicate?
    ensures DeliverAll(env, db, ds[..j + 1]) == DeliverAll(env, db, ds[..j])
  {
    DeliverAllSplits(env, db, ds, i);
    DeliverAllSplits(env, db, ds, j);
    var mid := DeliverAll(env, db, ds[..i + 1]);
    assert ds[i].event.id in mid.claims;
    assert ds[..j] == ds[..i + 1] + ds[i + 1..j];
    DeliverAllConcat(env, db, ds[..i + 1], ds[i + 1..j]);
    ClaimsStay(env, mid, ds[i + 1..j]);
  }

  // ---------------------------------------------------------------- everything that changes subscriptions

  /** A plan change carries the provider's answer to an upgrade; none is a failed provider call. */
  datatype Step =
    | Webhook(event: Event)
    | ChangePlan(user: User, newPlan: Plan, accounts: int, answer: Option<Payload>)
    | CancelAtEnd(user: User, ending: Option<(bool, Option<int>)>)

  datatype Timed = Timed(step: Step, now: int)

  predicate IsUpgrade(s: Subscription, plan: Plan, accounts: int) {
    (s.plan.Journal? && plan.Copy?) || (s.plan.Copy? && plan.Copy? && accounts > s.limit)
  }

  function Scheduled(s: Subscription, product: string, plan: Plan, accounts: nat): Subscription {
    s.(productId := product, pendingPlan := Some(plan), pendingLimit := Some(accounts), pendingAt := s.periodEnd)
  }

  /** The database refuses a provider identifier that another row holds. */
  ghost function ChangedPlan(env: Env, subs: map<User, Subscription>, step: Step, now: int): map<User, Subscription>
    requires step.ChangePlan?
  {
    var target := if step.newPlan.Copy? then step.accounts else 0;
    var product := ProductFor(env.terms.catalog, step.newPlan, target);
    if product.None? || target < 0 || step.user !in subs then subs
    else
      var s := subs[step.user];
      if s.status.Canceled? || s.status.Unpaid? || (s.plan == step.newPlan && s.limit == target) || step.answer.None? then subs
      else if IsUpgrade(s, step.newPlan, target) then
        var n := ApplyPayload(env.terms, s, step.answer.value, false, now);
        if n.None? || exists v :: v != step.user && Owns(subs, v, n.value.providerId) then subs
        else subs[step.user := n.value]
      else subs[step.user := Scheduled(s, product.value, step.newPlan, target)]
  }

  function CanceledAtEnd(subs: map<User, Subscription>, step: Step): map<User, Subscription>
    requires step.CancelAtEnd?
  {
    if step.user !in subs || step.ending.None? then subs
    else
      var s := subs[step.user];
      if s.status.Canceled? || s.cancelAtPeriodEnd then subs
      else subs[step.user := s.(cancelAtPeriodEnd := step.ending.value.0, periodEnd := OrElse(step.ending.value.1, s.periodEnd))]
  }

  ghost function Apply(env: Env, db: Db, t: Timed): Db {
    match t.step
    case Webhook(e) => Deliver(env, db, e, t.now)
    case ChangePlan(_, _, _, _) => db.(subs := ChangedPlan(env, db.subs, t.step, t.now))
    case CancelAtEnd(_, _) => db.(subs := CanceledAtEnd(db.subs, t.step))
  }

  ghost function Run(env: Env, db: Db, ts: seq<Timed>): Db {
    if ts == [] then db else Apply(env, Run(env, db, ts[..|ts| - 1]), ts[|ts| - 1])
  }

  /** How a step may change the status and the grace deadline of one subscription. */
  ghost predicate GraceStep(c: Terms, s: Subscription, n: Subscription, now: int) {
    || (n.status == s.status && n.graceEndsAt == s.graceEndsAt)
    || n.graceEndsAt == WithStatus(c, s, n.status, now).graceEndsAt
  }

  lemma HandleDeadline(env: Env, db: Db, body: Body, now: int, u: User)
    requires u in db.subs
    ensures Handle(env, db, body, now).Some? ==>
              u in Handle(env, db, body, now).value.subs && GraceStep(env.terms, db.subs[u], Handle(env, db, body, now).value.subs[u], now)
  {
  }

  /** Every change of a subscription goes through the same rule for the deadline. */
  lemma DeadlineRule(env: Env, db: Db, t: Timed, u: User)
    requires u in db.subs
    ensures u in Apply(env, db, t).subs
    ensures GraceStep(env.terms, db.subs[u], Apply(env, db, t).subs[u], t.now)
  {
    if t.step.Webhook? && t.step.event.Event? {
      HandleDeadline(env, db, t.step.event.body, t.now, u);
    }
  }

  predicate GraceOk(s: Subscription) {
    (s.status.Active? ==> s.graceEndsAt.None?) && (s.status.PastDue? ==> s.graceEndsAt.Some?)
  }

  /** A subscription that appears starts under the rule, too. */
  lemma NewSubscriptionOk(env: Env, db: Db, t: Timed, u: User)
    requires u !in db.subs && u in Apply(env, db, t).subs
    ensures GraceOk(Apply(env, db, t).subs[u])
    ensures Apply(env, db, t).subs[u].graceEndsAt.Some? ==> Apply(env, db, t).subs[u].graceEndsAt == Some(t.now + env.terms.grace)
  {
  }

  /** In every reachable state an active subscription has no grace deadline and a past-due one has one. */
  lemma {:induction false} GraceTheorem(env: Env, ts: seq<Timed>, u: User)
    requires u in Run(env, EmptyDb, ts).subs
    ensures GraceOk(Run(env, EmptyDb, ts).subs[u])
  {
    if ts != [] {
      var before, t := Run(env, EmptyDb, ts[..|ts| - 1]), ts[|ts| - 1];
      if u in before.subs {
        GraceTheorem(env, ts[..|ts| - 1], u);
        DeadlineRule(env, before, t, u);
      } else {
        NewSubscriptionOk(env, before, t, u);
      }
    }
  }

  /** No step of the run leaves the subscription active. */
  ghost predicate NeverActive(env: Env, db: Db, ts: seq<Timed>, u: User) {
    forall k :: 0 < k <= |ts| && u in Run(env, db, ts[..k]).subs ==> !Run(env, db, ts[..k]).subs[u].status.Active?
  }

  lemma {:induction false} DeadlineStays(env: Env, db: Db, ts: seq<Timed>, u: User)
    requires u in db.subs && db.subs[u].graceEndsAt.Some? && !db.subs[u].status.Active?
    requires NeverActive(env, db, ts, u)
    ensures u in Run(env, db, ts).subs
    ensures Run(env, db, ts).subs[u].graceEndsAt == db.subs[u].graceEndsAt
    ensures !Run(env, db, ts).subs[u].status.Active?
  {
    if ts != [] {
      var head := ts[..|ts| - 1];
      forall k | 0 < k <= |head| && u in Run(env, db, head[..k]).subs
        ensures !Run(env, db, head[..k]).subs[u].status.Active?
      {
        assert head[..k] == ts[..k];
      }
      DeadlineStays(env, db, head, u);
      DeadlineRule(env, Run(env, db, head), ts[|ts| - 1], u);
      assert ts[..|ts|] == ts;
    }
  }

  /** Once a step at time `t`, be it the one that creates the subscription, has set a deadline, it is the
      grace period later and stays until a step
      makes the subscription active; without one there is no paid access from then on. */
  lemma GraceEndsTheorem(env: Env, db: Db, t: Timed, ts: seq<Timed>, u: User, later: int)
    requires u in db.subs ==> GraceOk(db.subs[u]) && db.subs[u].graceEndsAt.None?
    requires u in Apply(env, db, t).subs && Apply(env, db, t).subs[u].graceEndsAt.Some?
    requires NeverActive(env, Apply(env, db, t), ts, u)
    requires later >= t.now + env.terms.grace
    ensures u in Run(env, Apply(env, db, t), ts).subs
    ensures Run(env, Apply(env, db, t), ts).subs[u].graceEndsAt == Some(t.now + env.terms.grace)
    ensures !HasPaidAccess(Run(env, Apply(env, db, t), ts).subs[u], later)
    ensures !HasCopyAccess(Run(env, Apply(env, db, t), ts).subs[u], later)
  {
    if u in db.subs {
      DeadlineRule(env, db, t, u);
    } else {
      NewSubscriptionOk(env, db, t, u);
    }
    DeadlineStays(env, Apply(env, db, t), ts, u);
  }

  /** While the subscription stays past due, access is paid exactly until the deadline that the step set. */
  lemma GraceAccessExactly(env: Env, db: Db, t: Timed, ts: seq<Timed>, u: User, later: int)
    requires u in db.subs ==> GraceOk(db.subs[u]) && db.subs[u].graceEndsAt.None?
    requires u in Apply(env, db, t).subs && Apply(env, db, t).subs[u].graceEndsAt.Some?
    requires NeverActive(env, Apply(env, db, t), ts, u)
    requires u in Run(env, Apply(env, db, t), ts).subs && Run(env, Apply(env, db, t), ts).subs[u].status.PastDue?
    ensures HasPaidAccess(Run(env, Apply(env, db, t), ts).subs[u], later) <==> later < t.now + env.terms.grace
  {
    GraceEndsTheorem(env, db, t, ts, u, t.now + env.terms.grace);
  }

  // ---------------------------------------------------------------- scheduled downgrades

  /** A plan change that is waiting for a known time. */
  predicate Waiting(s: Subscription) {
    s.pendingPlan.Some? && s.pendingLimit.Some? && s.pendingAt.Some?
  }

  /** A downgrade waits exactly when the subscription has a period end. */
  lemma ScheduledWaits(s: Subscription, product: string, plan: Plan, accounts: nat)
    ensures Waiting(Scheduled(s, product, plan, accounts)) <==> s.periodEnd.Some?
    ensures forall t :: s.periodEnd.Some? && t < s.periodEnd.value ==>
              Effective(Scheduled(s, product, plan, accounts), t) == (s.plan, s.limit)
    ensures forall t :: s.periodEnd.Some? && s.periodEnd.value <= t ==>
              Effective(Scheduled(s, product, plan, accounts), t) == (plan, accounts)
  {
  }

  /** A webhook for the scheduled product leaves what counts at every later moment unchanged exactly
      when the change has a known time or grants what the subscription has already. */
  lemma ScheduledWebhookExactly(c: Terms, s: Subscription, p: Payload, deleted: bool, now: int)
    requires s.pendingPlan.Some? && s.pendingLimit.Some?
    requires Grants(c.catalog, p) == Some((s.pendingPlan.value, s.pendingLimit.value))
    requires ApplyPayload(c, s, p, deleted, now).Some?
    ensures (forall t :: t >= now ==> Effective(ApplyPayload(c, s, p, deleted, now).value, t) == Effective(s, t)) <==>
            s.pendingAt.Some? || (s.plan, s.limit) == (s.pendingPlan.value, s.pendingLimit.value)
  {
    var n := ApplyPayload(c, s, p, deleted, now).value;
    if s.pendingAt.None? {
      assert Effective(n, now) == (s.pendingPlan.value, s.pendingLimit.value);
      assert Effective(s, now) == (s.plan, s.limit);
    }
  }

  /** A payload grants its plan from now on, unless it confirms a change that is still waiting; then it
      leaves every moment as it was. */
  lemma PayloadTakesEffect(c: Terms, s: Subscription, p: Payload, deleted: bool, now: int, t: int)
    requires ApplyPayload(c, s, p, deleted, now).Some? && t >= now
    ensures Grants(c.catalog, p).Some?
    ensures Effective(ApplyPayload(c, s, p, deleted, now).value, t) ==
            if PendingMatches(s, Grants(c.catalog, p).value.0, Grants(c.catalog, p).value.1, now) then Effective(s, t) else Grants(c.catalog, p).value
    ensures deleted ==> forall at :: !HasPaidAccess(ApplyPayload(c, s, p, deleted, now).value, at)
  {
  }

  ghost const Tiers := Catalog("j", ["0", "1", "2", "3", "4", "5", "6", "7", "8", "9"])

  lemma TiersOk()
    ensures CatalogOk(Tiers)
  {
    var all, names := [Tiers.journal] + Tiers.copy, "j0123456789";
    assert forall i :: 0 <= i < 11 ==> all[i] == [names[i]];
    assert forall i, j :: 0 <= i < j < 11 ==> names[i] != names[j];
    forall i, j | 0 <= i < j < |all|
      ensures all[i] != all[j]
    {
      assert all[i][0] == names[i] && all[j][0] == names[j];
    }
  }

  /** Without a known time, a webhook brings the downgrade forward. */
  lemma UndatedDowngradeMovesForward(grace: int)
    ensures exists c: Terms, s: Subscription, p: Payload, now: int ::
              && CatalogOk(c.catalog) && c.grace == grace
              && s.pendingPlan == Some(Journal) && s.pendingLimit == Some(0)
              && Grants(c.catalog, p) == Some((Journal, 0))
              && ApplyPayload(c, s, p, false, now).Some?
              && Effective(ApplyPayload(c, s, p, false, now).value, now) != Effective(s, now)
  {
    TiersOk();
    var c := Terms(Tiers, grace);
    var s := Scheduled(Subscription(0, "s", "2", None, Copy, 3, Active, "USD", "0.00",
                                    None, None, None, false, None, None, None, None), "j", Journal, 0);
    var p := Payload(Some("s"), Some("j"), None, Some(Active), true, None, None, None, false, None, None, None, None);
    assert ApplyPayload(c, s, p, false, 0).Some?;
    assert Effective(ApplyPayload(c, s, p, false, 0).value, 0) == (Journal, 0);
    assert Effective(s, 0) == (Copy, 3);
  }

  /** `n` counts like the waiting subscription `s` from `now` on. */
  ghost predicate Tracks(s: Subscription, n: Subscription, now: int)
    requires Waiting(s)
  {
    || (n.plan == s.plan && n.limit == s.limit
        && n.pendingPlan == s.pendingPlan && n.pendingLimit == s.pendingLimit && n.pendingAt == s.pendingAt)
    || (s.pendingAt.value <= now && n.pendingPlan.None?
        && n.plan == s.pendingPlan.value && n.limit == s.pendingLimit.value)
  }

  lemma TracksEffective(s: Subscription, n: Subscription, now: int, t: int)
    requires Waiting(s) && Tracks(s, n, now) && now <= t
    ensures Effective(n, t) == Effective(s, t)
  {
  }

  lemma PayloadTracks(c: Terms, s: Subscription, n: Subscription, p: Payload, deleted: bool, last: int, now: int)
    requires Waiting(s) && Tracks(s, n, last) && last <= now
    requires Grants(c.catalog, p) == Some((s.pendingPlan.value, s.pendingLimit.value))
    requires ApplyPayload(c, n, p, deleted, now).Some?
    ensures Tracks(s, ApplyPayload(c, n, p, deleted, now).value, now)
  {
  }

  /** The step is no plan change by the user, and if it writes the user's subscription from a payload,
      the payload is for the scheduled product. */
  ghost predicate ForScheduled(env: Env, db: Db, step: Step, u: User, plan: Plan, limit: nat) {
    && !(step.ChangePlan? && step.user == u)
    && (step.Webhook? && step.event.Event? && step.event.body.SubscriptionEvent?
        && Target(db.subs, step.event.body.kind, step.event.body.payload) == Some(u) ==>
          Grants(env.terms.catalog, step.event.body.payload) == Some((plan, limit)))
  }

  lemma HandleTracks(env: Env, db: Db, t: Timed, u: User, s: Subscription, last: int)
    requires Waiting(s) && u in db.subs && Tracks(s, db.subs[u], last) && last <= t.now
    requires ForScheduled(env, db, t.step, u, s.pendingPlan.value, s.pendingLimit.value)
    ensures u in Apply(env, db, t).subs && Tracks(s, Apply(env, db, t).subs[u], t.now)
  {
    if t.step.Webhook? && t.step.event.Event? && t.step.event.body.SubscriptionEvent? {
      var kind, p := t.step.event.body.kind, t.step.event.body.payload;
      if Target(db.subs, kind, p) == Some(u) && ApplyPayload(env.terms, db.subs[u], p, kind.Deleted?, t.now).Some? {
        PayloadTracks(env.terms, s, db.subs[u], p, kind.Deleted?, last, t.now);
      }
    }
  }

  ghost predicate InOrder(ts: seq<Timed>, start: int) {
    && (forall i :: 0 <= i < |ts| ==> start <= ts[i].now)
    && (forall i, j :: 0 <= i < j < |ts| ==> ts[i].now <= ts[j].now)
  }

  ghost predicate AllForScheduled(env: Env, db: Db, ts: seq<Timed>, u: User, plan: Plan, limit: nat) {
    forall k :: 0 <= k < |ts| ==> ForScheduled(env, Run(env, db, ts[..k]), ts[k].step, u, plan, limit)
  }

  lemma {:induction false} RunTracks(env: Env, db: Db, ts: seq<Timed>, u: User, start: int)
    requires u in db.subs && Waiting(db.subs[u]) && InOrder(ts, start)
    requires AllForScheduled(env, db, ts, u, db.subs[u].pendingPlan.value, db.subs[u].pendingLimit.value)
    ensures u in Run(env, db, ts).subs
    ensures Tracks(db.subs[u], Run(env, db, ts).subs[u], if ts == [] then start else ts[|ts| - 1].now)
  {
    if ts != [] {
      var head, t, s := ts[..|ts| - 1], ts[|ts| - 1], db.subs[u];
      forall k | 0 <= k < |head|
        ensures ForScheduled(env, Run(env, db, head[..k]), head[k].step, u, s.pendingPlan.value, s.pendingLimit.value)
      {
        assert head[..k] == ts[..k];
      }
      RunTracks(env, db, head, u, start);
      assert head == ts[..|head|];
      HandleTracks(env, Run(env, db, head), t, u, s, if head == [] then start else head[|head| - 1].now);
    }
  }

  /** While a downgrade waits for a known time, any webhooks for the scheduled product and any other
      events, before or after that time, leave the effective plan and limit of every later moment as
      they would be had nothing arrived. */
  lemma ScheduledDowngradeTheorem(env: Env, db: Db, ts: seq<Timed>, u: User, start: int, later: int)
    requires u in db.subs && Waiting(db.subs[u]) && InOrder(ts, start)
    requires AllForScheduled(env, db, ts, u, db.subs[u].pendingPlan.value, db.subs[u].pendingLimit.value)
    requires start <= later && forall i :: 0 <= i < |ts| ==> ts[i].now <= later
    ensures u in Run(env, db, ts).subs
    ensures Effective(Run(env, db, ts).subs[u], later) == Effective(db.subs[u], later)
  {
    RunTracks(env, db, ts, u, start);
    TracksEffective(db.subs[u], Run(env, db, ts).subs[u], if ts == [] then start else ts[|ts| - 1].now, later);
  }

  /** The accounts a plan change asks for. */
  function Wanted(step: Step): int
    requires step.ChangePlan?
  {
    if step.newPlan.Copy? then step.accounts else 0
  }

  /** The plan change is accepted by the provider as a change for the next period. */
  predicate Downgrades(env: Env, s: Subscription, step: Step) {
    && step.ChangePlan? && step.answer.Some? && (s.status.Active? || s.status.PastDue?)
    && Wanted(step) >= 0 && ProductFor(env.terms.catalog, step.newPlan, Wanted(step)).Some?
    && !(s.plan == step.newPlan && s.limit == Wanted(step))
    && !(step.newPlan.Copy? && (s.plan.Journal? || Wanted(step) > s.limit))
  }

  /** A downgrade asked for during a period with a known end takes effect at that end, neither before nor
      after, whatever webhooks for the new product and other events arrive meanwhile. */
  lemma DowngradeOnTime(env: Env, db: Db, t: Timed, ts: seq<Timed>, later: int)
    requires t.step.ChangePlan? && t.step.user in db.subs && Downgrades(env, db.subs[t.step.user], t.step)
    requires db.subs[t.step.user].periodEnd.Some? && InOrder(ts, t.now) && t.now <= later
    requires AllForScheduled(env, Apply(env, db, t), ts, t.step.user, t.step.newPlan, Wanted(t.step))
    requires forall i :: 0 <= i < |ts| ==> ts[i].now <= later
    ensures t.step.user in Run(env, Apply(env, db, t), ts).subs
    ensures Effective(Run(env, Apply(env, db, t), ts).subs[t.step.user], later) ==
            if later < db.subs[t.step.user].periodEnd.value
            then (db.subs[t.step.user].plan, db.subs[t.step.user].limit)
            else (t.step.newPlan, Wanted(t.step))
  {
    var u, s := t.step.user, db.subs[t.step.user];
    var product := ProductFor(env.terms.catalog, t.step.newPlan, Wanted(t.step)).value;
    assert Apply(env, db, t).subs[u] == Scheduled(s, product, t.step.newPlan, Wanted(t.step));
    ScheduledWaits(s, product, t.step.newPlan, Wanted(t.step));
    ScheduledDowngradeTheorem(env, Apply(env, db, t), ts, u, t.now, later);
  }

  // ---------------------------------------------------------------- the stored rows

  /** The unique column of provider identifiers. */
  ghost predicate Unique(subs: map<User, Subscription>) {
    forall u, v :: u in subs && v in subs && subs[u].providerId == subs[v].providerId ==> u == v
  }

  lemma FindUnique(subs: map<User, Subscription>, u: User)
    requires Unique(subs) && u in subs
    ensures Find(subs, Some(subs[u].providerId)) == Some(u)
  {
    assert Owns(subs, u, subs[u].providerId);
  }

  lemma SubscriptionKeepsUnique(c: Terms, subs: map<User, Subscription>, kind: Kind, p: Payload, now: int)
    requires Unique(subs)
    ensures HandleSubscription(c, subs, kind, p, now).Some? ==> Unique(HandleSubscription(c, subs, kind, p, now).value)
  {
    var r, t := HandleSubscription(c, subs, kind, p, now), Target(subs, kind, p);
    if r.Some? && t.Some? {
      assert r.value[t.value].providerId == p.subscriptionId.value;
      forall v | v in subs && v != t.value
        ensures subs[v].providerId != p.subscriptionId.value
      {
        if subs[v].providerId == p.subscriptionId.value {
          FindUnique(subs, v);
          assert false;
        }
      }
    }
  }

  /** No step ever gives two users the same provider subscription. */
  lemma {:induction false} UniqueTheorem(env: Env, ts: seq<Timed>)
    ensures Unique(Run(env, EmptyDb, ts).subs)
  {
    if ts != [] {
      UniqueTheorem(env, ts[..|ts| - 1]);
      UniqueStep(env, Run(env, EmptyDb, ts[..|ts| - 1]), ts[|ts| - 1]);
    }
  }

  lemma UniqueStep(env: Env, db: Db, t: Timed)
    requires Unique(db.subs)
    ensures Unique(Apply(env, db, t).subs)
  {
    match t.step {
      case Webhook(e) =>
        if e.Event? && e.body.SubscriptionEvent? {
          SubscriptionKeepsUnique(env.terms, db.subs, e.body.kind, e.body.payload, t.now);
        }
      case ChangePlan(u, _, _, _) =>
        var n := ChangedPlan(env, db.subs, t.step, t.now);
        if n != db.subs {
          forall v | v in db.subs && v != u
            ensures db.subs[v].providerId != n[u].providerId
          {
            assert Owns(db.subs, v, db.subs[v].providerId);
          }
        }
      case CancelAtEnd(_, _) =>
    }
  }

  // ---------------------------------------------------------------- what each event does to the rows

  /** The provider identifier is that of user `u`. */
  ghost predicate Belongs(db: Db, id: Option<string>, u: User) {
    id.Some? && u in db.subs && db.subs[u].providerId == id.value
  }

  ghost predicate Unlinked(db: Db, id: Option<string>) {
    id.None? || forall u :: u in db.subs ==> db.subs[u].providerId != id.value
  }

  lemma FindBelongs(db: Db, id: Option<string>, u: User)
    requires Unique(db.subs) && Belongs(db, id, u)
    ensures Find(db.subs, id) == Some(u)
  {
    FindUnique(db.subs, u);
  }

  /** The event is new. */
  ghost predicate Arrives(db: Db, e: Event) {
    e.Event? && e.id !in db.claims
  }

  /** A failed payment makes the subscription past due, with the deadline it has or else one grace period from
      now, and changes nothing else; access is then paid exactly until the deadline. */
  lemma FailedPaymentOutcome(env: Env, db: Db, e: Event, now: int, u: User)
    requires Unique(db.subs) && Arrives(db, e) && e.body.PaymentFailed? && Belongs(db, e.body.subscriptionId, u)
    ensures var deadline := if db.subs[u].graceEndsAt.Some? then db.subs[u].graceEndsAt.value else now + env.terms.grace;
            var after := db.subs[u].(status := PastDue, graceEndsAt := Some(deadline));
            Deliver(env, db, e, now) == Db(db.subs[u := after], db.ledger, db.claims + {e.id})
            && (forall t :: HasPaidAccess(after, t) <==> t < deadline)
            && forall t :: HasCopyAccess(after, t) <==> t < deadline && Effective(after, t).0 == Copy && Effective(after, t).1 >= 1
  {
    FindBelongs(db, e.body.subscriptionId, u);
  }

  /** A paid invoice that is processed makes a subscription that is not canceled active without a deadline, and
      changes no other row; access is then paid up to the end of the period, where that is known. */
  lemma PaidInvoiceOutcome(env: Env, db: Db, e: Event, now: int, u: User)
    requires Unique(db.subs) && Arrives(db, e) && e.body.InvoicePaid? && Belongs(db, e.body.invoice.subscription, u)
    requires OutcomeOf(env, db, e, now).Processed? && !db.subs[u].status.Canceled?
    ensures var after := db.subs[u].(status := Active, graceEndsAt := None);
            Deliver(env, db, e, now).subs == db.subs[u := after]
            && (forall t :: HasPaidAccess(after, t) <==> after.periodEnd.None? || t < after.periodEnd.value)
            && forall t :: HasCopyAccess(after, t) <==>
                 HasPaidAccess(after, t) && Effective(after, t).0 == Copy && Effective(after, t).1 >= 1
    ensures Deliver(env, db, e, now).claims == db.claims + {e.id}
    ensures A.Create(db.ledger, env.program, Some(u), e.body.invoice, now) == Some(Deliver(env, db, e, now).ledger)
  {
    FindBelongs(db, e.body.invoice.subscription, u);
  }

  /** An invoice of a canceled or of no known subscription is acknowledged and changes no row. */
  lemma UnlinkedInvoiceOutcome(env: Env, db: Db, e: Event, now: int, u: User)
    requires Unique(db.subs) && Arrives(db, e) && (e.body.InvoicePaid? || e.body.PaymentFailed?)
    requires var id := if e.body.InvoicePaid? then e.body.invoice.subscription else e.body.subscriptionId;
             Unlinked(db, id) || (e.body.InvoicePaid? && Belongs(db, id, u) && db.subs[u].status.Canceled?)
    ensures Deliver(env, db, e, now) == db.(claims := db.claims + {e.id})
  {
    if e.body.InvoicePaid? && Belongs(db, e.body.invoice.subscription, u) {
      FindBelongs(db, e.body.invoice.subscription, u);
    }
  }

  /** Refunds, disputes and other events change no subscription; a refund or dispute reverses under its name. */
  lemma OtherEventsOutcome(env: Env, db: Db, e: Event, now: int)
    requires e.Event? ==> e.body.RefundPaid? || e.body.DisputeCreated? || e.body.OtherBody?
    ensures Deliver(env, db, e, now).subs == db.subs
    ensures OutcomeOf(env, db, e, now).Processed? && e.body.RefundPaid? ==>
              A.Reverse(env.dec, db.ledger, e.body.refund, "refund", now) == Some(Deliver(env, db, e, now).ledger)
    ensures OutcomeOf(env, db, e, now).Processed? && e.body.DisputeCreated? ==>
              A.Reverse(env.dec, db.ledger, e.body.refund, "dispute", now) == Some(Deliver(env, db, e, now).ledger)
  {
  }

  /** A payload of a known product with readable dates and, unless it announces a deletion, a known status. */
  ghost predicate Valid(env: Env, p: Payload, kind: Kind) {
    && p.subscriptionId.Some? && p.readable && (kind.Deleted? || p.status.Some?)
    && Product(p).Some? && EntitlementFor(env.terms.catalog, Product(p).value).Some?
  }

  /** The row says what the payload says: a deletion is canceled, anything else has the payload's status, and the
      deadline follows the status. */
  ghost predicate Written(env: Env, p: Payload, kind: Kind, deadline: Option<int>, now: int, after: Subscription) {
    && Some(after.providerId) == p.subscriptionId && Some(after.productId) == Product(p)
    && after.periodStart == p.periodStart && after.periodEnd == p.periodEnd
    && after.cancelAtPeriodEnd == p.cancelAtPeriodEnd && after.canceledAt == p.canceledAt
    && (if kind.Deleted? then after.status == Canceled else Some(after.status) == p.status)
    && (after.status.Active? ==> after.graceEndsAt == None)
    && (after.status.PastDue? ==> after.graceEndsAt == if deadline.Some? then deadline else Some(now + env.terms.grace))
    && (after.status.Unpaid? || after.status.Canceled? ==> after.graceEndsAt == deadline)
  }

  /** The product's plan and limit hold at once and end any waiting change, unless they are the waiting change
      itself and its time is yet to come; customer, currency and amount are those of the payload where it has them. */
  ghost predicate Granted(env: Env, p: Payload, before: Subscription, now: int, after: Subscription) {
    && Grants(env.terms.catalog, p).Some?
    && (var (plan, limit) := Grants(env.terms.catalog, p).value;
        var waits := before.pendingPlan == Some(plan) && before.pendingLimit == Some(limit)
                     && before.pendingAt.Some? && now < before.pendingAt.value;
        if waits
        then after.plan == before.plan && after.limit == before.limit && after.pendingPlan == before.pendingPlan
             && after.pendingLimit == before.pendingLimit && after.pendingAt == before.pendingAt
        else after.plan == plan && after.limit == limit && after.pendingPlan == None
             && after.pendingLimit == None && after.pendingAt == None)
    && after.customerId == (if p.customerId.Some? then p.customerId else before.customerId)
    && after.currency == (if p.currency.Some? then p.currency.value else before.currency)
    && after.amount == (if p.amount.Some? then p.amount.value else before.amount)
  }

  /** A subscription event of a known subscription rewrites that row from the payload, and no other. */
  lemma LinkedSubscriptionOutcome(env: Env, db: Db, e: Event, now: int, u: User)
    requires Unique(db.subs) && Arrives(db, e) && e.body.SubscriptionEvent? && Belongs(db, e.body.payload.subscriptionId, u)
    ensures OutcomeOf(env, db, e, now).Processed? <==> Valid(env, e.body.payload, e.body.kind)
    ensures Valid(env, e.body.payload, e.body.kind) ==>
              u in Deliver(env, db, e, now).subs
              && Deliver(env, db, e, now) == Db(db.subs[u := Deliver(env, db, e, now).subs[u]], db.ledger, db.claims + {e.id})
              && Written(env, e.body.payload, e.body.kind, db.subs[u].graceEndsAt, now, Deliver(env, db, e, now).subs[u])
              && Granted(env, e.body.payload, db.subs[u], now, Deliver(env, db, e, now).subs[u])
              && Deliver(env, db, e, now).subs[u].user == db.subs[u].user
  {
    FindBelongs(db, e.body.payload.subscriptionId, u);
  }

  /** A new subscription of a user without one creates the row with the product's plan and limit; one of a user
      whose subscription is over takes its row; beside a running subscription it changes nothing. */
  lemma CreatedOutcome(env: Env, db: Db, e: Event, now: int, u: User)
    requires Arrives(db, e) && e.body.SubscriptionEvent? && e.body.kind.Created? && e.body.payload.user == Some(u)
    requires Unlinked(db, e.body.payload.subscriptionId)
    ensures u in db.subs && (db.subs[u].status.Active? || db.subs[u].status.PastDue?) ==>
              Deliver(env, db, e, now) == db.(claims := db.claims + {e.id})
    ensures u in db.subs && (db.subs[u].status.Canceled? || db.subs[u].status.Unpaid?) && Valid(env, e.body.payload, Created) ==>
              u in Deliver(env, db, e, now).subs
              && Deliver(env, db, e, now).subs == db.subs[u := Deliver(env, db, e, now).subs[u]]
              && Written(env, e.body.payload, Created, db.subs[u].graceEndsAt, now, Deliver(env, db, e, now).subs[u])
    ensures u !in db.subs && Valid(env, e.body.payload, Created) && e.body.payload.productId.Some? ==>
              u in Deliver(env, db, e, now).subs
              && Deliver(env, db, e, now).subs == db.subs[u := Deliver(env, db, e, now).subs[u]]
              && Written(env, e.body.payload, Created, None, now, Deliver(env, db, e, now).subs[u])
              && Deliver(env, db, e, now).subs[u].user == u
              && forall t :: Some(Effective(Deliver(env, db, e, now).subs[u], t)) == Grants(env.terms.catalog, e.body.payload)
  {
  }

  /** An update or deletion of an unknown subscription changes nothing, and a new one of nobody known raises. */
  lemma UnlinkedSubscriptionOutcome(env: Env, db: Db, e: Event, now: int)
    requires Arrives(db, e) && e.body.SubscriptionEvent? && Unlinked(db, e.body.payload.subscriptionId)
    ensures !e.body.kind.Created? ==> Deliver(env, db, e, now) == db.(claims := db.claims + {e.id})
    ensures e.body.kind.Created? && e.body.payload.user.None? ==> OutcomeOf(env, db, e, now).Raised? && Deliver(env, db, e, now) == db
  {
  }

  /** An upgrade, from the journal to copying or to more accounts, takes effect at once with what the provider
      answered; the user's row alone changes. */
  lemma UpgradeOutcome(env: Env, db: Db, t: Timed, later: int)
    requires t.step.ChangePlan? && t.step.user in db.subs && t.step.newPlan.Copy? && t.step.answer.Some? && later >= t.now
    requires var s := db.subs[t.step.user];
             (s.status.Active? || s.status.PastDue?) && (s.plan.Journal? || t.step.accounts > s.limit)
    requires 1 <= t.step.accounts <= |env.terms.catalog.copy|
    requires Valid(env, t.step.answer.value, Updated)
    requires forall v :: v in db.subs && v != t.step.user ==> db.subs[v].providerId != t.step.answer.value.subscriptionId.value
    ensures var u, p, n := t.step.user, t.step.answer.value, Apply(env, db, t);
            && u in n.subs && n == db.(subs := db.subs[u := n.subs[u]])
            && Written(env, p, Updated, db.subs[u].graceEndsAt, t.now, n.subs[u])
            && Granted(env, p, db.subs[u], t.now, n.subs[u])
            && (db.subs[u].pendingPlan.None? ==> Some(Effective(n.subs[u], later)) == Grants(env.terms.catalog, p))
  {
    PayloadWrites(env, db.subs[t.step.user], t.step.answer.value, Updated, t.now);
    UpgradeWrites(env, db, t);
  }

  lemma PayloadWrites(env: Env, s: Subscription, p: Payload, kind: Kind, now: int)
    requires Valid(env, p, kind)
    ensures ApplyPayload(env.terms, s, p, kind.Deleted?, now).Some?
    ensures Written(env, p, kind, s.graceEndsAt, now, ApplyPayload(env.terms, s, p, kind.Deleted?, now).value)
    ensures Granted(env, p, s, now, ApplyPayload(env.terms, s, p, kind.Deleted?, now).value)
  {
  }

  lemma UpgradeWrites(env: Env, db: Db, t: Timed)
    requires t.step.ChangePlan? && t.step.user in db.subs && t.step.newPlan.Copy? && t.step.answer.Some?
    requires var s := db.subs[t.step.user];
             (s.status.Active? || s.status.PastDue?) && (s.plan.Journal? || t.step.accounts > s.limit)
    requires 1 <= t.step.accounts <= |env.terms.catalog.copy|
    requires ApplyPayload(env.terms, db.subs[t.step.user], t.step.answer.value, false, t.now).Some?
    requires forall v :: v in db.subs && v != t.step.user ==>
               db.subs[v].providerId != ApplyPayload(env.terms, db.subs[t.step.user], t.step.answer.value, false, t.now).value.providerId
    ensures Apply(env, db, t) == db.(subs := db.subs[t.step.user :=
              ApplyPayload(env.terms, db.subs[t.step.user], t.step.answer.value, false, t.now).value])
  {
  }

  /** A cancellation is recorded for the end of the period, and nothing else changes. */
  lemma CancellationOutcome(env: Env, db: Db, t: Timed)
    requires t.step.CancelAtEnd?
    ensures Apply(env, db, t) ==
            if t.step.user in db.subs && t.step.ending.Some? && !db.subs[t.step.user].status.Canceled? && !db.subs[t.step.user].cancelAtPeriodEnd
            then db.(subs := db.subs[t.step.user := db.subs[t.step.user].(
                       cancelAtPeriodEnd := t.step.ending.value.0,
                       periodEnd := if t.step.ending.value.1.Some? then t.step.ending.value.1 else db.subs[t.step.user].periodEnd)])
            else db
  {
  }

  class BillingDatabase {
    var subs: map<User, Subscription>
    var ledger: seq<A.Commission>
    var claims: set<string>

    ghost function Abs(): Db
      reads this
    {
      Db(subs, ledger, claims)
    }

    constructor ()
      ensures Abs() == EmptyDb
    {
      subs, ledger, claims := map[], [], {};
    }

    method FindByProvider(id: Option<string>) returns (found: Option<User>)
      requires Unique(subs)
      ensures found == Find(subs, id)
    {
      found := None;
      if id.None? {
        return;
      }
      var todo := subs.Keys;
      while todo != {}
        invariant todo <= subs.Keys
        invariant forall u :: u in subs && u !in todo ==> subs[u].providerId != id.value
        decreases |todo|
      {
        var u :| u in todo;
        if subs[u].providerId == id.value {
          FindUnique(subs, u);
          return Some(u);
        }
        todo := todo - {u};
      }
    }

    /** False when the event raises; what the rows hold then is for the caller to roll back. */
    method ApplySubscriptionEvent(env: Env, kind: Kind, p: Payload, now: int) returns (ok: bool)
      requires Unique(subs)
      modifies this
      ensures ok == HandleSubscription(env.terms, old(subs), kind, p, now).Some?
      ensures ok ==> subs == HandleSubscription(env.terms, old(subs), kind, p, now).value
      ensures ledger == old(ledger) && claims == old(claims)
    {
      var found := FindByProvider(p.subscriptionId);
      if found.None? {
        if !kind.Created? {
          return true;
        }
        if p.user.None? {
          return false;
        }
        found := p.user;
        if found.value in subs && (subs[found.value].status.Active? || subs[found.value].status.PastDue?) {
          return true;
        }
        if found.value !in subs {
          var created := NewSubscription(env.terms.catalog, p, found.value);
          if created.None? {
            return false;
          }
          subs := subs[found.value := created.value];
        }
      }
      var s := ApplyPayload(env.terms, subs[found.value], p, kind.Deleted?, now);
      ok := s.Some?;
      if ok {
        subs := subs[found.value := s.value];
      }
    }

    method SettleInvoice(env: Env, i: A.Invoice, now: int) returns (ok: bool)
      requires Unique(subs)
      modifies this
      ensures ok == Handle(env, old(Abs()), InvoicePaid(i), now).Some?
      ensures ok ==> Abs() == Handle(env, old(Abs()), InvoicePaid(i), now).value
    {
      var found := FindByProvider(i.subscription);
      if found.None? || subs[found.value].status.Canceled? {
        return true;
      }
      subs := subs[found.value := WithStatus(env.terms, subs[found.value], Active, now)];
      var items := A.Create(ledger, env.program, found, i, now);
      ok := items.Some?;
      if ok {
        ledger := items.value;
      }
    }

    method Dispatch(env: Env, body: Body, now: int) returns (ok: bool)
      requires Unique(subs)
      modifies this
      ensures ok == Handle(env, old(Abs()), body, now).Some?
      ensures ok ==> Abs() == Handle(env, old(Abs()), body, now).value
    {
      match body {
        case SubscriptionEvent(kind, p) =>
          ok := ApplySubscriptionEvent(env, kind, p, now);
        case PaymentFailed(id) =>
          var found := FindByProvider(id);
          if found.Some? {
            subs := subs[found.value := WithStatus(env.terms, subs[found.value], PastDue, now)];
          }
          ok := true;
        case InvoicePaid(i) =>
          ok := SettleInvoice(env, i, now);
        case RefundPaid(r) =>
          var items := A.Reverse(env.dec, ledger, r, "refund", now);
          ok := items.Some?;
          if ok {
            ledger := items.value;
          }
        case DisputeCreated(r) =>
          var items := A.Reverse(env.dec, ledger, r, "dispute", now);
          ok := items.Some?;
          if ok {
            ledger := items.value;
          }
        case OtherBody =>
          ok := true;
      }
    }

    /** One delivery in one transaction: the claim first, then the handler, and a rollback of both
        when the handler raises. */
    method ProcessWebhook(env: Env, e: Event, now: int) returns (outcome: Outcome)
      requires Unique(subs)
      modifies this
      ensures outcome == OutcomeOf(env, old(Abs()), e, now)
      ensures Abs() == Deliver(env, old(Abs()), e, now)
    {
      if e.Malformed? {
        return Raised;
      }
      if e.id in claims {
        return Duplicate;
      }
      var subs0, ledger0, claims0 := subs, ledger, claims;
      claims := claims + {e.id};
      HandleIgnoresClaims(env, old(Abs()), e.body, now, claims);
      var ok := Dispatch(env, e.body, now);
      if ok {
        outcome := Processed;
      } else {
        subs, ledger, claims := subs0, ledger0, claims0;
        outcome := Raised;
      }
    }
  }
}
