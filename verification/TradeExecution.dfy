/**
 Execution of trade intents on one broker connection.

 A handler turns a delivery into a list of effects: database commits and calls to the broker.
 A process can die between any two effects, so what a delivery does is any prefix of its list;
 what the handler holds in memory is lost and only the performed effects remain.  Deliveries of
 one connection are handled one at a time.
 */
module TradeExecution {
  import opened Prelude

  // ---------------------------------------------------------------- rows

  datatype Action =
    | OpenMarket | PlacePending | AdditionalTp
    | ModifySlTp | BreakEven | PartialClose | FullClose | CancelPending
    | Unsupported

  predicate Opens(a: Action) {
    a.OpenMarket? || a.PlacePending? || a.AdditionalTp?
  }

  datatype IntentState = Created | Submitted | Confirmed | Uncertain | Reconciling | Retryable | Failed

  predicate Final(s: IntentState) {
    s.Confirmed? || s.Failed?
  }

  /** A trade intent; `volume` is the requested size of an opening, `fraction` the share a partial
      close asks for. */
  datatype Intent = Intent(
    state: IntentState, attempts: nat, createdAt: int,
    action: Action, volume: real, fraction: Option<real>)

  datatype Lifecycle = Open | Pending | Closed | Cancelled

  datatype Trade = Trade(intent: nat, lifecycle: Lifecycle, original: real, current: real)

  predicate Active(t: Trade) {
    t.lifecycle.Open? || t.lifecycle.Pending?
  }

  /** The limits of the account, and the age at which an unresolved intent is given up. */
  datatype Policy = Policy(
    maxLotPerTrade: real, maxLot: real, maxOpenPositions: int,
    dailyLossLimit: Option<real>, maxDrawdownPercent: Option<real>, maxAge: int)

  /** The equity marks that the risk gate keeps in the policy row. */
  datatype Anchors = Anchors(day: Option<int>, dayEquity: Option<real>, peak: Option<real>)

  datatype Store = Store(intents: map<nat, Intent>, trades: seq<Trade>, anchors: Anchors)

  datatype Symbol = Symbol(minVolume: real, maxVolume: real, step: real)

  // ---------------------------------------------------------------- volumes

  function Min(x: real, y: real): real { if x <= y then x else y }
  function Max(x: real, y: real): real { if x >= y then x else y }

  /** Clamps a requested volume to the broker's range and rounds it down to a whole step. */
  function NormalizeVolume(volume: real, s: Symbol): real
    requires s.step > 0.0
  {
    var bounded := Min(Max(volume, s.minVolume), s.maxVolume);
    var normalized := (bounded / s.step).Floor as real * s.step;
    Max(s.minVolume, Min(normalized, s.maxVolume))
  }

  lemma FloorTimesStep(x: real, step: real)
    requires step > 0.0
    ensures (x / step).Floor as real * step <= x
  {
    var q := x / step;
    assert q * step == x;
    assert q.Floor as real <= q;
    MulMono(q.Floor as real, q, step);
  }

  lemma MulMono(a: real, b: real, c: real)
    requires a <= b && c >= 0.0
    ensures a * c <= b * c
  {
    assert (b - a) * c >= 0.0;
  }

  /** Normalization exceeds the request exactly when the request is below the broker's minimum. */
  lemma NormalizeRoundsUpExactly(volume: real, s: Symbol)
    requires s.step > 0.0
    ensures NormalizeVolume(volume, s) <= volume <==> volume >= s.minVolume
    ensures NormalizeVolume(volume, s) >= s.minVolume
  {
    var bounded := Min(Max(volume, s.minVolume), s.maxVolume);
    var normalized := (bounded / s.step).Floor as real * s.step;
    FloorTimesStep(bounded, s.step);
    assert normalized <= bounded;
    assert NormalizeVolume(volume, s) == Max(s.minVolume, Min(normalized, s.maxVolume));
  }

  /** A request within the broker's range is recorded at the largest whole step it covers, or at the
      minimum; a larger one at no more than the maximum, unless the minimum lies above it. */
  lemma NormalizeIsLargestStep(volume: real, s: Symbol)
    requires s.step > 0.0
    ensures s.minVolume <= volume <= s.maxVolume ==>
              NormalizeVolume(volume, s) == s.minVolume ||
              (NormalizeVolume(volume, s) <= volume < NormalizeVolume(volume, s) + s.step
               && exists k :: WholeSteps(NormalizeVolume(volume, s), k, s.step))
    ensures volume > s.maxVolume ==> NormalizeVolume(volume, s) <= Max(s.minVolume, s.maxVolume)
  {
    if s.minVolume <= volume <= s.maxVolume && NormalizeVolume(volume, s) != s.minVolume {
      var k := (volume / s.step).Floor;
      FloorTimesStep(volume, s.step);
      NextStepExceeds(volume, s.step);
      assert WholeSteps(NormalizeVolume(volume, s), k, s.step);
    }
  }

  lemma NextStepExceeds(x: real, step: real)
    requires step > 0.0
    ensures x < (x / step).Floor as real * step + step
  {
    var q := x / step;
    assert q * step == x;
    StrictlyLess(x, q, q.Floor as real, step);
  }

  lemma StrictlyLess(x: real, q: real, f: real, step: real)
    requires q < f + 1.0 && step > 0.0 && q * step == x
    ensures x < f * step + step
  {
    var d := f + 1.0 - q;
    assert d * step > 0.0;
    assert d * step == f * step + step - q * step;
  }

  predicate WholeSteps(v: real, k: int, step: real) {
    v == k as real * step
  }

  // ---------------------------------------------------------------- risk gate

  /** What the gate charges for a trade: its current volume, or its original one when that is 0. */
  function Charge(t: Trade): real {
    if t.current != 0.0 then t.current else t.original
  }

  function Exposure(trades: seq<Trade>): real {
    if trades == [] then 0.0
    else
      var last := trades[|trades| - 1];
      Exposure(trades[..|trades| - 1]) + if Active(last) then last.current else 0.0
  }

  function Charged(trades: seq<Trade>): real {
    if trades == [] then 0.0
    else
      var last := trades[|trades| - 1];
      Charged(trades[..|trades| - 1]) + if Active(last) then Charge(last) else 0.0
  }

  function ActiveCount(trades: seq<Trade>): nat {
    if trades == [] then 0
    else ActiveCount(trades[..|trades| - 1]) + if Active(trades[|trades| - 1]) then 1 else 0
  }

  /** The equity marks after the gate has seen `equity` on day `today`. */
  function Remark(a: Anchors, equity: Option<real>, today: int): Anchors {
    match equity
    case None => a
    case Some(e) =>
      var daily := if a.day != Some(today) then a.(day := Some(today), dayEquity := Some(e)) else a;
      if daily.peak.None? || e > daily.peak.value then daily.(peak := Some(e)) else daily
  }

  /** The checks of the gate, in the order of the source. */
  predicate WithinRisk(p: Policy, a: Anchors, trades: seq<Trade>, volume: real,
                       equity: Option<real>, allowed: bool, blocked: bool)
  {
    && volume <= p.maxLotPerTrade
    && Charged(trades) + volume <= p.maxLot
    && ActiveCount(trades) < p.maxOpenPositions
    && allowed && !blocked
    && (equity.None? ==> p.dailyLossLimit.None? && p.maxDrawdownPercent.None?)
    && !(equity.Some? && p.dailyLossLimit.Some? && a.dayEquity.Some?
         && a.dayEquity.value - equity.value >= p.dailyLossLimit.value)
    && !(equity.Some? && p.maxDrawdownPercent.Some? && a.peak.Some? && a.peak.value > 0.0
         && (a.peak.value - equity.value) / a.peak.value * 100.0 >= p.maxDrawdownPercent.value)
  }

  // ---------------------------------------------------------------- effects

  datatype Effect =
    | Save(id: nat, row: Intent, trades: seq<Trade>, anchors: Anchors)
    | CallBroker(id: nat)
    | SaveTrade(index: nat, lifecycle: Lifecycle)

  /** A broker call, with the state the intent had in the database at that moment. */
  datatype Issue = Issue(id: nat, stored: IntentState)

  /** A committed change of an intent's state. */
  datatype Change = Change(id: nat, from: IntentState, to: IntentState)

  datatype World = World(db: Store, issued: seq<Issue>, changes: seq<Change>)

  function Perform(w: World, e: Effect): World {
    match e
    case Save(id, row, trades, anchors) =>
      if id !in w.db.intents then w
      else World(Store(w.db.intents[id := row], trades, anchors), w.issued,
                 w.changes + if w.db.intents[id].state != row.state
                             then [Change(id, w.db.intents[id].state, row.state)] else [])
    case CallBroker(id) =>
      if id !in w.db.intents then w
      else w.(issued := w.issued + [Issue(id, w.db.intents[id].state)])
    case SaveTrade(i, lifecycle) =>
      if i >= |w.db.trades| then w
      else w.(db := w.db.(trades := w.db.trades[i := w.db.trades[i].(lifecycle := lifecycle)]))
  }

  function PerformAll(w: World, es: seq<Effect>): World
    decreases |es|
  {
    if es == [] then w else PerformAll(Perform(w, es[0]), es[1..])
  }

  // ---------------------------------------------------------------- what the outside answers

  datatype SymbolAnswer = NoSymbol | Found(symbol: Symbol) | Unresolvable

  datatype QualityAnswer = QualityOk | QualityError(retryable: bool) | QualityCrash

  /** The broker's reply; a refused request may not even have been sent. */
  datatype Reply = Accepted | Refused(sent: bool, permanent: bool)

  datatype Answers = Answers(
    subscribed: bool, lockFree: bool, targetUnavailable: bool, halted: bool, brokerUp: bool,
    symbol: SymbolAnswer, matched: Option<nat>, quality: QualityAnswer,
    equity: Option<real>, today: int, allowed: bool, blocked: bool, reply: Reply)

  /** The open or pending trade a management action was matched to. */
  function Matched(db: Store, x: Answers): Option<nat> {
    if x.matched.Some? && x.matched.value < |db.trades| && Active(db.trades[x.matched.value])
    then x.matched else None
  }

  /** Requests that fail before anything is sent: an opening without a symbol (which is not taken
      for permanent), a management action without a trade, an unknown action. */
  function EffectiveReply(db: Store, action: Action, x: Answers): Reply {
    if Opens(action) then
      if x.symbol.Found? && x.symbol.symbol.step > 0.0 then x.reply else Refused(false, false)
    else if action.Unsupported? || Matched(db, x).None? then Refused(false, true)
    else x.reply
  }

  function CloseVolume(t: Trade, fraction: Option<real>): real {
    Charge(t) * if fraction.None? || fraction.value == 0.0 then 0.5 else fraction.value
  }

  /** The trades after the broker accepted the intent's action. */
  function Settle(db: Store, id: nat, intent: Intent, x: Answers): seq<Trade>
    requires EffectiveReply(db, intent.action, x).Accepted?
  {
    if Opens(intent.action) then
      var volume := NormalizeVolume(intent.volume, x.symbol.symbol);
      db.trades + [Trade(id, if intent.action.PlacePending? then Pending else Open, volume, volume)]
    else
      var m := Matched(db, x).value;
      var t := db.trades[m];
      match intent.action
      case PartialClose => db.trades[m := t.(current := Max(0.0, t.current - CloseVolume(t, intent.fraction)))]
      case FullClose => db.trades[m := t.(lifecycle := Closed, current := 0.0)]
      case CancelPending => db.trades[m := t.(lifecycle := Cancelled, current := 0.0)]
      case _ => db.trades
  }

  /** After the write-ahead commit: the broker call and the commit of its result. */
  function SubmitEffects(db: Store, id: nat, intent: Intent, anchors: Anchors, x: Answers): seq<Effect> {
    var submitted := intent.(state := Submitted, attempts := intent.attempts + 1);
    [Save(id, submitted, db.trades, anchors)] +
    match EffectiveReply(db, intent.action, x)
    case Accepted =>
      [CallBroker(id), Save(id, submitted.(state := Confirmed), Settle(db, id, intent, x), anchors)]
    case Refused(sent, permanent) =>
      (if sent then [CallBroker(id)] else []) +
      [Save(id, submitted.(state := if permanent then Failed else Uncertain), db.trades, anchors)]
  }

  /** The risk gate and what follows it. */
  function GateEffects(p: Policy, db: Store, id: nat, intent: Intent, x: Answers): seq<Effect> {
    if !Opens(intent.action) || intent.volume <= 0.0 then SubmitEffects(db, id, intent, db.anchors, x)
    else
      var anchors := Remark(db.anchors, x.equity, x.today);
      if WithinRisk(p, anchors, db.trades, intent.volume, x.equity, x.allowed, x.blocked)
      then SubmitEffects(db, id, intent, anchors, x)
      else [Save(id, intent.(state := Failed), db.trades, anchors)]
  }

  /** One `intent.execute` delivery. */
  function ExecuteEffects(p: Policy, db: Store, id: nat, x: Answers): seq<Effect> {
    if id !in db.intents then []
    else
      var intent := db.intents[id];
      var failed := [Save(id, intent.(state := Failed), db.trades, db.anchors)];
      if !intent.state.Created? && !intent.state.Retryable? then []
      else if !x.subscribed && Opens(intent.action) then failed
      else if !x.lockFree || x.targetUnavailable then []
      else if x.halted then failed
      else if !x.brokerUp || x.symbol.Unresolvable? then []
      else if Opens(intent.action) && x.symbol.Found? && !x.quality.QualityOk? then
        if x.quality.QualityCrash? then []
        else
          var tried := intent.(attempts := intent.attempts + 1);
          var state := if x.quality.retryable && tried.attempts <= 1 then Retryable else Failed;
          [Save(id, tried.(state := state), db.trades, db.anchors)]
      else GateEffects(p, db, id, intent, x)
  }

  predicate Expired(p: Policy, intent: Intent, now: int) {
    (if now - intent.createdAt >= 0 then now - intent.createdAt else 0) >= p.maxAge
  }

  /** One `intent.reconcile` delivery. */
  function ReconcileEffects(p: Policy, db: Store, id: nat, connected: bool, reachable: bool, found: bool, now: int): seq<Effect> {
    if id !in db.intents then []
    else
      var intent := db.intents[id];
      if !intent.state.Uncertain? && !intent.state.Reconciling? then []
      else if !connected then []
      else
        [Save(id, intent.(state := Reconciling), db.trades, db.anchors)] +
        if !reachable then []
        else
          var state := if found then Confirmed else if Expired(p, intent, now) then Failed else Uncertain;
          [Save(id, intent.(state := state), db.trades, db.anchors)]
  }

  datatype Emergency = ClosePositions | CancelPendingOrders | Both

  function EmergencyLifecycle(kind: Emergency, l: Lifecycle): Lifecycle {
    if (kind.ClosePositions? || kind.Both?) && l.Open? then Closed
    else if (kind.CancelPendingOrders? || kind.Both?) && l.Pending? then Cancelled
    else l
  }

  /** One `emergency.execute` delivery: one commit per trade in scope. */
  function EmergencyEffects(db: Store, kind: Emergency, targets: seq<nat>): seq<Effect> {
    if targets == [] then []
    else if targets[0] < |db.trades| && Active(db.trades[targets[0]]) then
      [SaveTrade(targets[0], EmergencyLifecycle(kind, db.trades[targets[0]].lifecycle))]
      + EmergencyEffects(db, kind, targets[1..])
    else EmergencyEffects(db, kind, targets[1..])
  }

  datatype Delivery =
    | NewIntent(id: nat, createdAt: int, action: Action, volume: real, fraction: Option<real>)
    | Execute(id: nat, answers: Answers)
    | Reconcile(id: nat, connected: bool, reachable: bool, found: bool, now: int)
    | EmergencyStop(kind: Emergency, targets: seq<nat>)

  function Effects(p: Policy, db: Store, d: Delivery): seq<Effect> {
    match d
    case NewIntent(_, _, _, _, _) => []
    case Execute(id, x) => ExecuteEffects(p, db, id, x)
    case Reconcile(id, connected, reachable, found, now) => ReconcileEffects(p, db, id, connected, reachable, found, now)
    case EmergencyStop(kind, targets) => EmergencyEffects(db, kind, targets)
  }

  /** A delivery whose process dies after `alive` effects. */
  function Deliver(p: Policy, w: World, d: Delivery, alive: nat): World {
    if d.NewIntent? then
      if d.id in w.db.intents then w
      else w.(db := w.db.(intents := w.db.intents[d.id := Intent(Created, 0, d.createdAt, d.action, d.volume, d.fraction)]))
    else
      PerformAll(w, Cut(Effects(p, w.db, d), alive))
  }

  /** The effects performed by a process that dies after `alive` of them. */
  function Cut(es: seq<Effect>, alive: nat): seq<Effect> {
    if alive < |es| then es[..alive] else es
  }

  ghost function Run(p: Policy, w: World, ds: seq<(Delivery, nat)>): World
    decreases |ds|
  {
    if ds == [] then w else Run(p, Deliver(p, w, ds[0].0, ds[0].1), ds[1..])
  }

  const Fresh := World(Store(map[], [], Anchors(None, None, None)), [], [])

  // ---------------------------------------------------------------- which effects are in order

  predicate LegalMove(from: IntentState, to: IntentState) {
    match from
    case Created => to.Failed? || to.Retryable? || to.Submitted?
    case Retryable => to.Failed? || to.Submitted?
    case Submitted => to.Confirmed? || to.Failed? || to.Uncertain?
    case Uncertain => to.Reconciling?
    case Reconciling => to.Reconciling? || to.Confirmed? || to.Failed? || to.Uncertain?
    case Confirmed => false
    case Failed => false
  }

  /** The number of attempts after a legal move. */
  predicate LegalCount(before: Intent, after: Intent) {
    match after.state
    case Retryable => after.attempts == before.attempts + 1 == 1
    case Submitted => after.attempts == before.attempts + 1
    case Failed => after.attempts == before.attempts || ((before.state.Created? || before.state.Retryable?) && after.attempts == before.attempts + 1)
    case _ => after.attempts == before.attempts
  }

  /** Either the new trade of intent `id` is appended, or every trade keeps its intent. */
  ghost predicate TradesOf(before: seq<Trade>, after: seq<Trade>, id: nat) {
    || (|after| == |before| + 1 && after[..|before|] == before && after[|before|].intent == id)
    || (|after| == |before| && forall i :: 0 <= i < |after| ==> after[i].intent == before[i].intent)
  }

  ghost predicate NotIssued(w: World, id: nat) {
    forall i :: 0 <= i < |w.issued| ==> w.issued[i].id != id
  }

  ghost predicate EffectOk(w: World, e: Effect) {
    match e
    case Save(id, row, trades, _) =>
      && id in w.db.intents
      && LegalMove(w.db.intents[id].state, row.state)
      && LegalCount(w.db.intents[id], row)
      && (trades == w.db.trades || (row.state.Confirmed? && w.db.intents[id].state.Submitted? && TradesOf(w.db.trades, trades, id)))
    case CallBroker(id) => id in w.db.intents && w.db.intents[id].state.Submitted? && NotIssued(w, id)
    case SaveTrade(_, _) => true
  }

  ghost predicate EffectsOk(w: World, es: seq<Effect>)
    decreases |es|
  {
    es == [] || (EffectOk(w, es[0]) && EffectsOk(Perform(w, es[0]), es[1..]))
  }

  // ---------------------------------------------------------------- invariant of every run

  ghost predicate IntentsOk(w: World) {
    forall id :: id in w.db.intents ==>
      var intent := w.db.intents[id];
      && intent.attempts <= 2
      && (intent.state.Created? ==> intent.attempts == 0)
      && (intent.state.Retryable? ==> intent.attempts == 1)
  }

  ghost predicate IssuesOk(w: World) {
    && (forall i :: 0 <= i < |w.issued| ==>
          && w.issued[i].stored.Submitted?
          && w.issued[i].id in w.db.intents
          && !w.db.intents[w.issued[i].id].state.Created?
          && !w.db.intents[w.issued[i].id].state.Retryable?)
    && (forall i, j :: 0 <= i < j < |w.issued| ==> w.issued[i].id != w.issued[j].id)
  }

  ghost predicate TradesOk(w: World) {
    && (forall i :: 0 <= i < |w.db.trades| ==>
          && w.db.trades[i].intent in w.db.intents
          && w.db.intents[w.db.trades[i].intent].state.Confirmed?)
    && (forall i, j :: 0 <= i < j < |w.db.trades| ==> w.db.trades[i].intent != w.db.trades[j].intent)
  }

  ghost predicate ChangesOk(w: World) {
    && (forall i :: 0 <= i < |w.changes| ==>
          && LegalMove(w.changes[i].from, w.changes[i].to)
          && w.changes[i].id in w.db.intents
          && (w.changes[i].to.Retryable? ==> !w.db.intents[w.changes[i].id].state.Created?))
    && (forall i, j :: 0 <= i < j < |w.changes| && w.changes[i].to.Retryable? && w.changes[j].to.Retryable?
          ==> w.changes[i].id != w.changes[j].id)
  }

  ghost predicate Inv(w: World) {
    IntentsOk(w) && IssuesOk(w) && TradesOk(w) && ChangesOk(w)
  }

  lemma SaveKeepsTrades(w: World, e: Effect)
    requires TradesOk(w) && e.Save? && EffectOk(w, e)
    ensures TradesOk(Perform(w, e))
  {
  }

  lemma SaveKeepsChanges(w: World, e: Effect)
    requires ChangesOk(w) && e.Save? && EffectOk(w, e)
    ensures ChangesOk(Perform(w, e))
  {
  }

  lemma EffectKeeps(w: World, e: Effect)
    requires Inv(w) && EffectOk(w, e)
    ensures Inv(Perform(w, e))
  {
    if e.Save? {
      SaveKeepsTrades(w, e);
      SaveKeepsChanges(w, e);
    }
  }

  lemma {:induction false} EffectsKeep(w: World, es: seq<Effect>, alive: nat)
    requires Inv(w) && EffectsOk(w, es) && alive <= |es|
    ensures Inv(PerformAll(w, es[..alive]))
    decreases |es|
  {
    if alive > 0 {
      EffectKeeps(w, es[0]);
      EffectsKeep(Perform(w, es[0]), es[1..], alive - 1);
      assert es[..alive][1..] == es[1..][..alive - 1];
    }
  }

  lemma EffectsOkOne(w: World, a: Effect)
    requires EffectOk(w, a)
    ensures EffectsOk(w, [a])
  {
    assert [a][1..] == [];
  }

  lemma EffectsOkMore(w: World, a: Effect, rest: seq<Effect>)
    requires EffectOk(w, a) && EffectsOk(Perform(w, a), rest)
    ensures EffectsOk(w, [a] + rest)
  {
    assert ([a] + rest)[1..] == rest;
  }

  /** The result of the broker call may be committed once the write-ahead commit is in place. */
  lemma ResultOk(w: World, id: nat, row: Intent, trades: seq<Trade>, anchors: Anchors)
    requires id in w.db.intents && w.db.intents[id].state.Submitted?
    requires row == w.db.intents[id].(state := row.state)
    requires row.state.Confirmed? || ((row.state.Failed? || row.state.Uncertain?) && trades == w.db.trades)
    requires row.state.Confirmed? ==> TradesOf(w.db.trades, trades, id)
    ensures EffectsOk(w, [Save(id, row, trades, anchors)])
    ensures NotIssued(w, id) ==> EffectsOk(w, [CallBroker(id), Save(id, row, trades, anchors)])
  {
    var last := Save(id, row, trades, anchors);
    EffectsOkOne(w, last);
    if NotIssued(w, id) {
      EffectsOkOne(Perform(w, CallBroker(id)), last);
      EffectsOkMore(w, CallBroker(id), [last]);
      assert [CallBroker(id)] + [last] == [CallBroker(id), last];
    }
  }

  lemma SettleTrades(db: Store, id: nat, intent: Intent, x: Answers)
    requires EffectiveReply(db, intent.action, x).Accepted?
    ensures TradesOf(db.trades, Settle(db, id, intent, x), id)
  {
  }

  lemma SubmitOk(w: World, id: nat, anchors: Anchors, x: Answers)
    requires IssuesOk(w) && IntentsOk(w) && id in w.db.intents
    requires w.db.intents[id].state.Created? || w.db.intents[id].state.Retryable?
    ensures EffectsOk(w, SubmitEffects(w.db, id, w.db.intents[id], anchors, x))
  {
    var intent := w.db.intents[id];
    var submitted := intent.(state := Submitted, attempts := intent.attempts + 1);
    var ahead := Save(id, submitted, w.db.trades, anchors);
    var w1 := Perform(w, ahead);
    assert NotIssued(w1, id);
    var es := SubmitEffects(w.db, id, intent, anchors, x);
    var rest := es[1..];
    match EffectiveReply(w.db, intent.action, x) {
      case Accepted =>
        SettleTrades(w.db, id, intent, x);
        ResultOk(w1, id, submitted.(state := Confirmed), Settle(w.db, id, intent, x), anchors);
      case Refused(sent, permanent) =>
        ResultOk(w1, id, submitted.(state := if permanent then Failed else Uncertain), w.db.trades, anchors);
    }
    assert es == [ahead] + rest;
    EffectsOkMore(w, ahead, rest);
  }

  lemma ExecuteOk(p: Policy, w: World, id: nat, x: Answers)
    requires Inv(w)
    ensures EffectsOk(w, ExecuteEffects(p, w.db, id, x))
  {
    var es := ExecuteEffects(p, w.db, id, x);
    if id in w.db.intents && (w.db.intents[id].state.Created? || w.db.intents[id].state.Retryable?) {
      if |es| == 1 {
        EffectsOkOne(w, es[0]);
        assert es == [es[0]];
      } else if es != [] {
        SubmitOk(w, id, MarksAfter(w, id, x), x);
      }
    }
  }

  /** The equity marks that an execution of `id` commits. */
  ghost function MarksAfter(w: World, id: nat, x: Answers): Anchors
    requires id in w.db.intents
  {
    if !Opens(w.db.intents[id].action) || w.db.intents[id].volume <= 0.0 then w.db.anchors
    else Remark(w.db.anchors, x.equity, x.today)
  }

  lemma ReconcileOk(p: Policy, w: World, id: nat, connected: bool, reachable: bool, found: bool, now: int)
    requires Inv(w)
    ensures EffectsOk(w, ReconcileEffects(p, w.db, id, connected, reachable, found, now))
  {
    var es := ReconcileEffects(p, w.db, id, connected, reachable, found, now);
    if |es| == 1 {
      EffectsOkOne(w, es[0]);
      assert es == [es[0]];
    } else if |es| == 2 {
      EffectsOkOne(Perform(w, es[0]), es[1]);
      EffectsOkMore(w, es[0], [es[1]]);
      assert es == [es[0]] + [es[1]];
    }
  }

  lemma EmergencyOk(w: World, db: Store, kind: Emergency, targets: seq<nat>)
    ensures EffectsOk(w, EmergencyEffects(db, kind, targets))
    decreases |targets|
  {
    if targets != [] {
      var es := EmergencyEffects(db, kind, targets[1..]);
      EmergencyOk(w, db, kind, targets[1..]);
      if targets[0] < |db.trades| && Active(db.trades[targets[0]]) {
        var a := SaveTrade(targets[0], EmergencyLifecycle(kind, db.trades[targets[0]].lifecycle));
        EmergencyOk(Perform(w, a), db, kind, targets[1..]);
        EffectsOkMore(w, a, es);
      }
    }
  }

  lemma DeliverKeeps(p: Policy, w: World, d: Delivery, alive: nat)
    requires Inv(w)
    ensures Inv(Deliver(p, w, d, alive))
  {
    if !d.NewIntent? {
      var es := Effects(p, w.db, d);
      EffectsInOrder(p, w, d);
      EffectsKeep(w, es, if alive < |es| then alive else |es|);
      assert es[..|es|] == es;
    }
  }

  lemma EffectsInOrder(p: Policy, w: World, d: Delivery)
    requires Inv(w)
    ensures EffectsOk(w, Effects(p, w.db, d))
  {
    match d
    case NewIntent(_, _, _, _, _) =>
    case Execute(id, x) => ExecuteOk(p, w, id, x);
    case Reconcile(id, connected, reachable, found, now) => ReconcileOk(p, w, id, connected, reachable, found, now);
    case EmergencyStop(kind, targets) => EmergencyOk(w, w.db, kind, targets);
  }

  lemma {:induction false} RunKeeps(p: Policy, w: World, ds: seq<(Delivery, nat)>)
    requires Inv(w)
    ensures Inv(Run(p, w, ds))
    decreases |ds|
  {
    if ds != [] {
      DeliverKeeps(p, w, ds[0].0, ds[0].1);
      RunKeeps(p, Deliver(p, w, ds[0].0, ds[0].1), ds[1..]);
    }
  }

  // ---------------------------------------------------------------- main results on intents

  /** For every sequence of deliveries, repeated or cut short anywhere: the broker is called at
      most once per intent, only while the database says `submitted`, and at most one copied
      trade is recorded per intent, for an intent that is confirmed. */
  lemma BrokerCalledAtMostOnce(p: Policy, ds: seq<(Delivery, nat)>)
    ensures var w := Run(p, Fresh, ds);
      && (forall i, j :: 0 <= i < j < |w.issued| ==> w.issued[i].id != w.issued[j].id)
      && (forall i :: 0 <= i < |w.issued| ==> w.issued[i].stored == Submitted)
      && (forall i, j :: 0 <= i < j < |w.db.trades| ==> w.db.trades[i].intent != w.db.trades[j].intent)
      && (forall i :: 0 <= i < |w.db.trades| ==>
            w.db.trades[i].intent in w.db.intents && w.db.intents[w.db.trades[i].intent].state == Confirmed)
  {
    RunKeeps(p, Fresh, ds);
  }

  /** From a fresh intent at most two attempts are counted and `retryable` is entered at most
      once, only from `created`. */
  lemma RetriedAtMostOnce(p: Policy, ds: seq<(Delivery, nat)>)
    ensures var w := Run(p, Fresh, ds);
      && (forall id :: id in w.db.intents ==> w.db.intents[id].attempts <= 2)
      && (forall i :: 0 <= i < |w.changes| && w.changes[i].to.Retryable? ==> w.changes[i].from == Created)
      && (forall i, j :: 0 <= i < j < |w.changes| && w.changes[i].to.Retryable? && w.changes[j].to.Retryable?
            ==> w.changes[i].id != w.changes[j].id)
  {
    RunKeeps(p, Fresh, ds);
  }

  ghost predicate Spares(es: seq<Effect>, id: nat) {
    forall i :: 0 <= i < |es| && es[i].Save? ==> es[i].id != id
  }

  lemma SparedRow(w: World, es: seq<Effect>, id: nat)
    requires id in w.db.intents && Spares(es, id)
    ensures id in PerformAll(w, es).db.intents && PerformAll(w, es).db.intents[id] == w.db.intents[id]
    decreases |es|
  {
    if es != [] {
      assert Spares(es[1..], id);
      assert id in Perform(w, es[0]).db.intents && Perform(w, es[0]).db.intents[id] == w.db.intents[id];
      SparedRow(Perform(w, es[0]), es[1..], id);
    }
  }

  /** States in which no delivery writes the intent: resolved ones, and `submitted` at rest. */
  predicate AtRest(s: IntentState) {
    Final(s) || s.Submitted?
  }

  lemma EmergencySpares(db: Store, kind: Emergency, targets: seq<nat>, id: nat)
    ensures Spares(EmergencyEffects(db, kind, targets), id)
    decreases |targets|
  {
    if targets != [] {
      EmergencySpares(db, kind, targets[1..], id);
    }
  }

  lemma ExecuteSpares(p: Policy, db: Store, x: Answers, other: nat, id: nat)
    requires id in db.intents && (other != id || AtRest(db.intents[id].state))
    ensures Spares(ExecuteEffects(p, db, other, x), id)
  {
  }

  lemma DeliverySpares(p: Policy, db: Store, d: Delivery, id: nat)
    requires id in db.intents && AtRest(db.intents[id].state)
    ensures Spares(Effects(p, db, d), id)
  {
    match d
    case NewIntent(_, _, _, _, _) =>
    case Execute(other, x) => ExecuteSpares(p, db, x, other, id);
    case Reconcile(_, _, _, _, _) =>
    case EmergencyStop(kind, targets) => EmergencySpares(db, kind, targets, id);
  }

  /** `confirmed` and `failed` are never left; and an intent whose handler died between the
      write-ahead commit and the commit of the result stays `submitted` for good, because neither
      kind of delivery picks it up again. */
  lemma {:induction false} RestingIntentNeverMoves(p: Policy, w: World, ds: seq<(Delivery, nat)>, id: nat)
    requires id in w.db.intents && AtRest(w.db.intents[id].state)
    ensures id in Run(p, w, ds).db.intents && Run(p, w, ds).db.intents[id] == w.db.intents[id]
    decreases |ds|
  {
    if ds != [] {
      var d, alive := ds[0].0, ds[0].1;
      if !d.NewIntent? {
        var es := Effects(p, w.db, d);
        DeliverySpares(p, w.db, d, id);
        SparedRow(w, Cut(es, alive), id);
      }
      RestingIntentNeverMoves(p, Deliver(p, w, d, alive), ds[1..], id);
    }
  }

  /** A reconciliation that reaches the broker resolves the intent exactly when the broker knows
      the order or the intent has reached its maximum age. */
  lemma ReconcileResolvesExactly(p: Policy, w: World, id: nat, found: bool, now: int, alive: nat)
    requires id in w.db.intents && alive >= 2
    requires w.db.intents[id].state.Uncertain? || w.db.intents[id].state.Reconciling?
    ensures var after := Deliver(p, w, Reconcile(id, true, true, found, now), alive);
      && id in after.db.intents
      && (Final(after.db.intents[id].state) <==> found || p.maxAge <= 0 || now >= w.db.intents[id].createdAt + p.maxAge)
      && (found <==> after.db.intents[id].state == Confirmed)
      && after.db.trades == w.db.trades
  {
    var es := Effects(p, w.db, Reconcile(id, true, true, found, now));
    assert |es| == 2;
    assert PerformAll(w, es) == PerformAll(Perform(w, es[0]), [es[1]]);
    assert es[1..] == [es[1]];
    assert PerformAll(Perform(w, es[0]), [es[1]]) == Perform(Perform(w, es[0]), es[1]);
  }

  // ---------------------------------------------------------------- stranded intents

  /** An execute delivery gets as far as the risk gate. */
  predicate ReachesGate(db: Store, id: nat, x: Answers) {
    && id in db.intents
    && (db.intents[id].state.Created? || db.intents[id].state.Retryable?)
    && (x.subscribed || !Opens(db.intents[id].action))
    && x.lockFree && !x.targetUnavailable && !x.halted && x.brokerUp && !x.symbol.Unresolvable?
    && (Opens(db.intents[id].action) && x.symbol.Found? ==> x.quality.QualityOk?)
  }

  /** The gate looks at openings of positive size only. */
  predicate Gated(intent: Intent) {
    Opens(intent.action) && intent.volume > 0.0
  }

  /** An execute delivery passes every check on the way to the write-ahead commit. */
  predicate Submits(p: Policy, db: Store, id: nat, x: Answers) {
    && ReachesGate(db, id, x)
    && (Gated(db.intents[id]) ==>
          WithinRisk(p, Remark(db.anchors, x.equity, x.today), db.trades, db.intents[id].volume, x.equity, x.allowed, x.blocked))
  }

  /** How many effects such a delivery has: the broker call is missing when nothing is sent. */
  function SubmitLength(db: Store, action: Action, x: Answers): nat {
    var reply := EffectiveReply(db, action, x);
    if reply.Accepted? || reply.sent then 3 else 2
  }

  /** The delivery dies after the write-ahead commit and before the commit of the result. */
  predicate Strands(p: Policy, db: Store, d: Delivery, alive: nat, id: nat) {
    && d.Execute? && d.id == id && Submits(p, db, id, d.answers)
    && 1 <= alive < SubmitLength(db, db.intents[id].action, d.answers)
  }

  /** A delivery has the submission's effects exactly when it passes every check, the gate's included;
      otherwise it commits a failure or a retry at most, and the broker is not called. */
  lemma ExecuteShape(p: Policy, w: World, id: nat, x: Answers)
    requires id in w.db.intents
    ensures Submits(p, w.db, id, x) ==>
              ExecuteEffects(p, w.db, id, x) == SubmitEffects(w.db, id, w.db.intents[id], MarksAfter(w, id, x), x)
    ensures CallBroker(id) in ExecuteEffects(p, w.db, id, x) ==> Submits(p, w.db, id, x)
    ensures !Submits(p, w.db, id, x) ==> |ExecuteEffects(p, w.db, id, x)| <= 1
    ensures !Submits(p, w.db, id, x) && ExecuteEffects(p, w.db, id, x) != [] ==>
              (var e := ExecuteEffects(p, w.db, id, x)[0]; e.Save? && e.id == id && (e.row.state.Failed? || e.row.state.Retryable?))
  {
  }

  lemma SubmitEnds(w: World, id: nat, anchors: Anchors, x: Answers, alive: nat)
    requires id in w.db.intents && alive >= 1
    ensures id in PerformAll(w, Cut(SubmitEffects(w.db, id, w.db.intents[id], anchors, x), alive)).db.intents
    ensures PerformAll(w, Cut(SubmitEffects(w.db, id, w.db.intents[id], anchors, x), alive)).db.intents[id].state.Submitted? <==>
            alive < SubmitLength(w.db, w.db.intents[id].action, x)
  {
    var es := SubmitEffects(w.db, id, w.db.intents[id], anchors, x);
    assert |es| == SubmitLength(w.db, w.db.intents[id].action, x);
    CutSteps(w, es, alive);
  }

  lemma ExecuteStrandsExactly(p: Policy, w: World, id: nat, x: Answers, alive: nat)
    requires id in w.db.intents && !w.db.intents[id].state.Submitted?
    ensures id in Deliver(p, w, Execute(id, x), alive).db.intents
    ensures Deliver(p, w, Execute(id, x), alive).db.intents[id].state.Submitted? <==> Strands(p, w.db, Execute(id, x), alive, id)
  {
    var es := ExecuteEffects(p, w.db, id, x);
    ExecuteShape(p, w, id, x);
    CutSteps(w, es, alive);
    if Submits(p, w.db, id, x) && alive >= 1 {
      SubmitEnds(w, id, MarksAfter(w, id, x), x, alive);
    }
  }

  lemma ReconcileNeverStrands(p: Policy, w: World, d: Delivery, alive: nat)
    requires d.Reconcile? && d.id in w.db.intents && !w.db.intents[d.id].state.Submitted?
    ensures d.id in Deliver(p, w, d, alive).db.intents && !Deliver(p, w, d, alive).db.intents[d.id].state.Submitted?
  {
    CutSteps(w, ReconcileEffects(p, w.db, d.id, d.connected, d.reachable, d.found, d.now), alive);
  }

  /** A delivery leaves an intent `submitted` exactly when it is an execution of that intent that dies
      after the write-ahead commit and before the commit of the result. */
  lemma StrandsExactly(p: Policy, w: World, d: Delivery, alive: nat, id: nat)
    requires id in w.db.intents && !w.db.intents[id].state.Submitted?
    ensures id in Deliver(p, w, d, alive).db.intents
    ensures Deliver(p, w, d, alive).db.intents[id].state.Submitted? <==> Strands(p, w.db, d, alive, id)
  {
    match d {
      case NewIntent(_, _, _, _, _) =>
      case Execute(other, x) =>
        if other == id {
          ExecuteStrandsExactly(p, w, id, x, alive);
        } else {
          ExecuteSpares(p, w.db, x, other, id);
          SparedRow(w, Cut(Effects(p, w.db, d), alive), id);
        }
      case Reconcile(other, _, _, _, _) =>
        if other == id {
          ReconcileNeverStrands(p, w, d, alive);
        } else {
          SparedRow(w, Cut(Effects(p, w.db, d), alive), id);
        }
      case EmergencyStop(kind, targets) =>
        EmergencySpares(w.db, kind, targets, id);
        SparedRow(w, Cut(Effects(p, w.db, d), alive), id);
    }
  }

  lemma {:induction false} RunSplits(p: Policy, w: World, ds: seq<(Delivery, nat)>)
    requires ds != []
    ensures Run(p, w, ds) == Deliver(p, Run(p, w, ds[..|ds| - 1]), ds[|ds| - 1].0, ds[|ds| - 1].1)
    decreases |ds|
  {
    if |ds| == 1 {
      assert ds[1..] == [];
    } else {
      RunSplits(p, Deliver(p, w, ds[0].0, ds[0].1), ds[1..]);
      assert ds[1..][..|ds| - 2] == ds[..|ds| - 1][1..];
    }
  }

  ghost predicate StrandedAt(p: Policy, ds: seq<(Delivery, nat)>, id: nat, k: nat) {
    k < |ds| && Strands(p, Run(p, Fresh, ds[..k]).db, ds[k].0, ds[k].1, id)
  }

  lemma IntentStays(p: Policy, w: World, d: Delivery, alive: nat, id: nat)
    requires id in w.db.intents && w.db.intents[id].state.Submitted?
    ensures id in Deliver(p, w, d, alive).db.intents && Deliver(p, w, d, alive).db.intents[id] == w.db.intents[id]
  {
    RestingIntentNeverMoves(p, w, [(d, alive)], id);
    assert [(d, alive)][1..] == [];
    assert Run(p, w, [(d, alive)]) == Run(p, Deliver(p, w, d, alive), []);
  }

  lemma NewIsCreated(p: Policy, w: World, d: Delivery, alive: nat, id: nat)
    requires id !in w.db.intents
    ensures id in Deliver(p, w, d, alive).db.intents ==> Deliver(p, w, d, alive).db.intents[id].state.Created?
    ensures !Strands(p, w.db, d, alive, id)
  {
    if !d.NewIntent? {
      AbsentStaysAbsent(w, Cut(Effects(p, w.db, d), alive), id);
    }
  }

  lemma {:induction false} AbsentStaysAbsent(w: World, es: seq<Effect>, id: nat)
    requires id !in w.db.intents
    ensures id !in PerformAll(w, es).db.intents
    decreases |es|
  {
    if es != [] {
      AbsentStaysAbsent(Perform(w, es[0]), es[1..], id);
    }
  }

  /** In any run an intent ends `submitted` exactly when one of its executions was cut short there. */
  lemma {:induction false} StrandedExactly(p: Policy, ds: seq<(Delivery, nat)>, id: nat)
    ensures id in Run(p, Fresh, ds).db.intents && Run(p, Fresh, ds).db.intents[id].state.Submitted? <==>
            exists k :: StrandedAt(p, ds, id, k)
    decreases |ds|
  {
    if ds != [] {
      var head, last := ds[..|ds| - 1], ds[|ds| - 1];
      var w := Run(p, Fresh, head);
      StrandedExactly(p, head, id);
      RunSplits(p, Fresh, ds);
      assert forall k :: 0 <= k < |head| ==> head[..k] == ds[..k] && head[k] == ds[k];
      assert forall k: nat :: StrandedAt(p, head, id, k) ==> StrandedAt(p, ds, id, k);
      assert forall k: nat :: StrandedAt(p, ds, id, k) && k < |head| ==> StrandedAt(p, head, id, k);
      assert StrandedAt(p, ds, id, |head|) <==> Strands(p, w.db, last.0, last.1, id);
      if id !in w.db.intents {
        NewIsCreated(p, w, last.0, last.1, id);
      } else if w.db.intents[id].state.Submitted? {
        IntentStays(p, w, last.0, last.1, id);
      } else {
        StrandsExactly(p, w, last.0, last.1, id);
      }
    }
  }

  // ---------------------------------------------------------------- what an uncut execution leaves

  /** Something is sent to the broker: an opening has a tradable symbol, a known management action an open
      or pending trade. */
  predicate Sendable(db: Store, action: Action, x: Answers) {
    match action
    case Unsupported => false
    case OpenMarket => x.symbol.Found? && x.symbol.symbol.step > 0.0
    case PlacePending => x.symbol.Found? && x.symbol.symbol.step > 0.0
    case AdditionalTp => x.symbol.Found? && x.symbol.symbol.step > 0.0
    case _ => x.matched.Some? && x.matched.value < |db.trades|
              && (db.trades[x.matched.value].lifecycle.Open? || db.trades[x.matched.value].lifecycle.Pending?)
  }

  /** What came of the broker call: a request that cannot be sent is refused for good unless it is an opening. */
  predicate RefusedForGood(db: Store, action: Action, x: Answers) {
    if Sendable(db, action, x) then x.reply.Refused? && x.reply.permanent
    else !action.OpenMarket? && !action.PlacePending? && !action.AdditionalTp?
  }

  lemma UncutSubmission(p: Policy, w: World, id: nat, x: Answers, alive: nat)
    requires Submits(p, w.db, id, x) && alive >= 3
    ensures Deliver(p, w, Execute(id, x), alive) ==
            PerformAll(w, SubmitEffects(w.db, id, w.db.intents[id], MarksAfter(w, id, x), x))
  {
    ExecuteShape(p, w, id, x);
  }

  /** An uninterrupted execution that passes every check ends `confirmed` exactly when the broker accepted
      the action, `failed` exactly when it was refused for good, and `uncertain` otherwise; it counts one
      attempt and calls the broker once, or not at all when nothing was sent. */
  lemma SubmissionOutcome(p: Policy, w: World, id: nat, x: Answers, alive: nat)
    requires Submits(p, w.db, id, x) && alive >= 3
    ensures id in Deliver(p, w, Execute(id, x), alive).db.intents
    ensures Deliver(p, w, Execute(id, x), alive).db.intents[id].state ==
            if Sendable(w.db, w.db.intents[id].action, x) && x.reply.Accepted? then Confirmed
            else if RefusedForGood(w.db, w.db.intents[id].action, x) then Failed
            else Uncertain
    ensures Deliver(p, w, Execute(id, x), alive).db.intents[id].attempts == w.db.intents[id].attempts + 1
    ensures Deliver(p, w, Execute(id, x), alive).issued ==
            w.issued + if Sendable(w.db, w.db.intents[id].action, x) && (x.reply.Accepted? || x.reply.sent)
                       then [Issue(id, Submitted)] else []
  {
    var es := SubmitEffects(w.db, id, w.db.intents[id], MarksAfter(w, id, x), x);
    UncutSubmission(p, w, id, x, alive);
    if |es| == 3 {
      assert es == [es[0], es[1], es[2]];
      PerformThree(w, es[0], es[1], es[2]);
    } else {
      assert es == [es[0], es[1]];
      PerformTwo(w, es[0], es[1]);
    }
  }

  /** The trades before the broker's answer are the trades after it, but for the one the action is about. */
  ghost predicate OnlyTrade(before: seq<Trade>, after: seq<Trade>, m: nat) {
    |after| == |before| && m < |before| && forall i :: 0 <= i < |before| && i != m ==> after[i] == before[i]
  }

  lemma SubmissionTrades(p: Policy, w: World, id: nat, x: Answers, alive: nat)
    requires Submits(p, w.db, id, x) && alive >= 3
    ensures Deliver(p, w, Execute(id, x), alive).db.trades ==
            if EffectiveReply(w.db, w.db.intents[id].action, x).Accepted? then Settle(w.db, id, w.db.intents[id], x) else w.db.trades
  {
    var es := SubmitEffects(w.db, id, w.db.intents[id], MarksAfter(w, id, x), x);
    UncutSubmission(p, w, id, x, alive);
    if |es| == 3 {
      assert es == [es[0], es[1], es[2]];
      PerformThree(w, es[0], es[1], es[2]);
    } else {
      assert es == [es[0], es[1]];
      PerformTwo(w, es[0], es[1]);
    }
  }

  /** An action the broker did not accept leaves the trades alone, and so does a change of stop or target. */
  lemma RefusedLeavesTrades(p: Policy, w: World, id: nat, x: Answers, alive: nat)
    requires Submits(p, w.db, id, x) && alive >= 3
    requires !Sendable(w.db, w.db.intents[id].action, x) || !x.reply.Accepted?
          || w.db.intents[id].action.ModifySlTp? || w.db.intents[id].action.BreakEven?
    ensures Deliver(p, w, Execute(id, x), alive).db.trades == w.db.trades
  {
    SubmissionTrades(p, w, id, x, alive);
  }

  /** An accepted opening records one trade of its intent at the normalized size, pending for a pending
      order and open otherwise. */
  lemma OpeningRecorded(p: Policy, w: World, id: nat, x: Answers, alive: nat)
    requires Submits(p, w.db, id, x) && alive >= 3 && x.reply.Accepted? && Sendable(w.db, w.db.intents[id].action, x)
    requires w.db.intents[id].action.OpenMarket? || w.db.intents[id].action.PlacePending? || w.db.intents[id].action.AdditionalTp?
    ensures var v := NormalizeVolume(w.db.intents[id].volume, x.symbol.symbol);
            Deliver(p, w, Execute(id, x), alive).db.trades ==
            w.db.trades + [Trade(id, if w.db.intents[id].action.PlacePending? then Pending else Open, v, v)]
  {
    SubmissionTrades(p, w, id, x, alive);
  }

  /** An accepted close or cancellation changes the matched trade alone: a full close and a cancellation
      retire it at size zero, a partial close takes the asked share, by default one half, of its size. */
  lemma ClosingRecorded(p: Policy, w: World, id: nat, x: Answers, alive: nat)
    requires Submits(p, w.db, id, x) && alive >= 3 && x.reply.Accepted? && Sendable(w.db, w.db.intents[id].action, x)
    requires w.db.intents[id].action.PartialClose? || w.db.intents[id].action.FullClose? || w.db.intents[id].action.CancelPending?
    ensures OnlyTrade(w.db.trades, Deliver(p, w, Execute(id, x), alive).db.trades, x.matched.value)
    ensures var before, after := w.db.trades[x.matched.value], Deliver(p, w, Execute(id, x), alive).db.trades[x.matched.value];
            after.intent == before.intent && after.original == before.original
    ensures w.db.intents[id].action.FullClose? ==>
              Deliver(p, w, Execute(id, x), alive).db.trades[x.matched.value].lifecycle.Closed?
              && Deliver(p, w, Execute(id, x), alive).db.trades[x.matched.value].current == 0.0
    ensures w.db.intents[id].action.CancelPending? ==>
              Deliver(p, w, Execute(id, x), alive).db.trades[x.matched.value].lifecycle.Cancelled?
              && Deliver(p, w, Execute(id, x), alive).db.trades[x.matched.value].current == 0.0
    ensures w.db.intents[id].action.PartialClose? ==>
              (var before, after := w.db.trades[x.matched.value], Deliver(p, w, Execute(id, x), alive).db.trades[x.matched.value];
               var fraction := w.db.intents[id].fraction;
               var size := if before.current != 0.0 then before.current else before.original;
               var share := if fraction.None? || fraction.value == 0.0 then 0.5 else fraction.value;
               after.lifecycle == before.lifecycle
               && after.current == if before.current >= size * share then before.current - size * share else 0.0)
  {
    SubmissionTrades(p, w, id, x, alive);
  }

  predicate PositivePeak(a: Anchors) {
    a.peak.Some? && a.peak.value > 0.0
  }

  /** An opening of positive size at the gate goes on to the write-ahead commit exactly when it exceeds
      neither the size limit of a trade, nor the account's total with all open and pending trades, nor the
      number of trades, when its symbol is allowed and not blocked, and when neither the loss since the
      day's mark nor the fall from the peak, marks that include its own reading, has reached its limit. */
  lemma GatePassesExactly(p: Policy, db: Store, id: nat, x: Answers, loss: real, fall: real)
    requires ReachesGate(db, id, x) && Opens(db.intents[id].action) && db.intents[id].volume > 0.0
    requires x.equity.Some? && Remark(db.anchors, x.equity, x.today).dayEquity.Some? ==>
               loss == Remark(db.anchors, x.equity, x.today).dayEquity.value - x.equity.value
    requires x.equity.Some? && PositivePeak(Remark(db.anchors, x.equity, x.today)) ==>
               fall == (Remark(db.anchors, x.equity, x.today).peak.value - x.equity.value) / Remark(db.anchors, x.equity, x.today).peak.value * 100.0
    ensures Submits(p, db, id, x) <==>
              (&& db.intents[id].volume <= p.maxLotPerTrade
               && Charged(db.trades) + db.intents[id].volume <= p.maxLot
               && ActiveCount(db.trades) + 1 <= p.maxOpenPositions
               && x.allowed && !x.blocked
               && (p.dailyLossLimit.Some? ==>
                     x.equity.Some? && (Remark(db.anchors, x.equity, x.today).dayEquity.Some? ==> loss < p.dailyLossLimit.value))
               && (p.maxDrawdownPercent.Some? ==>
                     x.equity.Some? && (PositivePeak(Remark(db.anchors, x.equity, x.today)) ==> fall < p.maxDrawdownPercent.value)))
  {
  }

  /** An uninterrupted execution of a waiting intent that is stopped before the write-ahead commit leaves the
      trades alone and does not call the broker. It fails the intent when the owner's plan or a halt or the
      gate forbids it, or a quality check does so for the second time or for good; it makes the intent
      `retryable` after a first passing quality failure; and it leaves it waiting otherwise. */
  lemma StoppedOutcome(p: Policy, w: World, id: nat, x: Answers, alive: nat)
    requires id in w.db.intents && (w.db.intents[id].state.Created? || w.db.intents[id].state.Retryable?)
    requires !Submits(p, w.db, id, x) && alive >= 1
    ensures id in Deliver(p, w, Execute(id, x), alive).db.intents
    ensures Deliver(p, w, Execute(id, x), alive).db.trades == w.db.trades && Deliver(p, w, Execute(id, x), alive).issued == w.issued
    ensures var before, after := w.db.intents[id], Deliver(p, w, Execute(id, x), alive).db.intents[id];
            var unpaid := Opens(before.action) && !x.subscribed;
            var busy := !unpaid && (!x.lockFree || x.targetUnavailable);
            var halted := !unpaid && !busy && x.halted;
            var down := !unpaid && !busy && !halted && (!x.brokerUp || x.symbol.Unresolvable?);
            var checked := !unpaid && !busy && !halted && !down && Opens(before.action) && x.symbol.Found?;
            (unpaid || halted ==> after == before.(state := Failed))
            && (busy || down ==> after == before)
            && (checked && x.quality.QualityCrash? ==> after == before)
            && (checked && x.quality.QualityError? && x.quality.retryable && before.attempts == 0 ==>
                  after == before.(state := Retryable, attempts := 1))
            && (checked && x.quality.QualityError? && !(x.quality.retryable && before.attempts == 0) ==>
                  after == before.(state := Failed, attempts := before.attempts + 1))
            && (!unpaid && !busy && !halted && !down && (checked ==> x.quality.QualityOk?) ==> after == before.(state := Failed))
  {
    CutSteps(w, ExecuteEffects(p, w.db, id, x), alive);
  }

  /** A trade in the scope of an emergency keeps everything but its lifecycle. */
  ghost predicate StoppedTrade(kind: Emergency, before: Trade, after: Trade) {
    && after.intent == before.intent && after.original == before.original && after.current == before.current
    && (before.lifecycle.Open? ==> after.lifecycle == if kind.CancelPendingOrders? then Open else Closed)
    && (before.lifecycle.Pending? ==> after.lifecycle == if kind.ClosePositions? then Pending else Cancelled)
    && (before.lifecycle.Closed? || before.lifecycle.Cancelled? ==> after == before)
  }

  lemma {:induction false} EmergencyStops(w: World, db: Store, kind: Emergency, targets: seq<nat>)
    requires |w.db.trades| == |db.trades|
    requires forall i :: 0 <= i < |db.trades| && i in targets ==> w.db.trades[i] == db.trades[i] || StoppedTrade(kind, db.trades[i], w.db.trades[i])
    ensures var after := PerformAll(w, EmergencyEffects(db, kind, targets)).db.trades;
      && |after| == |db.trades|
      && (forall i :: 0 <= i < |db.trades| && i in targets ==> StoppedTrade(kind, db.trades[i], after[i]))
      && (forall i :: 0 <= i < |db.trades| && i !in targets ==> after[i] == w.db.trades[i])
    decreases |targets|
  {
    if targets != [] {
      var k, rest := targets[0], targets[1..];
      assert targets == [k] + rest;
      if k < |db.trades| && Active(db.trades[k]) {
        var e := SaveTrade(k, EmergencyLifecycle(kind, db.trades[k].lifecycle));
        assert ([e] + EmergencyEffects(db, kind, rest))[1..] == EmergencyEffects(db, kind, rest);
        EmergencyStops(Perform(w, e), db, kind, rest);
      } else {
        EmergencyStops(w, db, kind, rest);
      }
    }
  }

  /** An uninterrupted emergency closes the open and cancels the pending trades in scope, as its kind says,
      and changes nothing else. */
  lemma EmergencyOutcome(p: Policy, w: World, kind: Emergency, targets: seq<nat>, alive: nat)
    requires alive >= |EmergencyEffects(w.db, kind, targets)|
    ensures var after := Deliver(p, w, EmergencyStop(kind, targets), alive).db.trades;
      && |after| == |w.db.trades|
      && (forall i :: 0 <= i < |after| && i in targets ==> StoppedTrade(kind, w.db.trades[i], after[i]))
      && (forall i :: 0 <= i < |after| && i !in targets ==> after[i] == w.db.trades[i])
  {
    EmergencyStops(w, w.db, kind, targets);
  }

  ghost predicate Resolves(p: Policy, w: World, ds: seq<(Delivery, nat)>, id: nat) {
    id in Run(p, w, ds).db.intents && Final(Run(p, w, ds).db.intents[id].state)
  }

  lemma RunOne(p: Policy, w: World, d: Delivery, alive: nat)
    ensures Run(p, w, [(d, alive)]) == Deliver(p, w, d, alive)
  {
    assert [(d, alive)][1..] == [];
    assert Run(p, Deliver(p, w, d, alive), []) == Deliver(p, w, d, alive);
  }

  /** Answers that stop an execution at a halted route. */
  ghost const HaltedRoute := Answers(true, true, false, true, true, NoSymbol, None, QualityOk, None, 0, true, false, Accepted)

  lemma HaltFails(p: Policy, w: World, id: nat)
    requires id in w.db.intents && (w.db.intents[id].state.Created? || w.db.intents[id].state.Retryable?)
    ensures Resolves(p, w, [(Execute(id, HaltedRoute), 1)], id)
  {
    RunOne(p, w, Execute(id, HaltedRoute), 1);
    CutSteps(w, ExecuteEffects(p, w.db, id, HaltedRoute), 1);
  }

  /** An intent can still be resolved, by some deliveries, exactly when it is not `submitted` at rest. */
  lemma ResolvableExactly(p: Policy, w: World, id: nat)
    requires id in w.db.intents
    ensures (exists ds :: Resolves(p, w, ds, id)) <==> !w.db.intents[id].state.Submitted?
  {
    match w.db.intents[id].state {
      case Submitted =>
        forall ds
          ensures !Resolves(p, w, ds, id)
        {
          RestingIntentNeverMoves(p, w, ds, id);
        }
      case Created => HaltFails(p, w, id);
      case Retryable => HaltFails(p, w, id);
      case Confirmed =>
        assert Run(p, w, []) == w;
        assert Resolves(p, w, [], id);
      case Failed =>
        assert Run(p, w, []) == w;
        assert Resolves(p, w, [], id);
      case _ =>
        ReconcileResolvesExactly(p, w, id, true, 0, 2);
        RunOne(p, w, Reconcile(id, true, true, true, 0), 2);
        assert Resolves(p, w, [(Reconcile(id, true, true, true, 0), 2)], id);
    }
  }

  // ---------------------------------------------------------------- exposure

  ghost predicate SaneTrades(trades: seq<Trade>) {
    forall i :: 0 <= i < |trades| ==> trades[i].original >= 0.0 && trades[i].current >= 0.0
  }

  /** The account limits on what is open or pending. */
  ghost predicate WithinLimits(p: Policy, trades: seq<Trade>) {
    SaneTrades(trades) && Exposure(trades) <= p.maxLot && ActiveCount(trades) <= p.maxOpenPositions
  }

  lemma ChargedCoversExposure(trades: seq<Trade>)
    requires SaneTrades(trades)
    ensures Exposure(trades) <= Charged(trades)
  {
    if trades != [] {
      ChargedCoversExposure(trades[..|trades| - 1]);
    }
  }

  lemma TotalsAppend(trades: seq<Trade>, t: Trade)
    ensures Exposure(trades + [t]) == Exposure(trades) + if Active(t) then t.current else 0.0
    ensures ActiveCount(trades + [t]) == ActiveCount(trades) + if Active(t) then 1 else 0
  {
    DropAppended(trades, t);
  }

  /** Shrinking or retiring one trade lowers the totals. */
  lemma TotalsShrink(trades: seq<Trade>, i: nat, t: Trade)
    requires i < |trades| && (Active(t) ==> Active(trades[i]) && t.current <= trades[i].current)
    requires trades[i].current >= 0.0
    ensures Exposure(trades[i := t]) <= Exposure(trades)
    ensures ActiveCount(trades[i := t]) <= ActiveCount(trades)
  {
    var n := |trades| - 1;
    if i == n {
      assert trades[i := t][..n] == trades[..n];
    } else {
      TotalsShrink(trades[..n], i, t);
      assert trades[i := t][..n] == trades[..n][i := t];
    }
  }

  /** An opening of this size is charged by the gate and recorded at no more than was charged. */
  predicate SafeVolume(volume: real, s: Symbol) {
    volume > 0.0 && volume >= s.minVolume
  }

  /** An accepted opening keeps the account limits. */
  lemma OpeningWithinLimits(p: Policy, trades: seq<Trade>, t: Trade, volume: real)
    requires WithinLimits(p, trades) && 0.0 <= t.current <= volume && t.original >= 0.0
    requires Charged(trades) + volume <= p.maxLot && ActiveCount(trades) < p.maxOpenPositions
    ensures WithinLimits(p, trades + [t])
  {
    ChargedCoversExposure(trades);
    TotalsAppend(trades, t);
  }

  lemma NonNegativeProduct(a: real, b: real)
    requires a >= 0.0 && b >= 0.0
    ensures a * b >= 0.0
  {
  }

  lemma PartialCloseShrinks(t: Trade, fraction: Option<real>)
    requires t.original >= 0.0 && t.current >= 0.0 && (fraction.Some? ==> fraction.value >= 0.0)
    ensures 0.0 <= Max(0.0, t.current - CloseVolume(t, fraction)) <= t.current
  {
    NonNegativeProduct(Charge(t), if fraction.None? || fraction.value == 0.0 then 0.5 else fraction.value);
  }

  /** A delivery asks for nothing that outgrows the gate: openings of safe size and partial closes
      of a non-negative share. */
  ghost predicate SafeIntent(intent: Intent, x: Answers) {
    && (Opens(intent.action) && x.symbol.Found? ==> SafeVolume(intent.volume, x.symbol.symbol) && x.symbol.symbol.minVolume >= 0.0)
    && (intent.action.PartialClose? && intent.fraction.Some? ==> intent.fraction.value >= 0.0)
  }

  lemma SettleWithinLimits(p: Policy, db: Store, id: nat, intent: Intent, x: Answers)
    requires EffectiveReply(db, intent.action, x).Accepted? && WithinLimits(p, db.trades) && SafeIntent(intent, x)
    requires Opens(intent.action) ==>
      Charged(db.trades) + intent.volume <= p.maxLot && ActiveCount(db.trades) < p.maxOpenPositions
    ensures WithinLimits(p, Settle(db, id, intent, x))
  {
    if Opens(intent.action) {
      var v := NormalizeVolume(intent.volume, x.symbol.symbol);
      NormalizeRoundsUpExactly(intent.volume, x.symbol.symbol);
      var t := Trade(id, if intent.action.PlacePending? then Pending else Open, v, v);
      OpeningWithinLimits(p, db.trades, t, intent.volume);
    } else {
      var m := Matched(db, x).value;
      var t := db.trades[m];
      match intent.action {
        case PartialClose =>
          PartialCloseShrinks(t, intent.fraction);
          TotalsShrink(db.trades, m, t.(current := Max(0.0, t.current - CloseVolume(t, intent.fraction))));
        case FullClose => TotalsShrink(db.trades, m, t.(lifecycle := Closed, current := 0.0));
        case CancelPending => TotalsShrink(db.trades, m, t.(lifecycle := Cancelled, current := 0.0));
        case _ =>
      }
    }
  }

  ghost predicate SavesWithin(p: Policy, es: seq<Effect>) {
    forall i :: 0 <= i < |es| && es[i].Save? ==> WithinLimits(p, es[i].trades)
  }

  lemma SavesKeepLimits(p: Policy, w: World, es: seq<Effect>)
    requires WithinLimits(p, w.db.trades) && SavesWithin(p, es)
    requires forall i :: 0 <= i < |es| ==> !es[i].SaveTrade?
    ensures WithinLimits(p, PerformAll(w, es).db.trades)
    decreases |es|
  {
    if es != [] {
      var rest := es[1..];
      assert forall i :: 0 <= i < |rest| ==> rest[i] == es[i + 1];
      SavesKeepLimits(p, Perform(w, es[0]), rest);
    }
  }

  lemma SubmitSavesWithin(p: Policy, db: Store, id: nat, intent: Intent, anchors: Anchors, x: Answers)
    requires WithinLimits(p, db.trades) && SafeIntent(intent, x)
    requires Opens(intent.action) && x.symbol.Found? ==>
      Charged(db.trades) + intent.volume <= p.maxLot && ActiveCount(db.trades) < p.maxOpenPositions
    ensures SavesWithin(p, SubmitEffects(db, id, intent, anchors, x))
    ensures forall i :: 0 <= i < |SubmitEffects(db, id, intent, anchors, x)| ==> !SubmitEffects(db, id, intent, anchors, x)[i].SaveTrade?
  {
    if EffectiveReply(db, intent.action, x).Accepted? {
      SettleWithinLimits(p, db, id, intent, x);
    }
  }

  lemma ExecuteSavesWithin(p: Policy, db: Store, id: nat, x: Answers)
    requires WithinLimits(p, db.trades) && (id in db.intents ==> SafeIntent(db.intents[id], x))
    ensures SavesWithin(p, ExecuteEffects(p, db, id, x))
    ensures forall i :: 0 <= i < |ExecuteEffects(p, db, id, x)| ==> !ExecuteEffects(p, db, id, x)[i].SaveTrade?
  {
    var es := ExecuteEffects(p, db, id, x);
    if id in db.intents && |es| > 1 {
      var intent := db.intents[id];
      var anchors := if !Opens(intent.action) || intent.volume <= 0.0 then db.anchors else Remark(db.anchors, x.equity, x.today);
      SubmitSavesWithin(p, db, id, intent, anchors, x);
    }
  }

  /** Some of the trades have been retired by an emergency of this kind. */
  ghost predicate Retired(kind: Emergency, before: seq<Trade>, after: seq<Trade>) {
    && |after| == |before|
    && forall i :: 0 <= i < |before| ==>
         after[i] == before[i] || after[i] == before[i].(lifecycle := EmergencyLifecycle(kind, before[i].lifecycle))
  }

  lemma EmergencyKeepsLimits(p: Policy, w: World, db: Store, kind: Emergency, targets: seq<nat>, alive: nat)
    requires WithinLimits(p, w.db.trades) && Retired(kind, db.trades, w.db.trades)
    requires alive <= |EmergencyEffects(db, kind, targets)|
    ensures WithinLimits(p, PerformAll(w, EmergencyEffects(db, kind, targets)[..alive]).db.trades)
    decreases |targets|
  {
    if targets != [] {
      var rest := EmergencyEffects(db, kind, targets[1..]);
      var i := targets[0];
      if i < |db.trades| && Active(db.trades[i]) {
        var e := SaveTrade(i, EmergencyLifecycle(kind, db.trades[i].lifecycle));
        if alive > 0 {
          TotalsShrink(w.db.trades, i, w.db.trades[i].(lifecycle := e.lifecycle));
          EmergencyKeepsLimits(p, Perform(w, e), db, kind, targets[1..], alive - 1);
          assert EmergencyEffects(db, kind, targets)[..alive] == [e] + rest[..alive - 1];
        }
      } else {
        EmergencyKeepsLimits(p, w, db, kind, targets[1..], alive);
      }
    }
  }

  ghost predicate SafeDelivery(w: World, d: Delivery) {
    d.Execute? && d.id in w.db.intents ==> SafeIntent(w.db.intents[d.id], d.answers)
  }

  lemma DeliverKeepsLimits(p: Policy, w: World, d: Delivery, alive: nat)
    requires WithinLimits(p, w.db.trades) && SafeDelivery(w, d)
    ensures WithinLimits(p, Deliver(p, w, d, alive).db.trades)
  {
    if !d.NewIntent? {
      var es := Effects(p, w.db, d);
      var n := if alive < |es| then alive else |es|;
      assert es[..|es|] == es;
      if d.EmergencyStop? {
        EmergencyKeepsLimits(p, w, w.db, d.kind, d.targets, n);
      } else {
        if d.Execute? {
          ExecuteSavesWithin(p, w.db, d.id, d.answers);
        }
        SavesKeepLimits(p, w, es[..n]);
      }
    }
  }

  ghost predicate SafeRun(p: Policy, w: World, ds: seq<(Delivery, nat)>)
    decreases |ds|
  {
    ds == [] || (SafeDelivery(w, ds[0].0) && SafeRun(p, Deliver(p, w, ds[0].0, ds[0].1), ds[1..]))
  }

  lemma {:induction false} RunKeepsLimits(p: Policy, w: World, ds: seq<(Delivery, nat)>)
    requires WithinLimits(p, w.db.trades) && SafeRun(p, w, ds)
    ensures WithinLimits(p, Run(p, w, ds).db.trades)
    decreases |ds|
  {
    if ds != [] {
      DeliverKeepsLimits(p, w, ds[0].0, ds[0].1);
      RunKeepsLimits(p, Deliver(p, w, ds[0].0, ds[0].1), ds[1..]);
    }
  }

  /** Over every run of safe deliveries, cut short anywhere, what is open or pending stays within
      the account's total lot and position limits, although the gate charges a trade that was
      closed down to zero at its original size. */
  lemma ExposureTheorem(p: Policy, ds: seq<(Delivery, nat)>)
    requires p.maxLot >= 0.0 && p.maxOpenPositions >= 0 && SafeRun(p, Fresh, ds)
    ensures Exposure(Run(p, Fresh, ds).db.trades) <= p.maxLot
    ensures ActiveCount(Run(p, Fresh, ds).db.trades) <= p.maxOpenPositions
  {
    RunKeepsLimits(p, Fresh, ds);
  }

  /** Answers of an outside world that lets every opening through to the broker. */
  ghost function Willing(s: Symbol): Answers {
    Answers(true, true, false, false, true, Found(s), None, QualityOk, None, 0, true, false, Accepted)
  }

  /** A market opening of `volume` keeps the limits of every policy from every state within them. */
  ghost predicate AlwaysWithin(volume: real, s: Symbol) {
    forall p: Policy, w: World, id: nat, alive: nat ::
      WithinLimits(p, w.db.trades) && id in w.db.intents && w.db.intents[id] == Intent(Created, 0, 0, OpenMarket, volume, None)
      ==> WithinLimits(p, Deliver(p, w, Execute(id, Willing(s)), alive).db.trades)
  }

  ghost const OnePolicy: real -> Policy := m => Policy(m, m, if m > 0.0 then 1 else 0, None, None, 60)

  lemma PerformOne(w: World, a: Effect)
    ensures PerformAll(w, [a]) == Perform(w, a)
  {
    assert [a][1..] == [];
  }

  lemma PerformTwo(w: World, a: Effect, b: Effect)
    ensures PerformAll(w, [a, b]) == Perform(Perform(w, a), b)
  {
    assert [a, b][1..] == [b];
    PerformOne(Perform(w, a), b);
  }

  lemma PerformThree(w: World, a: Effect, b: Effect, c: Effect)
    ensures PerformAll(w, [a, b, c]) == Perform(Perform(Perform(w, a), b), c)
  {
    assert [a, b, c][1..] == [b, c];
    PerformTwo(Perform(w, a), b, c);
  }

  /** The policy and state in which an unsafe opening breaks the limits. */
  lemma UnsafeVolumeBreaks(volume: real, s: Symbol)
    requires s.step > 0.0 && s.minVolume >= 0.0 && !SafeVolume(volume, s)
    ensures var m := Max(volume, 0.0);
      var w := World(Store(map[0 := Intent(Created, 0, 0, OpenMarket, volume, None)], [], Anchors(None, None, None)), [], []);
      WithinLimits(OnePolicy(m), w.db.trades)
      && !WithinLimits(OnePolicy(m), Deliver(OnePolicy(m), w, Execute(0, Willing(s)), 3).db.trades)
  {
    var m := Max(volume, 0.0);
    var p := OnePolicy(m);
    var intent := Intent(Created, 0, 0, OpenMarket, volume, None);
    var w := World(Store(map[0 := intent], [], Anchors(None, None, None)), [], []);
    var x := Willing(s);
    var v := NormalizeVolume(volume, s);
    NormalizeRoundsUpExactly(volume, s);
    var es := Effects(p, w.db, Execute(0, x));
    assert es == SubmitEffects(w.db, 0, intent, w.db.anchors, x);
    var t := Trade(0, Open, v, v);
    assert Settle(w.db, 0, intent, x) == [] + [t];
    TotalsAppend([], t);
    var w1 := Perform(w, es[0]);
    var w2 := Perform(w1, es[1]);
    var w3 := Perform(w2, es[2]);
    assert es == [es[0], es[1], es[2]];
    PerformThree(w, es[0], es[1], es[2]);
    assert w3.db.trades == [t];
  }

  /** Exactly when openings respect the limits: the size is positive and not below the broker's
      minimum, which normalization would raise it to after the gate has charged the smaller one. */
  lemma OpeningSafeExactly(volume: real, s: Symbol)
    requires s.step > 0.0 && s.minVolume >= 0.0
    ensures AlwaysWithin(volume, s) <==> SafeVolume(volume, s)
  {
    if SafeVolume(volume, s) {
      forall p: Policy, w: World, id: nat, alive: nat |
        WithinLimits(p, w.db.trades) && id in w.db.intents && w.db.intents[id] == Intent(Created, 0, 0, OpenMarket, volume, None)
        ensures WithinLimits(p, Deliver(p, w, Execute(id, Willing(s)), alive).db.trades)
      {
        DeliverKeepsLimits(p, w, Execute(id, Willing(s)), alive);
      }
    } else {
      UnsafeVolumeBreaks(volume, s);
    }
  }

  // ---------------------------------------------------------------- equity marks

  /** An equity reading of the gate and the day it was taken. */
  datatype Reading = Reading(equity: Option<real>, day: int)

  ghost function RemarkAll(a: Anchors, readings: seq<Reading>): Anchors {
    if readings == [] then a
    else
      var last := readings[|readings| - 1];
      Remark(RemarkAll(a, readings[..|readings| - 1]), last.equity, last.day)
  }

  /** The reading that a delivery commits; one whose process dies before its first commit is lost. */
  ghost function ReadingOf(db: Store, d: Delivery, alive: nat): seq<Reading> {
    if d.Execute? && ReachesGate(db, d.id, d.answers) && Gated(db.intents[d.id]) && alive >= 1
    then [Reading(d.answers.equity, d.answers.today)] else []
  }

  /** The readings that a run commits, in order. */
  ghost function Readings(p: Policy, w: World, ds: seq<(Delivery, nat)>): seq<Reading>
    decreases |ds|
  {
    if ds == [] then []
    else ReadingOf(w.db, ds[0].0, ds[0].1) + Readings(p, Deliver(p, w, ds[0].0, ds[0].1), ds[1..])
  }

  lemma {:induction false} RemarkFirst(a: Anchors, r: Reading, rest: seq<Reading>)
    ensures RemarkAll(a, [r] + rest) == RemarkAll(Remark(a, r.equity, r.day), rest)
    decreases |rest|
  {
    var all := [r] + rest;
    if rest == [] {
      assert all[..|all| - 1] == [];
    } else {
      RemarkFirst(a, r, rest[..|rest| - 1]);
      assert all[..|all| - 1] == [r] + rest[..|rest| - 1];
    }
  }

  lemma ExecuteMarks(p: Policy, w: World, id: nat, x: Answers, alive: nat)
    ensures Deliver(p, w, Execute(id, x), alive).db.anchors ==
            if ReachesGate(w.db, id, x) && Gated(w.db.intents[id]) && alive >= 1
            then Remark(w.db.anchors, x.equity, x.today) else w.db.anchors
  {
    CutSteps(w, ExecuteEffects(p, w.db, id, x), alive);
    if id in w.db.intents {
      ExecuteShape(p, w, id, x);
    }
  }

  lemma {:induction false} EmergencyMarks(w: World, es: seq<Effect>)
    requires forall i :: 0 <= i < |es| ==> es[i].SaveTrade?
    ensures PerformAll(w, es).db.anchors == w.db.anchors
    decreases |es|
  {
    if es != [] {
      EmergencyMarks(Perform(w, es[0]), es[1..]);
    }
  }

  lemma EmergencySavesTrades(db: Store, kind: Emergency, targets: seq<nat>)
    ensures forall i :: 0 <= i < |EmergencyEffects(db, kind, targets)| ==> EmergencyEffects(db, kind, targets)[i].SaveTrade?
  {
  }

  lemma DeliverMarks(p: Policy, w: World, d: Delivery, alive: nat)
    ensures Deliver(p, w, d, alive).db.anchors == RemarkAll(w.db.anchors, ReadingOf(w.db, d, alive))
  {
    match d {
      case NewIntent(_, _, _, _, _) =>
      case Execute(id, x) => ExecuteMarks(p, w, id, x, alive);
      case Reconcile(_, _, _, _, _) => CutSteps(w, Effects(p, w.db, d), alive);
      case EmergencyStop(kind, targets) =>
        EmergencySavesTrades(w.db, kind, targets);
        EmergencyMarks(w, Cut(Effects(p, w.db, d), alive));
    }
    if ReadingOf(w.db, d, alive) != [] {
      RemarkFirst(w.db.anchors, ReadingOf(w.db, d, alive)[0], []);
    }
  }

  /** The stored equity marks are those of the committed readings, in order. */
  lemma {:induction false} RunMarks(p: Policy, w: World, ds: seq<(Delivery, nat)>)
    ensures Run(p, w, ds).db.anchors == RemarkAll(w.db.anchors, Readings(p, w, ds))
    decreases |ds|
  {
    if ds != [] {
      var next, mine := Deliver(p, w, ds[0].0, ds[0].1), ReadingOf(w.db, ds[0].0, ds[0].1);
      RunMarks(p, next, ds[1..]);
      DeliverMarks(p, w, ds[0].0, ds[0].1);
      if mine == [] {
        assert Readings(p, w, ds) == Readings(p, next, ds[1..]);
      } else {
        assert mine == [mine[0]];
        RemarkFirst(w.db.anchors, mine[0], Readings(p, next, ds[1..]));
        RemarkFirst(w.db.anchors, mine[0], []);
      }
    }
  }

  const NoMarks := Anchors(None, None, None)

  ghost predicate IsPeak(readings: seq<Reading>, peak: Option<real>) {
    && (peak.None? <==> forall i :: 0 <= i < |readings| ==> readings[i].equity.None?)
    && (peak.Some? ==> exists i :: 0 <= i < |readings| && readings[i].equity == peak)
    && (peak.Some? ==> forall i :: 0 <= i < |readings| && readings[i].equity.Some? ==> readings[i].equity.value <= peak.value)
  }

  lemma {:induction false} PeakOfReadings(readings: seq<Reading>)
    ensures IsPeak(readings, RemarkAll(NoMarks, readings).peak)
  {
    if readings != [] {
      var init, n := readings[..|readings| - 1], |readings| - 1;
      PeakOfReadings(init);
      assert readings[n].equity == readings[n].equity;
      if RemarkAll(NoMarks, init).peak.Some? {
        var i :| 0 <= i < |init| && init[i].equity == RemarkAll(NoMarks, init).peak;
        assert readings[i] == init[i];
      }
    }
  }

  /** In every run the stored peak mark is the largest equity whose reading was committed. */
  lemma PeakIsLargestReading(p: Policy, ds: seq<(Delivery, nat)>)
    ensures IsPeak(Readings(p, Fresh, ds), Run(p, Fresh, ds).db.anchors.peak)
  {
    RunMarks(p, Fresh, ds);
    PeakOfReadings(Readings(p, Fresh, ds));
  }

  /** Reading `i` is the first of its day, and the daily mark was taken from it. */
  ghost predicate MarkedBy(readings: seq<Reading>, i: nat, a: Anchors) {
    && i < |readings| && readings[i].equity.Some?
    && (forall j :: 0 <= j < i && readings[j].equity.Some? ==> readings[j].day != readings[i].day)
    && a.day == Some(readings[i].day) && a.dayEquity == readings[i].equity
  }

  ghost predicate DaysInOrder(readings: seq<Reading>) {
    forall i, j :: 0 <= i < j < |readings| ==> readings[i].day <= readings[j].day
  }

  ghost predicate LatestDay(readings: seq<Reading>, a: Anchors) {
    forall i :: 0 <= i < |readings| && readings[i].equity.Some? ==> a.day.Some? && readings[i].day <= a.day.value
  }

  lemma {:induction false} DayMarkIsLatestDay(readings: seq<Reading>)
    requires DaysInOrder(readings)
    ensures LatestDay(readings, RemarkAll(NoMarks, readings))
  {
    if readings != [] {
      var init := readings[..|readings| - 1];
      DayMarkIsLatestDay(init);
      assert forall i :: 0 <= i < |init| ==> readings[i] == init[i];
    }
  }

  lemma {:induction false} DayMarkOfReadings(readings: seq<Reading>)
    requires DaysInOrder(readings)
    ensures RemarkAll(NoMarks, readings).day.Some? ==> exists i :: MarkedBy(readings, i, RemarkAll(NoMarks, readings))
  {
    if readings != [] {
      var init, n := readings[..|readings| - 1], |readings| - 1;
      DayMarkOfReadings(init);
      DayMarkIsLatestDay(init);
      var before := RemarkAll(NoMarks, init);
      if readings[n].equity.None? || before.day == Some(readings[n].day) {
        if before.day.Some? {
          var i :| MarkedBy(init, i, before);
          assert MarkedBy(readings, i, RemarkAll(NoMarks, readings));
        }
      } else {
        assert forall j :: 0 <= j < n ==> readings[j] == init[j];
        assert MarkedBy(readings, n, RemarkAll(NoMarks, readings));
      }
    }
  }

  /** The executions of a run happen in the order of their days. */
  ghost predicate Chronological(ds: seq<(Delivery, nat)>) {
    forall i, j :: 0 <= i < j < |ds| && ds[i].0.Execute? && ds[j].0.Execute? ==>
      ds[i].0.answers.today <= ds[j].0.answers.today
  }

  lemma {:induction false} ReadingsInOrder(p: Policy, w: World, ds: seq<(Delivery, nat)>, day: int)
    requires Chronological(ds) && forall i :: 0 <= i < |ds| && ds[i].0.Execute? ==> day <= ds[i].0.answers.today
    ensures DaysInOrder(Readings(p, w, ds))
    ensures forall i :: 0 <= i < |Readings(p, w, ds)| ==> day <= Readings(p, w, ds)[i].day
    decreases |ds|
  {
    if ds != [] {
      var d := ds[0].0;
      ReadingsInOrder(p, Deliver(p, w, d, ds[0].1), ds[1..], if d.Execute? then d.answers.today else day);
    }
  }

  /** In every chronological run the stored daily mark is the first equity committed on the latest day
      with a committed reading. */
  lemma DayMarkOpensDay(p: Policy, ds: seq<(Delivery, nat)>)
    requires Chronological(ds)
    ensures Run(p, Fresh, ds).db.anchors.day.Some? ==> exists i :: MarkedBy(Readings(p, Fresh, ds), i, Run(p, Fresh, ds).db.anchors)
    ensures LatestDay(Readings(p, Fresh, ds), Run(p, Fresh, ds).db.anchors)
  {
    var lowest := LowestDay(ds);
    ReadingsInOrder(p, Fresh, ds, lowest);
    RunMarks(p, Fresh, ds);
    DayMarkOfReadings(Readings(p, Fresh, ds));
    DayMarkIsLatestDay(Readings(p, Fresh, ds));
  }

  lemma {:induction false} LowestDay(ds: seq<(Delivery, nat)>) returns (day: int)
    ensures forall i :: 0 <= i < |ds| && ds[i].0.Execute? ==> day <= ds[i].0.answers.today
  {
    day := 0;
    if ds != [] {
      day := LowestDay(ds[1..]);
      if ds[0].0.Execute? && ds[0].0.answers.today < day {
        day := ds[0].0.answers.today;
      }
    }
  }

  // ---------------------------------------------------------------- the handler

  /** A worker process handling deliveries of one connection.  It dies after `alive` effects. */
  class ExecutionHandler {
    var db: Store
    ghost var issued: seq<Issue>
    ghost var changes: seq<Change>
    var alive: nat

    ghost function Abs(): World
      reads this
    {
      World(db, issued, changes)
    }

    constructor (db: Store, alive: nat)
      ensures this.db == db && this.alive == alive && issued == [] && changes == []
    {
      this.db, this.alive, issued, changes := db, alive, [], [];
    }

    method Commit(id: nat, row: Intent, trades: seq<Trade>, anchors: Anchors) returns (ok: bool)
      requires id in db.intents
      modifies this
      ensures ok <==> old(alive) > 0
      ensures ok ==> Abs() == Perform(old(Abs()), Save(id, row, trades, anchors)) && alive == old(alive) - 1
      ensures !ok ==> Abs() == old(Abs()) && alive == 0
    {
      ok := alive > 0;
      if ok {
        alive := alive - 1;
        if db.intents[id].state != row.state {
          changes := changes + [Change(id, db.intents[id].state, row.state)];
        } else {
          assert changes + [] == changes;
        }
        db := Store(db.intents[id := row], trades, anchors);
      }
    }

    method Request(id: nat) returns (ok: bool)
      requires id in db.intents
      modifies this
      ensures ok <==> old(alive) > 0
      ensures ok ==> Abs() == Perform(old(Abs()), CallBroker(id)) && alive == old(alive) - 1
      ensures !ok ==> Abs() == old(Abs()) && alive == 0
    {
      ok := alive > 0;
      if ok {
        alive := alive - 1;
        issued := issued + [Issue(id, db.intents[id].state)];
      }
    }

    /** Commits the write-ahead state, calls the broker and commits what came of it. */
    method SubmitIntent(id: nat, anchors: Anchors, x: Answers)
      requires id in db.intents
      modifies this
      ensures Abs() == PerformAll(old(Abs()), Cut(SubmitEffects(old(db), id, old(db.intents[id]), anchors, x), old(alive)))
    {
      ghost var w, n, es := Abs(), alive, SubmitEffects(db, id, db.intents[id], anchors, x);
      CutSteps(w, es, n);
      var intent, store := db.intents[id], db;
      intent := intent.(state := Submitted, attempts := intent.attempts + 1);
      var ok := Commit(id, intent, store.trades, anchors);
      if !ok { return; }
      match EffectiveReply(store, intent.action, x) {
        case Accepted =>
          ok := Request(id);
          if !ok { return; }
          intent := intent.(state := Confirmed);
          var trades := SettleTrade(store, id, intent, x);
          ok := Commit(id, intent, trades, anchors);
        case Refused(sent, permanent) =>
          if sent {
            ok := Request(id);
            if !ok { return; }
          }
          intent := intent.(state := if permanent then Failed else Uncertain);
          ok := Commit(id, intent, store.trades, anchors);
      }
    }

    /** Records the accepted action on the trades. */
    method SettleTrade(store: Store, id: nat, intent: Intent, x: Answers) returns (trades: seq<Trade>)
      requires EffectiveReply(store, intent.action, x).Accepted?
      ensures trades == Settle(store, id, intent, x)
    {
      trades := store.trades;
      if Opens(intent.action) {
        var volume := NormalizeVolume(intent.volume, x.symbol.symbol);
        var lifecycle := if intent.action.PlacePending? then Pending else Open;
        trades := trades + [Trade(id, lifecycle, volume, volume)];
      } else {
        var m := Matched(store, x).value;
        var copied := trades[m];
        if intent.action.PartialClose? {
          copied := copied.(current := Max(0.0, copied.current - CloseVolume(copied, intent.fraction)));
        } else if intent.action.FullClose? {
          copied := copied.(lifecycle := Closed, current := 0.0);
        } else if intent.action.CancelPending? {
          copied := copied.(lifecycle := Cancelled, current := 0.0);
        }
        trades := trades[m := copied];
      }
    }

    /** One `intent.execute` delivery. */
    method HandleExecute(p: Policy, id: nat, x: Answers)
      modifies this
      ensures Abs() == PerformAll(old(Abs()), Cut(ExecuteEffects(p, old(db), id, x), old(alive)))
    {
      ghost var w, n, es := Abs(), alive, ExecuteEffects(p, db, id, x);
      CutSteps(w, es, n);
      if id !in db.intents { return; }
      var intent := db.intents[id];
      var ok;
      if !intent.state.Created? && !intent.state.Retryable? { return; }
      if !x.subscribed && Opens(intent.action) {
        ok := Commit(id, intent.(state := Failed), db.trades, db.anchors);
        return;
      }
      if !x.lockFree || x.targetUnavailable { return; }
      if x.halted {
        ok := Commit(id, intent.(state := Failed), db.trades, db.anchors);
        return;
      }
      if !x.brokerUp || x.symbol.Unresolvable? { return; }
      if Opens(intent.action) && x.symbol.Found? && !x.quality.QualityOk? {
        if x.quality.QualityCrash? { return; }
        intent := intent.(attempts := intent.attempts + 1);
        if x.quality.retryable && intent.attempts <= 1 {
          ok := Commit(id, intent.(state := Retryable), db.trades, db.anchors);
        } else {
          ok := Commit(id, intent.(state := Failed), db.trades, db.anchors);
        }
        return;
      }
      var anchors := db.anchors;
      if Opens(intent.action) && intent.volume > 0.0 {
        anchors := Remark(anchors, x.equity, x.today);
        if !WithinRisk(p, anchors, db.trades, intent.volume, x.equity, x.allowed, x.blocked) {
          ok := Commit(id, intent.(state := Failed), db.trades, anchors);
          return;
        }
      }
      SubmitIntent(id, anchors, x);
    }

    /** One `intent.reconcile` delivery. */
    method HandleReconcile(p: Policy, id: nat, connected: bool, reachable: bool, found: bool, now: int)
      modifies this
      ensures Abs() == PerformAll(old(Abs()), Cut(ReconcileEffects(p, old(db), id, connected, reachable, found, now), old(alive)))
    {
      ghost var w, n, es := Abs(), alive, ReconcileEffects(p, db, id, connected, reachable, found, now);
      CutSteps(w, es, n);
      if id !in db.intents { return; }
      var intent := db.intents[id];
      if !intent.state.Uncertain? && !intent.state.Reconciling? { return; }
      if !connected { return; }
      var ok := Commit(id, intent.(state := Reconciling), db.trades, db.anchors);
      if !ok || !reachable { return; }
      if found {
        intent := intent.(state := Confirmed);
      } else if Expired(p, intent, now) {
        intent := intent.(state := Failed);
      } else {
        intent := intent.(state := Uncertain);
      }
      ok := Commit(id, intent, db.trades, db.anchors);
    }

    /** One `emergency.execute` delivery: closes or cancels the trades in scope one by one. */
    method HandleEmergency(kind: Emergency, targets: seq<nat>)
      modifies this
      ensures Abs() == PerformAll(old(Abs()), Cut(EmergencyEffects(old(db), kind, targets), old(alive)))
      ensures db.intents == old(db.intents) && issued == old(issued)
    {
      var store, i := db, 0;
      assert targets[0..] == targets;
      while i < |targets|
        invariant 0 <= i <= |targets| && db.intents == old(db.intents) && issued == old(issued) && |db.trades| == |store.trades|
        invariant PerformAll(old(Abs()), Cut(EmergencyEffects(store, kind, targets), old(alive)))
               == PerformAll(Abs(), Cut(EmergencyEffects(store, kind, targets[i..]), alive))
      {
        var k := targets[i];
        assert targets[i..][1..] == targets[i + 1..];
        if k < |store.trades| && Active(store.trades[k]) {
          ghost var e := SaveTrade(k, EmergencyLifecycle(kind, store.trades[k].lifecycle));
          CutFirst(Abs(), e, EmergencyEffects(store, kind, targets[i + 1..]), alive);
          if alive == 0 { return; }
          alive := alive - 1;
          var lifecycle := store.trades[k].lifecycle;
          if (kind.ClosePositions? || kind.Both?) && lifecycle.Open? {
            lifecycle := Closed;
          }
          if (kind.CancelPendingOrders? || kind.Both?) && lifecycle.Pending? {
            lifecycle := Cancelled;
          }
          db := db.(trades := db.trades[k := db.trades[k].(lifecycle := lifecycle)]);
        }
        i := i + 1;
      }
      CutSteps(Abs(), [], alive);
    }
  }

  lemma CutFirst(w: World, e: Effect, rest: seq<Effect>, n: nat)
    ensures n == 0 ==> PerformAll(w, Cut([e] + rest, n)) == w
    ensures n > 0 ==> PerformAll(w, Cut([e] + rest, n)) == PerformAll(Perform(w, e), Cut(rest, n - 1))
  {
    if n > 0 {
      assert Cut([e] + rest, n) == [e] + Cut(rest, n - 1);
      assert ([e] + Cut(rest, n - 1))[1..] == Cut(rest, n - 1);
    }
  }

  /** What a cut-short list of up to three effects does. */
  lemma CutSteps(w: World, es: seq<Effect>, n: nat)
    ensures n == 0 ==> PerformAll(w, Cut(es, n)) == w
    ensures es == [] ==> PerformAll(w, Cut(es, n)) == w
    ensures |es| == 1 && n >= 1 ==> PerformAll(w, Cut(es, n)) == Perform(w, es[0])
    ensures |es| >= 2 && n == 1 ==> PerformAll(w, Cut(es, n)) == Perform(w, es[0])
    ensures |es| == 2 && n >= 2 ==> PerformAll(w, Cut(es, n)) == Perform(Perform(w, es[0]), es[1])
    ensures |es| >= 3 && n == 2 ==> PerformAll(w, Cut(es, n)) == Perform(Perform(w, es[0]), es[1])
    ensures |es| == 3 && n >= 3 ==> PerformAll(w, Cut(es, n)) == Perform(Perform(Perform(w, es[0]), es[1]), es[2])
  {
    var c := Cut(es, n);
    if |c| == 1 {
      assert c == [es[0]];
      PerformOne(w, es[0]);
    } else if |c| == 2 {
      assert c == [es[0], es[1]];
      PerformTwo(w, es[0], es[1]);
    } else if |c| == 3 {
      assert c == [es[0], es[1], es[2]];
      PerformThree(w, es[0], es[1], es[2]);
    }
  }
}
