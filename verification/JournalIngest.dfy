/**
 Reconciling the stored closed trades of an account with the history that the broker reports.

 An authoritative history first deletes the account's trades in its window whose tickets it does not
 list, then upserts the listed trades in statements of 500 rows.  `None` as the result of an
 operation means that it raises, and the caller rolls the transaction back.
 */
module JournalIngest {
  import opened Prelude

  type Account = nat
  type Ticket = string

  /** Optional columns, absent where null. */
  datatype Field = Sl | Tp | MagicNumber | PositionId | TradeSource | Mfe | Mae
  type Enrichment = map<Field, string>

  /** Times in microseconds, money and prices scaled to integers. */
  datatype Core = Core(
    symbol: string, sell: bool, openPrice: int, closePrice: int, volume: int,
    profit: int, commission: int, swap: int, netProfit: int, durationSeconds: nat, openedAt: int, closedAt: int)

  datatype Trade = Trade(id: nat, core: Core, enrichment: Enrichment)
  datatype Row = Row(id: nat, ticket: Ticket, core: Core, enrichment: Enrichment)

  type Table = map<(Account, Ticket), Trade>

  /** A reported deal: absent times are missing or unparsable, and `readable` tells whether its numbers parse. */
  datatype Deal = Deal(
    ticket: string, openedAt: Option<int>, closedAt: Option<int>, readable: bool, symbol: string, sell: bool,
    openPrice: int, closePrice: int, volume: int, profit: int, commission: int, swap: int, enrichment: Enrichment)

  datatype Window = Window(from: Option<int>, until: Option<int>)

  const Chunk := 500

  // ---------------------------------------------------------------- deals to rows

  predicate Accepted(d: Deal) {
    Strip(d.ticket) != "" && d.closedAt.Some? && d.openedAt.Some?
  }

  function CoreOf(d: Deal): Core
    requires Accepted(d)
  {
    var start, closed := d.openedAt.value, d.closedAt.value;
    Core(if Strip(d.symbol) == "" then "UNKNOWN" else Strip(d.symbol), d.sell,
         if d.openPrice == 0 then d.closePrice else d.openPrice, d.closePrice, d.volume,
         d.profit, d.commission, d.swap, d.profit + d.commission + d.swap,
         if closed <= start then 0 else (closed - start) / 1_000_000, start, closed)
  }

  /** The rows of the accepted deals in order; `ids` supplies the fresh identifiers. */
  function RowsOf(deals: seq<Deal>, ids: nat -> nat): seq<Row> {
    if deals == [] then []
    else
      var d := deals[|deals| - 1];
      RowsOf(deals[..|deals| - 1], ids) +
      if Accepted(d) then [Row(ids(|deals| - 1), Strip(d.ticket), CoreOf(d), d.enrichment)] else []
  }

  predicate Readable(deals: seq<Deal>) {
    forall d :: d in deals && Accepted(d) ==> d.readable
  }

  function ValidTickets(deals: seq<Deal>): set<Ticket> {
    set d | d in deals && Strip(d.ticket) != "" :: Strip(d.ticket)
  }

  // ---------------------------------------------------------------- the statements

  function UpsertOne(table: Table, a: Account, row: Row): Table {
    var key := (a, row.ticket);
    if key in table
    then table[key := table[key].(core := row.core, enrichment := table[key].enrichment + row.enrichment)]
    else table[key := Trade(row.id, row.core, row.enrichment)]
  }

  function UpsertAll(table: Table, a: Account, rows: seq<Row>): Table {
    if rows == [] then table
    else UpsertOne(UpsertAll(table, a, rows[..|rows| - 1]), a, rows[|rows| - 1])
  }

  /** How many rows of the series find no stored trade. */
  function Inserted(table: Table, a: Account, rows: seq<Row>): nat {
    if rows == [] then 0
    else Inserted(table, a, rows[..|rows| - 1])
         + if (a, rows[|rows| - 1].ticket) in UpsertAll(table, a, rows[..|rows| - 1]) then 0 else 1
  }

  /** The statement refuses to touch a stored trade twice. */
  predicate OncePerChunk(rows: seq<Row>) {
    forall i, j :: 0 <= i < j < |rows| && i / Chunk == j / Chunk ==> rows[i].ticket != rows[j].ticket
  }

  predicate InWindow(w: Window, at: int) {
    (w.from.Some? ==> w.from.value <= at) && (w.until.Some? ==> at < w.until.value)
  }

  predicate Doomed(table: Table, a: Account, w: Window, valid: set<Ticket>, key: (Account, Ticket)) {
    key in table && key.0 == a && InWindow(w, table[key].core.closedAt) && key.1 !in valid
  }

  function DoomedKeys(table: Table, a: Account, w: Window, valid: set<Ticket>): set<(Account, Ticket)> {
    set key | key in table && Doomed(table, a, w, valid, key)
  }

  function WithoutDoomed(table: Table, a: Account, w: Window, valid: set<Ticket>): Table {
    table - DoomedKeys(table, a, w, valid)
  }

  datatype Result = Result(table: Table, inserted: nat, updated: nat, deleted: nat)

  predicate Cleans(deals: seq<Deal>, authoritative: bool) {
    authoritative && ValidTickets(deals) != {}
  }

  function Cleaned(table: Table, a: Account, deals: seq<Deal>, w: Window, authoritative: bool): Table {
    if Cleans(deals, authoritative) then WithoutDoomed(table, a, w, ValidTickets(deals)) else table
  }

  function Ingest(table: Table, a: Account, deals: seq<Deal>, ids: nat -> nat, w: Window, authoritative: bool): Option<Result> {
    var rows := RowsOf(deals, ids);
    if !Readable(deals) || !OncePerChunk(rows) then None
    else
      var kept := Cleaned(table, a, deals, w, authoritative);
      var inserted := Inserted(kept, a, rows);
      InsertedBound(kept, a, rows);
      Some(Result(UpsertAll(kept, a, rows), inserted, |rows| - inserted,
                  if Cleans(deals, authoritative) then |DoomedKeys(table, a, w, ValidTickets(deals))| else 0))
  }

  lemma InsertedBound(table: Table, a: Account, rows: seq<Row>)
    ensures Inserted(table, a, rows) <= |rows|
  {
  }

  // ---------------------------------------------------------------- what a series of upserts does to one key

  function LastRow(rows: seq<Row>, ticket: Ticket): Option<Row> {
    if rows == [] then None
    else if rows[|rows| - 1].ticket == ticket then Some(rows[|rows| - 1])
    else LastRow(rows[..|rows| - 1], ticket)
  }

  /** The enrichment that the rows of a ticket supply together, later ones winning. */
  function Supplied(rows: seq<Row>, ticket: Ticket): Enrichment {
    if rows == [] then map[]
    else
      var before := Supplied(rows[..|rows| - 1], ticket);
      if rows[|rows| - 1].ticket == ticket then before + rows[|rows| - 1].enrichment else before
  }

  function StoredEnrichment(table: Table, key: (Account, Ticket)): Enrichment {
    if key in table then table[key].enrichment else map[]
  }

  lemma {:induction false} LastRowFinds(rows: seq<Row>, ticket: Ticket)
    ensures LastRow(rows, ticket).Some? ==> LastRow(rows, ticket).value in rows && LastRow(rows, ticket).value.ticket == ticket
    ensures LastRow(rows, ticket).None? <==> forall r :: r in rows ==> r.ticket != ticket
    ensures LastRow(rows, ticket).None? ==> Supplied(rows, ticket) == map[]
  {
    if rows != [] {
      LastRowFinds(rows[..|rows| - 1], ticket);
      assert rows == rows[..|rows| - 1] + [rows[|rows| - 1]];
    }
  }

  /** Unlisted keys are untouched; a listed one holds the last row's values, its enrichment completed
      by what the rows supply, under the identifier it had. */
  lemma {:induction false} UpsertAllAt(table: Table, a: Account, rows: seq<Row>, key: (Account, Ticket))
    ensures key.0 != a || LastRow(rows, key.1).None? ==>
              (key in UpsertAll(table, a, rows) <==> key in table) &&
              (key in table ==> UpsertAll(table, a, rows)[key] == table[key])
    ensures key.0 == a && LastRow(rows, key.1).Some? ==>
              key in UpsertAll(table, a, rows) &&
              UpsertAll(table, a, rows)[key].core == LastRow(rows, key.1).value.core &&
              UpsertAll(table, a, rows)[key].enrichment == StoredEnrichment(table, key) + Supplied(rows, key.1) &&
              (key in table ==> UpsertAll(table, a, rows)[key].id == table[key].id)
  {
    if rows != [] {
      var before, r := rows[..|rows| - 1], rows[|rows| - 1];
      UpsertAllAt(table, a, before, key);
      LastRowFinds(before, key.1);
      if key == (a, r.ticket) {
        var t, e := UpsertAll(table, a, before), StoredEnrichment(table, key);
        assert StoredEnrichment(t, key) == e + Supplied(before, key.1);
        assert (e + Supplied(before, key.1)) + r.enrichment == e + (Supplied(before, key.1) + r.enrichment);
      }
    }
  }

  /** Each inserted row adds one trade, each updating row none. */
  lemma {:induction false} UpsertAllSize(table: Table, a: Account, rows: seq<Row>)
    ensures |UpsertAll(table, a, rows)| == |table| + Inserted(table, a, rows)
  {
    if rows != [] {
      var before, r := rows[..|rows| - 1], rows[|rows| - 1];
      UpsertAllSize(table, a, before);
      UpsertOneSize(UpsertAll(table, a, before), a, r);
    }
  }

  lemma UpsertOneSize(t: Table, a: Account, r: Row)
    ensures |UpsertOne(t, a, r)| == |t| + if (a, r.ticket) in t then 0 else 1
  {
    var n := UpsertOne(t, a, r);
    assert n.Keys == t.Keys + {(a, r.ticket)};
    assert |n| == |n.Keys| && |t| == |t.Keys|;
  }

  /** Rows whose trades are all stored insert nothing. */
  lemma {:induction false} NothingInserted(table: Table, a: Account, rows: seq<Row>)
    requires forall r :: r in rows ==> (a, r.ticket) in table
    ensures Inserted(table, a, rows) == 0
  {
    if rows != [] {
      var before, r := rows[..|rows| - 1], rows[|rows| - 1];
      assert rows == before + [r];
      NothingInserted(table, a, before);
      UpsertAllAt(table, a, before, (a, r.ticket));
    }
  }

  // ---------------------------------------------------------------- deals and tickets

  lemma {:induction false} RowTickets(deals: seq<Deal>, ids: nat -> nat)
    ensures forall r :: r in RowsOf(deals, ids) ==> r.ticket in ValidTickets(deals)
  {
    if deals != [] {
      var before, d := deals[..|deals| - 1], deals[|deals| - 1];
      assert deals == before + [d];
      RowTickets(before, ids);
      forall r | r in RowsOf(deals, ids)
        ensures r.ticket in ValidTickets(deals)
      {
        if r !in RowsOf(before, ids) {
          assert r.ticket == Strip(d.ticket) && d in deals;
        }
      }
    }
  }

  /** Two readings of the same deals differ in their identifiers only. */
  lemma {:induction false} RowsAgree(deals: seq<Deal>, ids: nat -> nat, jds: nat -> nat)
    ensures |RowsOf(deals, ids)| == |RowsOf(deals, jds)|
    ensures forall i :: 0 <= i < |RowsOf(deals, ids)| ==> RowsOf(deals, ids)[i].(id := 0) == RowsOf(deals, jds)[i].(id := 0)
  {
    if deals != [] {
      RowsAgree(deals[..|deals| - 1], ids, jds);
    }
  }

  lemma {:induction false} AgreeingRows(rows: seq<Row>, others: seq<Row>, ticket: Ticket)
    requires |rows| == |others| && forall i :: 0 <= i < |rows| ==> rows[i].(id := 0) == others[i].(id := 0)
    ensures LastRow(rows, ticket).Some? == LastRow(others, ticket).Some?
    ensures LastRow(rows, ticket).Some? ==> LastRow(rows, ticket).value.core == LastRow(others, ticket).value.core
    ensures Supplied(rows, ticket) == Supplied(others, ticket)
  {
    if rows != [] {
      var n := |rows| - 1;
      AgreeingRows(rows[..n], others[..n], ticket);
      assert rows[n].(id := 0) == others[n].(id := 0);
      assert rows[n].ticket == others[n].ticket && rows[n].core == others[n].core && rows[n].enrichment == others[n].enrichment;
    }
  }

  // ---------------------------------------------------------------- the results

  lemma CleanedAt(table: Table, a: Account, deals: seq<Deal>, w: Window, authoritative: bool, key: (Account, Ticket))
    ensures key in Cleaned(table, a, deals, w, authoritative) <==>
            key in table && !(Cleans(deals, authoritative) && Doomed(table, a, w, ValidTickets(deals), key))
    ensures key in Cleaned(table, a, deals, w, authoritative) ==> Cleaned(table, a, deals, w, authoritative)[key] == table[key]
  {
  }

  /** After an authoritative ingest with a valid ticket, the window holds listed tickets only. */
  lemma OnlyListedInWindow(table: Table, a: Account, deals: seq<Deal>, ids: nat -> nat, w: Window, r: Result, ticket: Ticket)
    requires Ingest(table, a, deals, ids, w, true) == Some(r) && ValidTickets(deals) != {}
    requires (a, ticket) in r.table
    requires w.from.Some? ==> w.from.value <= r.table[(a, ticket)].core.closedAt
    requires w.until.Some? ==> r.table[(a, ticket)].core.closedAt < w.until.value
    ensures exists d :: d in deals && Strip(d.ticket) == ticket && ticket != ""
  {
    var rows, kept := RowsOf(deals, ids), Cleaned(table, a, deals, w, true);
    UpsertAllAt(kept, a, rows, (a, ticket));
    CleanedAt(table, a, deals, w, true, (a, ticket));
    LastRowFinds(rows, ticket);
    RowTickets(deals, ids);
  }

  /** Before the window or not before its end. */
  ghost predicate Outside(w: Window, at: int) {
    (w.from.Some? && at < w.from.value) || (w.until.Some? && at >= w.until.value)
  }

  /** Other accounts, and unlisted trades outside the window, are untouched; so is everything unlisted
      when nothing is cleaned. */
  lemma RestUntouched(table: Table, a: Account, deals: seq<Deal>, ids: nat -> nat, w: Window, authoritative: bool, r: Result,
                      key: (Account, Ticket))
    requires Ingest(table, a, deals, ids, w, authoritative) == Some(r)
    requires key.0 != a
          || (key.1 !in ValidTickets(deals) && (key in table ==> Outside(w, table[key].core.closedAt)))
          || (key.1 !in ValidTickets(deals) && !Cleans(deals, authoritative))
    ensures key in r.table <==> key in table
    ensures key in table ==> r.table[key] == table[key]
  {
    var rows, kept := RowsOf(deals, ids), Cleaned(table, a, deals, w, authoritative);
    UpsertAllAt(kept, a, rows, key);
    CleanedAt(table, a, deals, w, authoritative, key);
    LastRowFinds(rows, key.1);
    RowTickets(deals, ids);
  }

  /** A listed trade is stored as its last row reports it, keeps its identifier and keeps every
      enrichment value that no row of its ticket replaces. */
  lemma ListedStored(table: Table, a: Account, deals: seq<Deal>, ids: nat -> nat, w: Window, authoritative: bool, r: Result,
                     ticket: Ticket)
    requires Ingest(table, a, deals, ids, w, authoritative) == Some(r)
    requires LastRow(RowsOf(deals, ids), ticket).Some?
    ensures (a, ticket) in r.table && r.table[(a, ticket)].core == LastRow(RowsOf(deals, ids), ticket).value.core
    ensures (a, ticket) in table ==> r.table[(a, ticket)].id == table[(a, ticket)].id
    ensures (a, ticket) in table ==>
              forall f :: f in table[(a, ticket)].enrichment ==>
                f in r.table[(a, ticket)].enrichment &&
                (f !in Supplied(RowsOf(deals, ids), ticket) ==>
                   r.table[(a, ticket)].enrichment[f] == table[(a, ticket)].enrichment[f])
    ensures forall f :: f in Supplied(RowsOf(deals, ids), ticket) ==>
              f in r.table[(a, ticket)].enrichment &&
              r.table[(a, ticket)].enrichment[f] == Supplied(RowsOf(deals, ids), ticket)[f]
  {
    var rows, kept := RowsOf(deals, ids), Cleaned(table, a, deals, w, authoritative);
    UpsertAllAt(kept, a, rows, (a, ticket));
    CleanedAt(table, a, deals, w, authoritative, (a, ticket));
    LastRowFinds(rows, ticket);
    RowTickets(deals, ids);
  }

  /** Size after = size before - deleted + inserted, and every row is counted once. */
  lemma Conservation(table: Table, a: Account, deals: seq<Deal>, ids: nat -> nat, w: Window, authoritative: bool, r: Result)
    requires Ingest(table, a, deals, ids, w, authoritative) == Some(r)
    ensures |r.table| == |table| - r.deleted + r.inserted
    ensures r.inserted + r.updated == |RowsOf(deals, ids)|
  {
    var kept := Cleaned(table, a, deals, w, authoritative);
    UpsertAllSize(kept, a, RowsOf(deals, ids));
    if Cleans(deals, authoritative) {
      DeletedSize(table, DoomedKeys(table, a, w, ValidTickets(deals)));
    }
  }

  lemma DeletedSize(table: Table, gone: set<(Account, Ticket)>)
    requires gone <= table.Keys
    ensures |table - gone| == |table| - |gone|
  {
    assert (table - gone).Keys == table.Keys - gone;
    assert |table.Keys - gone| == |table.Keys| - |gone|;
  }

  /** Upserting the same content again changes nothing. */
  lemma UpsertAgain(table: Table, a: Account, rows: seq<Row>, others: seq<Row>)
    requires |rows| == |others| && forall i :: 0 <= i < |rows| ==> rows[i].(id := 0) == others[i].(id := 0)
    ensures UpsertAll(UpsertAll(table, a, rows), a, others) == UpsertAll(table, a, rows)
  {
    var once := UpsertAll(table, a, rows);
    var twice := UpsertAll(once, a, others);
    forall key
      ensures key in twice <==> key in once
      ensures key in once ==> twice[key] == once[key]
    {
      UpsertAllAt(table, a, rows, key);
      UpsertAllAt(once, a, others, key);
      AgreeingRows(rows, others, key.1);
      if key.0 == a && LastRow(rows, key.1).Some? {
        OverrideTwice(StoredEnrichment(table, key), Supplied(rows, key.1));
      }
    }
  }

  lemma OverrideTwice(e: Enrichment, s: Enrichment)
    ensures (e + s) + s == e + s
  {
  }

  /** After the upserts every row's trade is stored. */
  lemma AllStored(kept: Table, a: Account, rows: seq<Row>, others: seq<Row>)
    requires |rows| == |others| && forall i :: 0 <= i < |rows| ==> rows[i].(id := 0) == others[i].(id := 0)
    ensures forall o :: o in others ==> (a, o.ticket) in UpsertAll(kept, a, rows)
  {
    forall o | o in others
      ensures (a, o.ticket) in UpsertAll(kept, a, rows)
    {
      var i :| 0 <= i < |others| && others[i] == o;
      assert rows[i].(id := 0) == others[i].(id := 0);
      assert rows[i] in rows;
      LastRowFinds(rows, o.ticket);
      UpsertAllAt(kept, a, rows, (a, o.ticket));
    }
  }

  /** A second ingest of the same history inserts and deletes nothing and leaves the table as it is. */
  lemma IngestIsIdempotent(table: Table, a: Account, deals: seq<Deal>, ids: nat -> nat, jds: nat -> nat, w: Window,
                           authoritative: bool, r: Result)
    requires Ingest(table, a, deals, ids, w, authoritative) == Some(r)
    ensures Ingest(r.table, a, deals, jds, w, authoritative) == Some(Result(r.table, 0, |RowsOf(deals, ids)|, 0))
  {
    var rows, others := RowsOf(deals, ids), RowsOf(deals, jds);
    var kept := Cleaned(table, a, deals, w, authoritative);
    NothingDoomed(table, a, deals, ids, w, authoritative, r);
    RowsAgree(deals, ids, jds);
    SameTickets(rows, others);
    UpsertAgain(kept, a, rows, others);
    AllStored(kept, a, rows, others);
    NothingInserted(r.table, a, others);
    NothingToDo(r.table, a, deals, jds, w, authoritative);
  }

  lemma NothingToDo(table: Table, a: Account, deals: seq<Deal>, ids: nat -> nat, w: Window, authoritative: bool)
    requires Readable(deals) && OncePerChunk(RowsOf(deals, ids))
    requires Cleaned(table, a, deals, w, authoritative) == table
    requires Cleans(deals, authoritative) ==> DoomedKeys(table, a, w, ValidTickets(deals)) == {}
    requires UpsertAll(table, a, RowsOf(deals, ids)) == table && Inserted(table, a, RowsOf(deals, ids)) == 0
    ensures Ingest(table, a, deals, ids, w, authoritative) == Some(Result(table, 0, |RowsOf(deals, ids)|, 0))
  {
  }

  lemma SameTickets(rows: seq<Row>, others: seq<Row>)
    requires |rows| == |others| && forall i :: 0 <= i < |rows| ==> rows[i].(id := 0) == others[i].(id := 0)
    ensures OncePerChunk(rows) == OncePerChunk(others)
  {
    forall i | 0 <= i < |rows|
      ensures rows[i].ticket == others[i].ticket
    {
      assert rows[i].(id := 0) == others[i].(id := 0);
    }
  }

  lemma NothingDoomed(table: Table, a: Account, deals: seq<Deal>, ids: nat -> nat, w: Window, authoritative: bool, r: Result)
    requires Ingest(table, a, deals, ids, w, authoritative) == Some(r)
    ensures Cleaned(r.table, a, deals, w, authoritative) == r.table
    ensures Cleans(deals, authoritative) ==> DoomedKeys(r.table, a, w, ValidTickets(deals)) == {}
  {
    if Cleans(deals, authoritative) {
      forall key | key in r.table
        ensures !Doomed(r.table, a, w, ValidTickets(deals), key)
      {
        if key.0 == a && InWindow(w, r.table[key].core.closedAt) {
          OnlyListedInWindow(table, a, deals, ids, w, r, key.1);
        }
      }
    }
  }

  /** The deal tells when it was opened and when it was closed. */
  ghost predicate Complete(d: Deal) {
    d.openedAt.Some? && d.closedAt.Some?
  }

  /** Deal `k` is the last complete one of its ticket. */
  ghost predicate LastReport(deals: seq<Deal>, k: nat, ticket: Ticket) {
    && k < |deals| && ticket != "" && Complete(deals[k]) && Strip(deals[k].ticket) == ticket
    && forall j :: k < j < |deals| ==> !(Complete(deals[j]) && Strip(deals[j].ticket) == ticket)
  }

  lemma {:induction false} LastRowOfReport(deals: seq<Deal>, ids: nat -> nat, k: nat, ticket: Ticket)
    requires LastReport(deals, k, ticket)
    ensures LastRow(RowsOf(deals, ids), ticket).Some?
    ensures LastRow(RowsOf(deals, ids), ticket).value.core == CoreOf(deals[k])
    decreases |deals|
  {
    var n := |deals| - 1;
    var before := deals[..n];
    if Accepted(deals[n]) {
      var row := Row(ids(n), Strip(deals[n].ticket), CoreOf(deals[n]), deals[n].enrichment);
      assert RowsOf(deals, ids) == RowsOf(before, ids) + [row];
      DropAppended(RowsOf(before, ids), row);
    } else {
      assert RowsOf(deals, ids) == RowsOf(before, ids);
    }
    if k < n {
      assert before[k] == deals[k] && forall j :: k < j < |before| ==> before[j] == deals[j];
      LastRowOfReport(before, ids, k, ticket);
    }
  }

  /** After an ingest the trade of a ticket stands as its last complete deal reports it: net profit is profit,
      commission and swap together, a missing opening price is the closing price, the duration counts whole
      seconds and is never negative, and a missing symbol is unknown. */
  lemma StoredAsReported(table: Table, a: Account, deals: seq<Deal>, ids: nat -> nat, w: Window, authoritative: bool, r: Result,
                         k: nat, ticket: Ticket)
    requires Ingest(table, a, deals, ids, w, authoritative) == Some(r) && LastReport(deals, k, ticket)
    ensures (a, ticket) in r.table
    ensures var c, d := r.table[(a, ticket)].core, deals[k];
            && Some(c.openedAt) == d.openedAt && Some(c.closedAt) == d.closedAt
            && c.profit == d.profit && c.commission == d.commission && c.swap == d.swap
            && c.netProfit == d.profit + d.commission + d.swap
            && c.closePrice == d.closePrice && (d.openPrice != 0 ==> c.openPrice == d.openPrice)
            && (d.openPrice == 0 ==> c.openPrice == d.closePrice)
            && c.volume == d.volume && c.sell == d.sell
            && (Strip(d.symbol) != "" ==> c.symbol == Strip(d.symbol)) && (Strip(d.symbol) == "" ==> c.symbol == "UNKNOWN")
            && (c.closedAt >= c.openedAt ==>
                  c.durationSeconds * 1_000_000 <= c.closedAt - c.openedAt < (c.durationSeconds + 1) * 1_000_000)
            && (c.closedAt < c.openedAt ==> c.durationSeconds == 0)
  {
    LastRowOfReport(deals, ids, k, ticket);
    ListedStored(table, a, deals, ids, w, authoritative, r, ticket);
  }

  // ---------------------------------------------------------------- the stored table

  lemma RowsStep(deals: seq<Deal>, ids: nat -> nat, k: nat)
    requires k < |deals|
    ensures RowsOf(deals[..k + 1], ids) == RowsOf(deals[..k], ids) +
            if Accepted(deals[k]) then [Row(ids(k), Strip(deals[k].ticket), CoreOf(deals[k]), deals[k].enrichment)] else []
    ensures Readable(deals[..k + 1]) <==> Readable(deals[..k]) && (Accepted(deals[k]) ==> deals[k].readable)
  {
    assert deals[..k + 1] == deals[..k] + [deals[k]];
    assert deals[..k + 1][..k] == deals[..k];
  }

  /** The loop over the reported deals, with the numbers of those it skips. */
  method CollectRows(deals: seq<Deal>, ids: nat -> nat)
    returns (rows: Option<seq<Row>>, missingTicket: nat, missingClose: nat, missingOpen: nat)
    ensures rows.Some? <==> Readable(deals)
    ensures rows.Some? ==> rows.value == RowsOf(deals, ids)
    ensures rows.Some? ==> |rows.value| + missingTicket + missingClose + missingOpen == |deals|
  {
    var collected: seq<Row> := [];
    missingTicket, missingClose, missingOpen := 0, 0, 0;
    for k := 0 to |deals|
      invariant Readable(deals[..k])
      invariant collected == RowsOf(deals[..k], ids)
      invariant |collected| + missingTicket + missingClose + missingOpen == k
    {
      var d := deals[k];
      RowsStep(deals, ids, k);
      if Strip(d.ticket) == "" {
        missingTicket := missingTicket + 1;
      } else if d.closedAt.None? {
        missingClose := missingClose + 1;
      } else if d.openedAt.None? {
        missingOpen := missingOpen + 1;
      } else if !d.readable {
        return None, missingTicket, missingClose, missingOpen;
      } else {
        collected := collected + [Row(ids(k), Strip(d.ticket), CoreOf(d), d.enrichment)];
      }
    }
    assert deals[..|deals|] == deals;
    rows := Some(collected);
  }

  ghost predicate DistinctTickets(rows: seq<Row>) {
    forall i, j :: 0 <= i < j < |rows| ==> rows[i].ticket != rows[j].ticket
  }

  lemma {:induction false} UpsertAllConcat(table: Table, a: Account, p: seq<Row>, q: seq<Row>)
    ensures UpsertAll(table, a, p + q) == UpsertAll(UpsertAll(table, a, p), a, q)
    ensures Inserted(table, a, p + q) == Inserted(table, a, p) + Inserted(UpsertAll(table, a, p), a, q)
    decreases |q|
  {
    if q == [] {
      assert p + q == p;
    } else {
      UpsertAllConcat(table, a, p, q[..|q| - 1]);
      assert (p + q)[..|p + q| - 1] == p + q[..|q| - 1];
    }
  }

  ghost predicate Upserted(table: Table, a: Account, rows: seq<Row>, now: Table, inserted: nat) {
    OncePerChunk(rows) && now == UpsertAll(table, a, rows) && inserted == Inserted(table, a, rows)
  }

  /** A chunk begins here. */
  ghost predicate Aligned(i: int) {
    i % Chunk == 0
  }

  lemma NextAligned(i: int)
    requires Aligned(i)
    ensures Aligned(i + Chunk)
  {
  }

  lemma ChunkStep(table: Table, a: Account, rows: seq<Row>, i: nat, end: nat)
    requires i <= end <= |rows|
    ensures UpsertAll(table, a, rows[..end]) == UpsertAll(UpsertAll(table, a, rows[..i]), a, rows[i..end])
    ensures Inserted(table, a, rows[..end]) == Inserted(table, a, rows[..i]) + Inserted(UpsertAll(table, a, rows[..i]), a, rows[i..end])
  {
    UpsertAllConcat(table, a, rows[..i], rows[i..end]);
    assert rows[..end] == rows[..i] + rows[i..end];
  }

  class TradeTable {
    var trades: Table

    constructor ()
      ensures trades == map[]
    {
      trades := map[];
    }

    /** One statement: refused as a whole when two of its rows carry the same ticket. */
    method UpsertChunk(a: Account, chunk: seq<Row>) returns (ok: bool, inserted: nat)
      modifies this
      ensures ok == DistinctTickets(chunk)
      ensures ok ==> trades == UpsertAll(old(trades), a, chunk) && inserted == Inserted(old(trades), a, chunk)
      ensures ok ==> inserted <= |chunk|
    {
      inserted := 0;
      var seen: set<Ticket> := {};
      for k := 0 to |chunk|
        invariant seen == set i | 0 <= i < k :: chunk[i].ticket
        invariant DistinctTickets(chunk[..k])
        invariant trades == UpsertAll(old(trades), a, chunk[..k])
        invariant inserted == Inserted(old(trades), a, chunk[..k]) <= k
      {
        var row := chunk[k];
        if row.ticket in seen {
          return false, inserted;
        }
        seen := seen + {row.ticket};
        assert chunk[..k + 1][..k] == chunk[..k];
        if (a, row.ticket) !in trades {
          inserted := inserted + 1;
        }
        trades := UpsertOne(trades, a, row);
      }
      assert chunk[..|chunk|] == chunk;
      ok := true;
    }

    /** The rows in chunks of 500; false when a statement is refused. */
    method BulkUpsert(a: Account, rows: seq<Row>) returns (ok: bool, inserted: nat, updated: nat)
      modifies this
      ensures ok <==> OncePerChunk(rows)
      ensures ok <==> forall i, j :: 0 <= i < j < |rows| && i / 500 == j / 500 ==> rows[i].ticket != rows[j].ticket
      ensures ok ==> trades == UpsertAll(old(trades), a, rows)
      ensures ok ==> inserted == Inserted(old(trades), a, rows) && inserted + updated == |rows|
    {
      ok, inserted, updated := true, 0, 0;
      var i := 0;
      while i < |rows|
        invariant 0 <= i <= |rows| && (Aligned(i) || i == |rows|)
        invariant Upserted(old(trades), a, rows[..i], trades, inserted)
        invariant ok && inserted + updated == i
        decreases |rows| - i
      {
        var end := if i + Chunk <= |rows| then i + Chunk else |rows|;
        var chunk := rows[i..end];
        ChunkStep(old(trades), a, rows, i, end);
        ChunkOnce(rows, i, end);
        NextAligned(i);
        var more;
        ok, more := UpsertChunk(a, chunk);
        if !ok {
          assert !OncePerChunk(rows);
          return;
        }
        inserted, updated := inserted + more, updated + (|chunk| - more);
        i := end;
      }
      assert rows[..|rows|] == rows;
    }

    method DeleteOutside(a: Account, w: Window, valid: set<Ticket>) returns (deleted: nat)
      modifies this
      ensures trades == WithoutDoomed(old(trades), a, w, valid)
      ensures deleted == |DoomedKeys(old(trades), a, w, valid)|
    {
      var gone := DoomedKeys(trades, a, w, valid);
      deleted := |gone|;
      trades := trades - gone;
    }

    /** The whole reconciliation in one transaction, rolled back when it raises. */
    method IngestHistory(a: Account, deals: seq<Deal>, ids: nat -> nat, w: Window, authoritative: bool)
      returns (ok: bool, inserted: nat, updated: nat, deleted: nat)
      modifies this
      ensures ok == Ingest(old(trades), a, deals, ids, w, authoritative).Some?
      ensures ok ==> Ingest(old(trades), a, deals, ids, w, authoritative) == Some(Result(trades, inserted, updated, deleted))
      ensures !ok ==> trades == old(trades)
    {
      inserted, updated, deleted := 0, 0, 0;
      var before := trades;
      var valid := ValidTickets(deals);
      if authoritative && valid != {} {
        deleted := DeleteOutside(a, w, valid);
      }
      var rows, s0, s1, s2 := CollectRows(deals, ids);
      ok := rows.Some?;
      if ok {
        ok, inserted, updated := BulkUpsert(a, rows.value);
      }
      if !ok {
        trades := before;
      }
    }
  }

  /** A chunk and what precedes it are each free of repeats in a statement exactly when together they are. */
  lemma ChunkOnce(rows: seq<Row>, i: nat, end: nat)
    requires i < end <= |rows| && Aligned(i) && end <= i + Chunk
    ensures OncePerChunk(rows[..end]) <==> OncePerChunk(rows[..i]) && DistinctTickets(rows[i..end])
    ensures OncePerChunk(rows) ==> OncePerChunk(rows[..end])
  {
    SameChunk(i, end);
    if OncePerChunk(rows[..end]) {
      forall p, q | 0 <= p < q < end - i
        ensures rows[i..end][p].ticket != rows[i..end][q].ticket
      {
        assert rows[..end][i + p].ticket != rows[..end][i + q].ticket;
      }
      forall p, q | 0 <= p < q < i && p / Chunk == q / Chunk
        ensures rows[..i][p].ticket != rows[..i][q].ticket
      {
        assert rows[..end][p].ticket != rows[..end][q].ticket;
      }
    }
    if OncePerChunk(rows[..i]) && DistinctTickets(rows[i..end]) {
      forall p, q | 0 <= p < q < end && p / Chunk == q / Chunk
        ensures rows[..end][p].ticket != rows[..end][q].ticket
      {
        if q < i {
          assert rows[..i][p].ticket != rows[..i][q].ticket;
        } else {
          assert i <= p;
          assert rows[i..end][p - i].ticket != rows[i..end][q - i].ticket;
        }
      }
    }
    if OncePerChunk(rows) {
      forall p, q | 0 <= p < q < end && p / Chunk == q / Chunk
        ensures rows[..end][p].ticket != rows[..end][q].ticket
      {
        assert rows[p].ticket != rows[q].ticket;
      }
    }
  }

  lemma SameChunk(i: nat, end: nat)
    requires Aligned(i) && end <= i + Chunk
    ensures forall p :: 0 <= p < end ==> (p / Chunk == i / Chunk <==> i <= p)
    ensures forall p :: 0 <= p < i ==> p / Chunk < i / Chunk
  {
  }
}
