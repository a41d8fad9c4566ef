/**
 The transactional miner: the row extracted from a message and the mark that the
 message is mined share one database transaction, committed only by the mark.
 */
module MiningRig {
  import opened Common
  import opened EmailQueue

  // ---- Rows and the schema ------------------------------------------------------

  /** A price is in ten-thousandths and an amount in cents, the scales of the columns. */
  datatype Row = Signal(email: nat, action: string, price: Option<nat>) | Invoice(email: nat, amount: nat)

  const PRICE_LIMIT: nat := 10_000_000_000
  const AMOUNT_LIMIT: nat := 10_000_000_000

  /** The column checks: `market_signals` knows no dividends, and both numeric
      columns hold ten digits. */
  predicate SchemaAccepts(r: Row) {
    match r
    case Signal(_, action, price) =>
      (action == "BUY" || action == "SELL") && (price.Some? ==> price.value < PRICE_LIMIT)
    case Invoice(_, amount) => amount < AMOUNT_LIMIT
  }

  datatype Tables = Tables(mined: set<nat>, rows: seq<Row>)

  // ---- What the program sees of one message ----------------------------------------

  /** A JSON field on which `.upper()` is called: `Bad` is null or not a string. */
  datatype Field = Absent | Text(upper: string) | Bad

  /** What the extraction returns. `NoAnswer` is nothing or an empty object; `price` and
      `amount` are the cleaned positive numbers, rounded to their columns' scales. */
  datatype Answer =
    | NoAnswer
    | NotAnObject
    | Object(kind: Field, ticker: string, action: Field, price: Option<nat>, vendor: string, amount: Option<nat>)

  /** How the INSERT ends. `RaisesAfter`: it succeeds and is counted, then the
      progress message raises and the handler rolls back. If the rollback raises too,
      the connection is `broken`: the message is an error and its mark fails. */
  datatype Insert = Accepts | Fails(broken: bool) | RaisesAfter(broken: bool)

  /** `Killed`: the process dies before the mark commits. `Interrupted`: Ctrl+C is
      raised after the message's work, so the mark still runs but the batch ends. */
  datatype Stop = Go | Interrupted | Killed

  datatype Step = Step(spam: bool, answer: Answer, insert: Insert, mark: Mark, stop: Stop)

  datatype Decision = LowValue | Error | Store(row: Row) | Nothing

  function Upper(f: Field): string
    requires !f.Bad?
  {
    if f.Text? then f.upper else ""
  }

  function Decide(id: nat, st: Step): Decision {
    if st.spam then LowValue
    else if !st.answer.Object? || st.answer.kind.Bad? then Error
    else if Upper(st.answer.kind) == "TRADE" then
      if st.answer.action.Bad? then Error
      else
        var action := Upper(st.answer.action);
        if st.answer.ticker != "" && (action == "BUY" || action == "SELL" || action == "DIVIDEND")
        then Store(Signal(id, action, st.answer.price))
        else Nothing
    else if Upper(st.answer.kind) == "INVOICE" then
      if st.answer.vendor != "" && st.answer.amount.Some? then Store(Invoice(id, st.answer.amount.value)) else Nothing
    else Nothing
  }

  /** The row is in the transaction when the mark is attempted. */
  predicate Pending(id: nat, st: Step) {
    var d := Decide(id, st);
    d.Store? && SchemaAccepts(d.row) && st.insert == Accepts
  }

  /** The row is counted as created. */
  predicate Counted(id: nat, st: Step) {
    var d := Decide(id, st);
    d.Store? && SchemaAccepts(d.row) && !st.insert.Fails?
  }

  /** The handler of the INSERT could not roll back. */
  predicate Broken(id: nat, st: Step) {
    Decide(id, st).Store? && !st.insert.Accepts? && st.insert.broken
  }

  predicate MarkHolds(id: nat, st: Step) {
    st.stop != Killed && st.mark != Lost && !Broken(id, st)
  }

  // ---- What a batch does to the committed tables --------------------------------------

  function AfterEmail(t: Tables, id: nat, st: Step): Tables {
    if MarkHolds(id, st) then
      Tables(t.mined + {id}, if Pending(id, st) then t.rows + [Decide(id, st).row] else t.rows)
    else t
  }

  /** The committed tables after the batch, from its `k`-th message on. */
  function AfterBatch(t: Tables, picked: seq<nat>, script: nat -> Step, k: nat): Tables
    decreases |picked| - k
  {
    if k >= |picked| then t
    else
      var t' := AfterEmail(t, picked[k], script(k));
      if script(k).stop == Go then AfterBatch(t', picked, script, k + 1) else t'
  }

  datatype Stats = Stats(processed: nat, skipped: nat, signals: nat, invoices: nat, errors: nat)

  function AddEmail(s: Stats, id: nat, st: Step): Stats {
    var d := Decide(id, st);
    Stats(s.processed + 1,
          s.skipped + (if d.LowValue? then 1 else 0),
          s.signals + (if Counted(id, st) && d.row.Signal? then 1 else 0),
          s.invoices + (if Counted(id, st) && d.row.Invoice? then 1 else 0),
          s.errors + (if d.Error? || Broken(id, st) then 1 else 0))
  }

  /** The summary after the first `k` messages. */
  function StatsOf(picked: seq<nat>, script: nat -> Step, k: nat): Stats
    requires k <= |picked|
  {
    if k == 0 then Stats(0, 0, 0, 0, 0) else AddEmail(StatsOf(picked, script, k - 1), picked[k - 1], script(k - 1))
  }

  ghost predicate RunsThrough(picked: seq<nat>, script: nat -> Step) {
    forall k :: 0 <= k < |picked| ==> script(k).stop == Go
  }

  // ---- The program ---------------------------------------------------------------

  class Miner {
    /** What the database has durably, and what the open transaction sees. */
    var committed: Tables
    var pending: Tables

    constructor (initial: Tables)
      ensures committed == pending == initial
    {
      committed, pending := initial, initial;
    }

    method MarkAsMined(id: nat, outcome: Mark)
      modifies this
      ensures pending == committed
      ensures committed == if outcome == Lost then old(committed)
                           else Tables(old(pending).mined + {id}, old(pending).rows)
    {
      if outcome == Lost {
        pending := committed;
      } else {
        pending := pending.(mined := pending.mined + {id});
        committed := pending;
      }
    }

    /** The INSERT of an extracted row, with its rollback handler, which may raise in turn. */
    method InsertRow(row: Row, outcome: Insert) returns (counted: bool, raised: bool)
      requires pending == committed
      modifies this`pending
      ensures counted <==> SchemaAccepts(row) && !outcome.Fails?
      ensures raised <==> !outcome.Accepts? && outcome.broken
      ensures pending == if SchemaAccepts(row) && outcome == Accepts
                         then committed.(rows := committed.rows + [row]) else committed
    {
      counted, raised := false, false;
      if SchemaAccepts(row) && !outcome.Fails? {
        pending := pending.(rows := pending.rows + [row]);
        counted := true;
      }
      if !SchemaAccepts(row) || !outcome.Accepts? {
        pending := committed;
        raised := !outcome.Accepts? && outcome.broken;
      }
    }

    /** The body of the loop, up to but not including the mark. */
    method WorkOn(id: nat, st: Step, stats: Stats) returns (stats': Stats)
      requires pending == committed
      modifies this`pending
      ensures pending == if Pending(id, st) then committed.(rows := committed.rows + [Decide(id, st).row])
                         else committed
      ensures stats'.(processed := stats'.processed + 1) == AddEmail(stats, id, st)
    {
      stats' := stats;
      if st.spam {
        return stats.(skipped := stats.skipped + 1);
      }
      if !st.answer.Object? || st.answer.kind.Bad? {
        return stats.(errors := stats.errors + 1);
      }
      var kind := Upper(st.answer.kind);
      if kind == "TRADE" {
        if st.answer.action.Bad? {
          return stats.(errors := stats.errors + 1);
        }
        var action := Upper(st.answer.action);
        if st.answer.ticker != "" && (action == "BUY" || action == "SELL" || action == "DIVIDEND") {
          var counted, raised := InsertRow(Signal(id, action, st.answer.price), st.insert);
          if counted {
            stats' := stats'.(signals := stats'.signals + 1);
          }
          if raised {
            stats' := stats'.(errors := stats'.errors + 1);
          }
        }
      } else if kind == "INVOICE" {
        if st.answer.vendor != "" && st.answer.amount.Some? {
          var counted, raised := InsertRow(Invoice(id, st.answer.amount.value), st.insert);
          if counted {
            stats' := stats'.(invoices := stats'.invoices + 1);
          }
          if raised {
            stats' := stats'.(errors := stats'.errors + 1);
          }
        }
      }
    }

    /** One message: the work, then the mark, unless the process dies first. */
    method Attempt(id: nat, st: Step, stats: Stats) returns (stats': Stats)
      requires pending == committed
      modifies this
      ensures pending == committed == AfterEmail(old(committed), id, st)
      ensures st.stop != Killed ==> stats' == AddEmail(stats, id, st)
    {
      stats' := WorkOn(id, st, stats);
      if st.stop == Killed {
        // the server discards the open transaction of a dead client
        pending := committed;
      } else {
        MarkAsMined(id, if Broken(id, st) then Lost else st.mark);
        stats' := stats'.(processed := stats'.processed + 1);
      }
    }

    /** One batch over the fetched messages. */
    method ProcessEmails(picked: seq<nat>, script: nat -> Step) returns (reported: bool, stats: Stats)
      requires pending == committed
      modifies this
      ensures pending == committed
      ensures committed == AfterBatch(old(committed), picked, script, 0)
      ensures reported <==> RunsThrough(picked, script)
      ensures reported ==> stats == StatsOf(picked, script, |picked|)
    {
      hide AfterEmail, AddEmail;
      stats := Stats(0, 0, 0, 0, 0);
      ghost var final := AfterBatch(committed, picked, script, 0);
      var k := 0;
      while k < |picked|
        invariant 0 <= k <= |picked| && pending == committed
        invariant AfterBatch(committed, picked, script, k) == final
        invariant stats == StatsOf(picked, script, k)
        invariant forall i :: 0 <= i < k ==> script(i).stop == Go
      {
        stats := Attempt(picked[k], script(k), stats);
        if script(k).stop != Go {
          return false, stats;
        }
        k := k + 1;
      }
      reported := true;
    }
  }
}

/** What every history of mining keeps. */
module MiningHistory {
  import opened Common
  import opened EmailQueue
  import opened MiningRig

  /** The miner as a program over the archive. */
  const MINER := Program((t: Tables) => t.mined,
                         (t: Tables, picked, script: nat -> Step) => AfterBatch(t, picked, script, 0))
  const OWNER := (r: Row) => r.email

  /** At most one row per message over both tables, and only for mined messages. */
  ghost predicate ExactlyOnce(t: Tables) {
    forall id :: RowsFor(t.rows, OWNER, id) <= if id in t.mined then 1 else 0
  }

  lemma AfterEmailOnce(t: Tables, id: nat, st: Step)
    requires ExactlyOnce(t) && id !in t.mined
    ensures ExactlyOnce(AfterEmail(t, id, st))
  {
    var t' := AfterEmail(t, id, st);
    forall e ensures RowsFor(t'.rows, OWNER, e) <= if e in t'.mined then 1 else 0 {
      assert RowsFor(t.rows, OWNER, e) <= if e in t.mined then 1 else 0;
      if MarkHolds(id, st) && Pending(id, st) {
        RowsForSnoc(t.rows, OWNER, Decide(id, st).row, e);
      }
    }
  }

  lemma {:induction false} AfterBatchOnce(t: Tables, picked: seq<nat>, script: nat -> Step, k: nat)
    requires ExactlyOnce(t) && Distinct(picked)
    requires forall i :: k <= i < |picked| ==> picked[i] !in t.mined
    ensures ExactlyOnce(AfterBatch(t, picked, script, k))
    decreases |picked| - k
  {
    if k < |picked| {
      AfterEmailOnce(t, picked[k], script(k));
      if script(k).stop == Go {
        AfterBatchOnce(AfterEmail(t, picked[k], script(k)), picked, script, k + 1);
      }
    }
  }

  /** In every committed state reachable under insert failures, mark failures, lost
      acknowledgements, rollbacks and kills, each message has at most one row, and
      has one only if it is marked mined. */
  lemma {:induction false} MiningExactlyOnce(archive: map<nat, Email>, history: seq<Event<Step>>)
    requires ValidHistory(MINER, World(archive, Tables({}, [])), history)
    ensures ExactlyOnce(After(MINER, World(archive, Tables({}, [])), history).tables)
  {
    var start := World(archive, Tables({}, []));
    if history != [] {
      var before, e := history[..|history| - 1], history[|history| - 1];
      assert history == before + [e];
      ValidSnoc(MINER, start, before, e);
      MiningExactlyOnce(archive, before);
      if e.Batch? {
        var t := After(MINER, start, before).tables;
        assert forall i :: 0 <= i < |e.picked| ==> e.picked[i] !in t.mined;
        AfterBatchOnce(t, e.picked, e.script, 0);
      }
    }
  }

  // ---- Which row an answer becomes ------------------------------------------------------

  /** The message got past the spam filter and its answer is a trade with a ticker. */
  predicate SaysTrade(st: Step, action: string, price: Option<nat>) {
    && !st.spam && st.answer.Object? && st.answer.kind == Text("TRADE") && st.answer.ticker != ""
    && st.answer.action == Text(action) && st.answer.price == price
  }

  /** The same for an invoice with a vendor. */
  predicate SaysInvoice(st: Step, amount: nat) {
    && !st.spam && st.answer.Object? && st.answer.kind == Text("INVOICE") && st.answer.vendor != ""
    && st.answer.amount == Some(amount)
  }

  /** The row carries what the answer says: a purchase or sale below a million dollars a
      share, or an invoice below a hundred million. */
  predicate Carries(r: Row, id: nat, st: Step) {
    match r
    case Signal(email, action, price) =>
      && email == id && SaysTrade(st, action, price) && (action == "BUY" || action == "SELL")
      && (price.Some? ==> price.value < 1_000_000 * 10_000)
    case Invoice(email, amount) =>
      email == id && SaysInvoice(st, amount) && amount < 100_000_000 * 100
  }

  /** Insert and mark both succeed. */
  predicate Succeeds(st: Step) {
    st.insert == Accepts && st.mark != Lost && st.stop != Killed
  }

  /** One message adds a row exactly if the row carries its answer and insert and mark succeed. */
  lemma EmailStores(t: Tables, id: nat, st: Step, r: Row)
    ensures AfterEmail(t, id, st).rows == t.rows + [r] <==> Carries(r, id, st) && Succeeds(st)
    ensures AfterEmail(t, id, st).rows == t.rows
            || exists r' :: AfterEmail(t, id, st).rows == t.rows + [r']
  {
    var rows := AfterEmail(t, id, st).rows;
    assert "BUY" != "SELL" && "BUY" != "DIVIDEND" && "SELL" != "DIVIDEND" && "TRADE" != "INVOICE" by {
      assert "BUY"[0] == 'B' && "SELL"[0] == 'S' && "DIVIDEND"[0] == 'D' && "TRADE"[0] == 'T' && "INVOICE"[0] == 'I';
    }
    if MarkHolds(id, st) && Pending(id, st) {
      assert rows == t.rows + [Decide(id, st).row];
      assert rows[|t.rows|] == Decide(id, st).row;
      assert rows == t.rows + [r] ==> r == rows[|t.rows|];
    } else {
      assert |rows| == |t.rows|;
    }
  }

  /** Message number `k` of the event is worked on: nothing before it ended the batch. */
  ghost predicate Reached(e: Event<Step>, k: nat) {
    e.Batch? && k < |e.picked| && forall i :: 0 <= i < k ==> e.script(i).stop == Go
  }

  ghost predicate Stores(e: Event<Step>, k: nat, r: Row) {
    Reached(e, k) && Carries(r, e.picked[k], e.script(k)) && Succeeds(e.script(k))
  }

  ghost predicate StoredBy(e: Event<Step>, r: Row) {
    exists m: nat :: Stores(e, m, r)
  }

  lemma {:induction false} BatchRows(t: Tables, e: Event<Step>, k: nat)
    requires e.Batch? && (forall i :: 0 <= i < k && i < |e.picked| ==> e.script(i).stop == Go)
    ensures var rows := AfterBatch(t, e.picked, e.script, k).rows;
            && t.rows <= rows
            && (forall i :: |t.rows| <= i < |rows| ==> StoredBy(e, rows[i]))
            && (forall m, r :: k <= m && Stores(e, m, r) ==> r in rows)
    decreases if k < |e.picked| then |e.picked| - k else 0
  {
    if k < |e.picked| {
      hide Stores, AfterEmail, StoredBy;
      var t', st := AfterEmail(t, e.picked[k], e.script(k)), e.script(k);
      OneStep(t, e, k);
      forall i | |t.rows| <= i < |t'.rows| ensures StoredBy(e, t'.rows[i]) {
        StoredIntro(e, k, t'.rows[i]);
      }
      if st.stop == Go {
        BatchRows(t', e, k + 1);
        var rows := AfterBatch(t, e.picked, e.script, k).rows;
        forall i | |t.rows| <= i < |rows| ensures StoredBy(e, rows[i]) {
          assert i < |t'.rows| ==> rows[i] == t'.rows[i];
        }
        forall m, r | k <= m && Stores(e, m, r) ensures r in rows {
          assert m == k ==> rows[|t'.rows| - 1] == t'.rows[|t'.rows| - 1];
        }
      }
    }
  }

  lemma StoredIntro(e: Event<Step>, m: nat, r: Row)
    requires Stores(e, m, r)
    ensures StoredBy(e, r)
  {
  }

  lemma OneStep(t: Tables, e: Event<Step>, k: nat)
    requires Reached(e, k)
    ensures var rows := AfterEmail(t, e.picked[k], e.script(k)).rows;
            && t.rows <= rows
            && (forall i :: |t.rows| <= i < |rows| ==> Stores(e, k, rows[i]))
            && (forall r :: Stores(e, k, r) ==> rows == t.rows + [r])
  {
    hide Carries, Succeeds, AfterEmail;
    var id, st := e.picked[k], e.script(k);
    var rows := AfterEmail(t, id, st).rows;
    EmailStores(t, id, st, Invoice(0, 0));
    if rows != t.rows {
      var r' :| rows == t.rows + [r'];
      EmailStores(t, id, st, r');
    }
    forall r | Stores(e, k, r) ensures rows == t.rows + [r] {
      EmailStores(t, id, st, r);
    }
  }

  /** The message is in the archive with more than fifty characters. */
  predicate LongMail(archive: map<nat, Email>, id: nat) {
    id in archive && archive[id].content.Some? && |archive[id].content.value| > 50
  }

  lemma {:induction false} RowsGrow(archive: map<nat, Email>, history: seq<Event<Step>>, j: nat)
    requires j <= |history|
    ensures After(MINER, World(archive, Tables({}, [])), history[..j]).tables.rows
         <= After(MINER, World(archive, Tables({}, [])), history).tables.rows
    decreases |history|
  {
    if j == |history| {
      assert history[..j] == history;
    } else {
      hide Stores;
      var before, e := history[..|history| - 1], history[|history| - 1];
      assert before[..j] == history[..j];
      RowsGrow(archive, before, j);
      if e.Batch? {
        BatchRows(After(MINER, World(archive, Tables({}, [])), before).tables, e, 0);
      }
    }
  }

  /** Every committed row carries the answer of a step that worked on its message, a long
      mail, and whose insert and mark succeeded. */
  lemma {:induction false} RowsComeFrom(archive: map<nat, Email>, history: seq<Event<Step>>, i: nat)
    requires ValidHistory(MINER, World(archive, Tables({}, [])), history)
    requires i < |After(MINER, World(archive, Tables({}, [])), history).tables.rows|
    ensures var start := World(archive, Tables({}, []));
            var r := After(MINER, start, history).tables.rows[i];
            exists j: nat, k: nat :: j < |history| && Stores(history[j], k, r)
                                     && LongMail(After(MINER, start, history[..j]).archive, r.email)
    decreases |history|
  {
    hide Stores, LongMail, AfterBatch, Enabled, ValidHistory;
    var start := World(archive, Tables({}, []));
    if history != [] {
      var before, e := history[..|history| - 1], history[|history| - 1];
      assert history == before + [e];
      ValidSnoc(MINER, start, before, e);
      var w, r := After(MINER, start, before), After(MINER, start, history).tables.rows[i];
      if i < |w.tables.rows| {
        RowsGrow(archive, history, |before|);
        RowsComeFrom(archive, before, i);
        var j: nat, k: nat :| j < |before| && Stores(before[j], k, r)
                              && LongMail(After(MINER, start, before[..j]).archive, r.email);
        assert history[j] == before[j] && history[..j] == before[..j];
      } else {
        BatchRows(w.tables, e, 0);
        var m: nat :| Stores(e, m, r);
        StoresLongMail(w, e, m, r);
        assert history[|before|] == e && history[..|before|] == before;
      }
    }
  }

  lemma StoresLongMail(w: World<Tables>, e: Event<Step>, k: nat, r: Row)
    requires Enabled(MINER, w, e) && Stores(e, k, r)
    ensures LongMail(w.archive, r.email)
  {
    assert e.picked[k] in Waiting(w.archive, w.tables.mined);
  }

  /** Conversely, every answer a reached step could carry into a row, with its insert and
      mark succeeding, is in the tables for good. */
  lemma RowsStay(archive: map<nat, Email>, history: seq<Event<Step>>, j: nat, k: nat, r: Row)
    requires j < |history| && Stores(history[j], k, r)
    ensures r in After(MINER, World(archive, Tables({}, [])), history).tables.rows
  {
    assert history[j].Batch?;
    hide Stores, StoredBy, AfterBatch;
    var start, h, e := World(archive, Tables({}, [])), history[..j + 1], history[j];
    var before := After(MINER, start, history[..j]).tables;
    var rows := AfterBatch(before, e.picked, e.script, 0).rows;
    BatchRows(before, e, 0);
    assert h[..j] == history[..j] && h[j] == e;
    assert After(MINER, start, h).tables.rows == rows;
    RowsGrow(archive, history, j + 1);
    var i :| 0 <= i < |rows| && rows[i] == r;
    assert After(MINER, start, history).tables.rows[i] == r;
  }

  // ---- Which messages move which counter ----------------------------------------------

  /** The message's INSERT is tried. */
  predicate Tries(st: Step) {
    && st.answer.Object?
    && (|| SaysTrade(st, "BUY", st.answer.price)
        || SaysTrade(st, "SELL", st.answer.price)
        || SaysTrade(st, "DIVIDEND", st.answer.price)
        || (st.answer.amount.Some? && SaysInvoice(st, st.answer.amount.value)))
  }

  /** Not spam, and: no object, a kind or a trade's action that is no text, or a rollback that raises. */
  predicate Errs(st: Step) {
    && !st.spam
    && (|| !st.answer.Object? || st.answer.kind == Bad
        || (st.answer.kind == Text("TRADE") && st.answer.action == Bad)
        || (Tries(st) && st.insert != Accepts && st.insert.broken))
  }

  /** A purchase or sale that fits the price column, whose INSERT does not fail. */
  predicate CountsSignal(st: Step) {
    && st.answer.Object? && !st.insert.Fails?
    && (SaysTrade(st, "BUY", st.answer.price) || SaysTrade(st, "SELL", st.answer.price))
    && (st.answer.price.Some? ==> st.answer.price.value < 1_000_000 * 10_000)
  }

  /** An invoice that fits the amount column, whose INSERT does not fail. */
  predicate CountsInvoice(st: Step) {
    && st.answer.Object? && !st.insert.Fails? && st.answer.amount.Some?
    && SaysInvoice(st, st.answer.amount.value) && st.answer.amount.value < 100_000_000 * 100
  }

  function CountFirst(script: nat -> Step, what: Step -> bool, k: nat): nat {
    if k == 0 then 0 else CountFirst(script, what, k - 1) + if what(script(k - 1)) then 1 else 0
  }

  lemma StepMoves(id: nat, st: Step, s: Stats)
    ensures var s' := AddEmail(s, id, st);
            && s'.processed == s.processed + 1
            && s'.skipped == s.skipped + (if st.spam then 1 else 0)
            && s'.errors == s.errors + (if Errs(st) then 1 else 0)
            && s'.signals == s.signals + (if CountsSignal(st) then 1 else 0)
            && s'.invoices == s.invoices + (if CountsInvoice(st) then 1 else 0)
    ensures MarkHolds(id, st) <==>
      st.stop != Killed && st.mark != Lost && !(Tries(st) && st.insert != Accepts && st.insert.broken)
  {
    assert "TRADE" != "INVOICE" && "BUY" != "DIVIDEND" && "SELL" != "DIVIDEND" by {
      assert "BUY"[0] == 'B' && "SELL"[0] == 'S' && "DIVIDEND"[0] == 'D' && "TRADE"[0] == 'T' && "INVOICE"[0] == 'I';
    }
    assert Decide(id, st).Store? <==> Tries(st) by {
      if st.answer.Object? && st.answer.action.Text? {
        assert st.answer.action == Text(st.answer.action.upper);
      }
    }
  }

  /** `skipped` counts the spam, `errors` the messages that err, and the created counts the rows accepted. */
  lemma {:induction false} CountersAre(picked: seq<nat>, script: nat -> Step, k: nat)
    requires k <= |picked|
    ensures var s := StatsOf(picked, script, k);
            && s.processed == k
            && s.skipped == CountFirst(script, (st: Step) => st.spam, k)
            && s.errors == CountFirst(script, Errs, k)
            && s.signals == CountFirst(script, CountsSignal, k) && s.invoices == CountFirst(script, CountsInvoice, k)
  {
    hide Errs, AddEmail, CountsSignal, CountsInvoice;
    if k > 0 {
      CountersAre(picked, script, k - 1);
      StepMoves(picked[k - 1], script(k - 1), StatsOf(picked, script, k - 1));
    }
  }

  /** A dividend passes the program's filter but not the schema: the message is
      mined, no row remains, and no counter but `processed` moves. */
  lemma DividendVanishes(t: Tables, s: Stats, id: nat, st: Step)
    requires Decide(id, st).Store? && Decide(id, st).row.Signal? && Decide(id, st).row.action == "DIVIDEND"
    requires MarkHolds(id, st)
    ensures AfterEmail(t, id, st) == Tables(t.mined + {id}, t.rows)
    ensures AddEmail(s, id, st) == s.(processed := s.processed + 1)
  {
    assert "DIVIDEND"[0] == 'D' && "BUY"[0] == 'B' && "SELL"[0] == 'S';
  }

  // ---- The reported counts ---------------------------------------------------------

  function RowsIn(rows: seq<Row>, signals: bool): nat {
    if rows == [] then 0
    else RowsIn(rows[..|rows| - 1], signals) + if rows[|rows| - 1].Signal? == signals then 1 else 0
  }

  /** The message's row was counted but never committed. */
  predicate LostRow(id: nat, st: Step, signals: bool) {
    Counted(id, st) && Decide(id, st).row.Signal? == signals && !(Pending(id, st) && MarkHolds(id, st))
  }

  function LostRows(picked: seq<nat>, script: nat -> Step, signals: bool, k: nat): nat
    requires k <= |picked|
  {
    if k == 0 then 0
    else LostRows(picked, script, signals, k - 1) + if LostRow(picked[k - 1], script(k - 1), signals) then 1 else 0
  }

  function Created(s: Stats, signals: bool): nat {
    if signals then s.signals else s.invoices
  }

  /** The committed tables after the first `k` messages of a batch that runs through. */
  function Prefix(t: Tables, picked: seq<nat>, script: nat -> Step, k: nat): Tables
    requires k <= |picked|
  {
    if k == 0 then t else AfterEmail(Prefix(t, picked, script, k - 1), picked[k - 1], script(k - 1))
  }

  lemma {:induction false} PrefixIsBatch(t: Tables, picked: seq<nat>, script: nat -> Step, k: nat)
    requires k <= |picked| && RunsThrough(picked, script)
    ensures AfterBatch(Prefix(t, picked, script, k), picked, script, k) == AfterBatch(t, picked, script, 0)
  {
    if k > 0 {
      PrefixIsBatch(t, picked, script, k - 1);
    }
  }

  lemma EmailCounts(t: Tables, s: Stats, id: nat, st: Step, signals: bool)
    ensures Created(AddEmail(s, id, st), signals) + RowsIn(t.rows, signals)
         == Created(s, signals) + RowsIn(AfterEmail(t, id, st).rows, signals)
            + if LostRow(id, st, signals) then 1 else 0
  {
    if Pending(id, st) && MarkHolds(id, st) {
      var row := Decide(id, st).row;
      assert (t.rows + [row])[..|t.rows|] == t.rows;
      assert RowsIn(t.rows + [row], signals) == RowsIn(t.rows, signals) + if row.Signal? == signals then 1 else 0;
    }
  }

  lemma {:induction false} PrefixCounts(t: Tables, picked: seq<nat>, script: nat -> Step, signals: bool, k: nat)
    requires k <= |picked|
    ensures Created(StatsOf(picked, script, k), signals) + RowsIn(t.rows, signals)
         == RowsIn(Prefix(t, picked, script, k).rows, signals) + LostRows(picked, script, signals, k)
  {
    if k > 0 {
      hide AfterEmail, AddEmail, RowsIn, Created, LostRow;
      PrefixCounts(t, picked, script, signals, k - 1);
      var p, s := Prefix(t, picked, script, k - 1), StatsOf(picked, script, k - 1);
      var id, st := picked[k - 1], script(k - 1);
      var p', s' := Prefix(t, picked, script, k), StatsOf(picked, script, k);
      assert p' == AfterEmail(p, id, st) && s' == AddEmail(s, id, st);
      EmailCounts(p, s, id, st, signals);
    }
  }

  /** For each table, the summary's count is the rows committed plus the rows that
      were counted and then rolled back. */
  lemma ReportedCountsExact(t: Tables, picked: seq<nat>, script: nat -> Step, signals: bool)
    requires RunsThrough(picked, script)
    ensures Created(StatsOf(picked, script, |picked|), signals) + RowsIn(t.rows, signals)
         == RowsIn(AfterBatch(t, picked, script, 0).rows, signals) + LostRows(picked, script, signals, |picked|)
  {
    PrefixIsBatch(t, picked, script, |picked|);
    PrefixCounts(t, picked, script, signals, |picked|);
  }

  /** The summary is exact if and only if no counted row was rolled back. */
  lemma {:induction false} NothingLost(picked: seq<nat>, script: nat -> Step, signals: bool, k: nat)
    requires k <= |picked|
    ensures LostRows(picked, script, signals, k) == 0 <==>
      forall i :: 0 <= i < k ==> !LostRow(picked[i], script(i), signals)
  {
    if k > 0 {
      NothingLost(picked, script, signals, k - 1);
    }
  }

  ghost predicate AllMarked(picked: seq<nat>, script: nat -> Step) {
    forall i :: 0 <= i < |picked| ==> MarkHolds(picked[i], script(i))
  }

  /** A batch whose marks all commit removes all its messages from the queue. */
  lemma {:induction false} MarkedBatchMines(t: Tables, picked: seq<nat>, script: nat -> Step, k: nat)
    requires k <= |picked| && AllMarked(picked, script)
    ensures Prefix(t, picked, script, k).mined == t.mined + Ids(picked[..k])
  {
    if k > 0 {
      MarkedBatchMines(t, picked, script, k - 1);
      assert MarkHolds(picked[k - 1], script(k - 1));
      hide MarkHolds, Pending, AllMarked;
      assert picked[..k] == picked[..k - 1] + [picked[k - 1]];
      assert Ids(picked[..k]) == Ids(picked[..k - 1]) + {picked[k - 1]} by {
        assert forall i :: 0 <= i < k - 1 ==> picked[..k][i] == picked[..k - 1][i];
        assert picked[..k][k - 1] == picked[k - 1];
        forall id | id in Ids(picked[..k]) ensures id in Ids(picked[..k - 1]) + {picked[k - 1]} {
          var i :| 0 <= i < k && picked[..k][i] == id;
          assert i < k - 1 ==> picked[..k - 1][i] == id;
        }
      }
    }
  }

  /** A batch that runs through and marks all its messages. */
  ghost predicate Marks(e: Event<Step>, limit: nat) {
    e.Batch? && e.limit == limit && RunsThrough(e.picked, e.script) && AllMarked(e.picked, e.script)
  }

  lemma DrainStep(w: World<Tables>, e: Event<Step>, limit: nat)
    requires Enabled(MINER, w, e) && Marks(e, limit)
    ensures var w' := Apply(MINER, w, e);
      |Waiting(w'.archive, w'.tables.mined)| == Max(0, |Waiting(w.archive, w.tables.mined)| - limit)
  {
    PrefixIsBatch(w.tables, e.picked, e.script, |e.picked|);
    MarkedBatchMines(w.tables, e.picked, e.script, |e.picked|);
    assert e.picked[..|e.picked|] == e.picked;
    BatchShrinksQueue(w.archive, w.tables.mined, limit, e.picked);
  }

  /** Each such batch of the drain loop takes `limit` messages off the queue. */
  lemma {:induction false} DrainProgress(w: World<Tables>, limit: nat, batches: seq<Event<Step>>)
    requires ValidHistory(MINER, w, batches) && forall i :: 0 <= i < |batches| ==> Marks(batches[i], limit)
    ensures var w' := After(MINER, w, batches);
      |Waiting(w'.archive, w'.tables.mined)| == Max(0, |Waiting(w.archive, w.tables.mined)| - |batches| * limit)
  {
    hide Marks, Enabled, Apply, Waiting;
    if batches != [] {
      hide After, ValidHistory;
      var before, e := batches[..|batches| - 1], batches[|batches| - 1];
      assert batches == before + [e];
      ValidSnoc(MINER, w, before, e);
      DrainProgress(w, limit, before);
      DrainStep(After(MINER, w, before), e, limit);
      MulMonotone(|before|, |batches|, limit);
      assert (|batches| - 1) * limit == |before| * limit;
    }
  }

  /** The drain loop reaches the empty queue exactly with batch number queue / limit, rounded up. */
  lemma DrainEmpties(w: World<Tables>, limit: nat, batches: seq<Event<Step>>)
    requires limit >= 1
    requires ValidHistory(MINER, w, batches) && forall i :: 0 <= i < |batches| ==> Marks(batches[i], limit)
    ensures var w' := After(MINER, w, batches);
      Waiting(w'.archive, w'.tables.mined) == {}
      <==> |batches| >= (|Waiting(w.archive, w.tables.mined)| + limit - 1) / limit
  {
    hide Waiting, ValidHistory, Marks;
    DrainProgress(w, limit, batches);
    Ceiling(|Waiting(w.archive, w.tables.mined)|, limit, |batches|);
  }

  lemma Ceiling(q: nat, limit: nat, n: nat)
    requires limit >= 1
    ensures n * limit >= q <==> n >= (q + limit - 1) / limit
  {
    var c := (q + limit - 1) / limit;
    assert q <= c * limit < q + limit;
    if n >= c {
      MulMonotone(c, n, limit);
    } else {
      MulMonotone(n + 1, c, limit);
      MulMonotone(n, n + 1, limit);
    }
  }

  lemma MulMonotone(a: int, b: int, limit: nat)
    requires a <= b
    ensures a * limit <= b * limit && (b - 1) * limit == b * limit - limit
  {
    assert (b - a) * limit >= 0;
  }
}
