/**
 The routing miner: the routed row is committed in a session of its own before
 the message is marked as mined, so a lost mark means the message is routed again.
 */
module Router {
  import opened Common
  import opened EmailQueue

  datatype Route = RealEstate | Finance | Market | Legal

  /** Amounts are in cents. */
  datatype Row = Row(email: nat, route: Route, amount: Option<nat>)

  const SAFETY_VALVE: nat := 5_000_000
  const SANE_AMOUNT: nat := 1_000_000_000

  /** How a session commit ends. `Unacked`: it took effect but the program saw an error. */
  datatype Commit = Ok | Failed | Unacked

  /** How the work on a message ends. `Interrupted`: Ctrl+C is raised, the mark still runs
      and the batch ends; before the row it leaves what a message without a route does. */
  datatype Stop = Go | Interrupted | KilledBeforeRow | KilledAfterRow

  /** `route` is what the keyword analysis answers; `matches` are the numbers found
      in the text, `None` where the text of a match is not a number. */
  datatype Step = Step(route: Option<Route>, matches: seq<Option<nat>>, commit: Commit, mark: Mark, stop: Stop)

  datatype Result = Result(route: Option<Route>, success: bool, error: Option<string>)

  // ---- The amount of a message ------------------------------------------------------

  predicate Reasonable(m: Option<nat>) {
    m.Some? && 0 < m.value < SANE_AMOUNT
  }

  function Amount(matches: seq<Option<nat>>): Option<nat> {
    if matches == [] then None
    else
      var rest, m := Amount(matches[..|matches| - 1]), matches[|matches| - 1];
      if Reasonable(m) && (rest.None? || rest.value < m.value) then m else rest
  }

  /** The extracted amount is the largest reasonable number of the text. */
  lemma {:induction false} AmountIsLargest(matches: seq<Option<nat>>)
    ensures Amount(matches).None? <==> forall i :: 0 <= i < |matches| ==> !Reasonable(matches[i])
    ensures Amount(matches).Some? ==> Reasonable(Amount(matches)) && Amount(matches) in matches
    ensures forall i :: 0 <= i < |matches| && Reasonable(matches[i]) ==>
      Amount(matches).Some? && matches[i].value <= Amount(matches).value
  {
    if matches != [] {
      AmountIsLargest(matches[..|matches| - 1]);
    }
  }

  // ---- What one attempt commits -------------------------------------------------------

  /** The row the attempt tries to commit. */
  function Candidate(id: nat, st: Step): Option<Row> {
    if st.route.None? then None
    else
      var amount := Amount(st.matches);
      match st.route.value
      case Finance => if amount.Some? && amount.value < SAFETY_VALVE then Some(Row(id, Finance, amount)) else None
      case Legal => Some(Row(id, Legal, None))
      case r => Some(Row(id, r, amount))
  }

  predicate RowLands(id: nat, st: Step) {
    Candidate(id, st).Some? && st.commit != Failed && st.stop != KilledBeforeRow
  }

  predicate Succeeds(id: nat, st: Step) {
    Candidate(id, st).Some? && st.commit == Ok
  }

  predicate MarkHolds(st: Step) {
    (st.stop == Go || st.stop == Interrupted) && st.mark != Lost
  }

  datatype Tables = Tables(mined: set<nat>, rows: seq<Row>)

  function AfterEmail(t: Tables, id: nat, st: Step): Tables {
    Tables(if MarkHolds(st) then t.mined + {id} else t.mined,
           if RowLands(id, st) then t.rows + [Candidate(id, st).value] else t.rows)
  }

  function AfterBatch(t: Tables, picked: seq<nat>, script: nat -> Step, k: nat): Tables
    decreases |picked| - k
  {
    if k >= |picked| then t
    else
      var t' := AfterEmail(t, picked[k], script(k));
      if script(k).stop == Go then AfterBatch(t', picked, script, k + 1) else t'
  }

  ghost predicate RunsThrough(picked: seq<nat>, script: nat -> Step) {
    forall k :: 0 <= k < |picked| ==> script(k).stop == Go
  }

  /** Attempts among the first `k` whose commit was acknowledged. */
  function Successes(picked: seq<nat>, script: nat -> Step, route: Route, k: nat): nat
    requires k <= |picked|
  {
    if k == 0 then 0
    else
      Successes(picked, script, route, k - 1)
      + if Succeeds(picked[k - 1], script(k - 1)) && script(k - 1).route == Some(route) then 1 else 0
  }

  datatype Counters = Counters(realEstate: nat, finance: nat, market: nat, legal: nat, noRoute: nat, errors: nat)

  const ZERO := Counters(0, 0, 0, 0, 0, 0)

  function CountOf(c: Counters, route: Route): nat {
    match route
    case RealEstate => c.realEstate
    case Finance => c.finance
    case Market => c.market
    case Legal => c.legal
  }

  function Bump(c: Counters, route: Route): Counters {
    match route
    case RealEstate => c.(realEstate := c.realEstate + 1)
    case Finance => c.(finance := c.finance + 1)
    case Market => c.(market := c.market + 1)
    case Legal => c.(legal := c.legal + 1)
  }

  /** An acknowledged row counts for its route, everything else is an error. */
  function AddOutcome(c: Counters, id: nat, st: Step): Counters {
    if Succeeds(id, st) then Bump(c, st.route.value) else c.(errors := c.errors + 1)
  }

  /** The counters after the first `k` messages. */
  function CountersOf(picked: seq<nat>, script: nat -> Step, k: nat): Counters
    requires k <= |picked|
  {
    if k == 0 then ZERO
    else AddOutcome(CountersOf(picked, script, k - 1), picked[k - 1], script(k - 1))
  }

  /** `no_route` never moves, unrouted mail is reported as errors, and the six
      counters add up to the messages. */
  lemma {:induction false} CountersExact(picked: seq<nat>, script: nat -> Step, k: nat)
    requires k <= |picked|
    ensures var c := CountersOf(picked, script, k);
      && c.noRoute == 0
      && c.realEstate + c.finance + c.market + c.legal + c.errors == k
      && forall route :: CountOf(c, route) == Successes(picked, script, route, k)
  {
    if k > 0 {
      CountersExact(picked, script, k - 1);
      forall route ensures CountOf(CountersOf(picked, script, k), route) == Successes(picked, script, route, k) {
        assert CountOf(CountersOf(picked, script, k - 1), route) == Successes(picked, script, route, k - 1);
      }
    }
  }

  // ---- The program ---------------------------------------------------------------

  class RouterMiner {
    var mined: set<nat>
    var rows: seq<Row>

    constructor (mined: set<nat>, rows: seq<Row>)
      ensures State() == Tables(mined, rows)
    {
      this.mined, this.rows := mined, rows;
    }

    ghost function State(): Tables
      reads this
    {
      Tables(mined, rows)
    }

    method ExtractAmount(matches: seq<Option<nat>>) returns (best: Option<nat>)
      ensures best == Amount(matches)
    {
      best := None;
      for i := 0 to |matches|
        invariant best == Amount(matches[..i])
      {
        assert matches[..i + 1][..i] == matches[..i];
        var m := matches[i];
        if m.Some? && 0 < m.value < SANE_AMOUNT {
          if best.None? || best.value < m.value {
            best := m;
          }
        }
      }
      assert matches[..|matches|] == matches;
    }

    /** Commits one row in its own session. */
    method CommitRow(row: Row, commit: Commit) returns (acked: bool)
      modifies this`rows
      ensures rows == if commit == Failed then old(rows) else old(rows) + [row]
      ensures acked <==> commit == Ok
    {
      if commit != Failed {
        rows := rows + [row];
      }
      acked := commit == Ok;
    }

    method RouteIncomingData(id: nat, st: Step) returns (result: Result)
      modifies this`rows
      ensures rows == if Candidate(id, st).Some? && st.commit != Failed
                      then old(rows) + [Candidate(id, st).value] else old(rows)
      ensures result.success <==> Succeeds(id, st)
      ensures result.success ==> result.route == st.route
      ensures !result.success ==> result.error.Some?
    {
      if st.route.None? {
        return Result(None, false, Some("No matching route found for this email"));
      }
      var amount: Option<nat> := None;
      if st.route.value != Legal {
        amount := ExtractAmount(st.matches);
      }
      if st.route.value == Finance {
        if amount.None? {
          return Result(st.route, false, Some("No valid amount found in email content"));
        }
        if amount.value >= SAFETY_VALVE {
          return Result(st.route, false, Some("exceeds $50,000 limit"));
        }
      }
      var acked := CommitRow(Row(id, st.route.value, amount), st.commit);
      result := Result(st.route, acked, if acked then None else Some("Unexpected error during routing"));
    }

    method MarkAsMined(id: nat, outcome: Mark)
      modifies this`mined
      ensures mined == if outcome == Lost then old(mined) else old(mined) + {id}
    {
      if outcome != Lost {
        mined := mined + {id};
      }
    }

    /** The counter one result moves. */
    method Tally(c: Counters, result: Result) returns (c': Counters)
      requires result.success ==> result.route.Some?
      ensures result.success ==> c' == Bump(c, result.route.value)
      ensures !result.success && result.error.Some? ==> c' == c.(errors := c.errors + 1)
      ensures !result.success && result.error.None? ==> c' == c.(noRoute := c.noRoute + 1)
    {
      if result.success {
        c' := Bump(c, result.route.value);
      } else if result.error.Some? {
        c' := c.(errors := c.errors + 1);
      } else {
        c' := c.(noRoute := c.noRoute + 1);
      }
    }

    /** The body of the loop for one message; `alive` is false if the batch ends in it. */
    method AttemptOn(id: nat, st: Step, c: Counters) returns (alive: bool, c': Counters)
      modifies this
      ensures State() == AfterEmail(old(State()), id, st)
      ensures alive <==> st.stop == Go
      ensures alive ==> c' == AddOutcome(c, id, st)
    {
      c' := c;
      if st.stop == KilledBeforeRow {
        return false, c;
      }
      var result := RouteIncomingData(id, st);
      if st.stop == KilledAfterRow {
        return false, c;
      }
      alive := st.stop != Interrupted;
      if alive {
        c' := Tally(c, result);
      }
      MarkAsMined(id, st.mark);
    }

    /** One batch over the fetched messages. */
    method ProcessEmails(picked: seq<nat>, script: nat -> Step) returns (reported: bool, counters: Counters)
      modifies this
      ensures State() == AfterBatch(old(State()), picked, script, 0)
      ensures reported <==> RunsThrough(picked, script)
      ensures reported ==> counters == CountersOf(picked, script, |picked|)
    {
      hide AfterEmail, AddOutcome;
      counters := ZERO;
      ghost var final := AfterBatch(State(), picked, script, 0);
      var k := 0;
      while k < |picked|
        invariant 0 <= k <= |picked|
        invariant AfterBatch(State(), picked, script, k) == final
        invariant counters == CountersOf(picked, script, k)
        invariant forall i :: 0 <= i < k ==> script(i).stop == Go
      {
        var alive, next := AttemptOn(picked[k], script(k), counters);
        if !alive {
          return false, counters;
        }
        counters := next;
        k := k + 1;
      }
      reported := true;
    }
  }
}

/** What every history of routing keeps. */
module RoutingHistory {
  import opened Common
  import opened EmailQueue
  import opened Router

  /** The routing miner as a program over the archive. */
  const ROUTER := Program((t: Tables) => t.mined,
                          (t: Tables, picked, script: nat -> Step) => AfterBatch(t, picked, script, 0))
  const OWNER := (r: Row) => r.email

  function Start(archive: map<nat, Email>): World<Tables> {
    World(archive, Tables({}, []))
  }

  /** Attempts on a message, from the batch's `k`-th on, that ended without a committed mark. */
  function LostIn(picked: seq<nat>, script: nat -> Step, k: nat, id: nat): nat
    decreases |picked| - k
  {
    if k >= |picked| then 0
    else
      (if picked[k] == id && !MarkHolds(script(k)) then 1 else 0)
      + if script(k).stop == Go then LostIn(picked, script, k + 1, id) else 0
  }

  /** The same over a history. */
  function LostMarks(history: seq<Event<Step>>, id: nat): nat {
    if history == [] then 0
    else
      var e := history[|history| - 1];
      LostMarks(history[..|history| - 1], id) + if e.Batch? then LostIn(e.picked, e.script, 0, id) else 0
  }

  predicate InvoiceSane(r: Row) {
    r.route == Finance ==> r.amount.Some? && 0 < r.amount.value < SAFETY_VALVE
  }

  /** At most one row per attempt, and one attempt at most ends with a mark. */
  ghost predicate Bounded(t: Tables, id: nat, lost: nat) {
    && RowsFor(t.rows, OWNER, id) <= (if id in t.mined then 1 else 0) + lost
    && (forall i :: 0 <= i < |t.rows| ==> InvoiceSane(t.rows[i]))
  }

  lemma CandidateSane(id: nat, st: Step)
    requires Candidate(id, st).Some?
    ensures Candidate(id, st).value.email == id && InvoiceSane(Candidate(id, st).value)
  {
    AmountIsLargest(st.matches);
  }

  lemma AfterEmailBounded(t: Tables, picked: nat, st: Step, id: nat, lost: nat)
    requires Bounded(t, id, lost) && picked !in t.mined
    ensures Bounded(AfterEmail(t, picked, st), id, lost + if picked == id && !MarkHolds(st) then 1 else 0)
  {
    if RowLands(picked, st) {
      CandidateSane(picked, st);
      RowsForSnoc(t.rows, OWNER, Candidate(picked, st).value, id);
    }
  }

  lemma {:induction false} AfterBatchBounded(t: Tables, picked: seq<nat>, script: nat -> Step, k: nat,
                                             id: nat, lost: nat)
    requires Bounded(t, id, lost) && Distinct(picked)
    requires forall i :: k <= i < |picked| ==> picked[i] !in t.mined
    ensures Bounded(AfterBatch(t, picked, script, k), id, lost + LostIn(picked, script, k, id))
    decreases |picked| - k
  {
    if k < |picked| {
      AfterEmailBounded(t, picked[k], script(k), id, lost);
      if script(k).stop == Go {
        var lost' := lost + if picked[k] == id && !MarkHolds(script(k)) then 1 else 0;
        AfterBatchBounded(AfterEmail(t, picked[k], script(k)), picked, script, k + 1, id, lost');
      }
    }
  }

  /** Over every history: the rows of a message are at most the attempts on it that
      ended without a committed mark, plus one if it is mined; and every invoice
      row is strictly between 0 and 50,000 dollars. */
  lemma {:induction false} RoutingBounded(archive: map<nat, Email>, history: seq<Event<Step>>, id: nat)
    requires ValidHistory(ROUTER, Start(archive), history)
    ensures var t := After(ROUTER, Start(archive), history).tables;
      && RowsFor(t.rows, OWNER, id) <= (if id in t.mined then 1 else 0) + LostMarks(history, id)
      && forall i :: 0 <= i < |t.rows| ==> InvoiceSane(t.rows[i])
  {
    if history != [] {
      var before, e := history[..|history| - 1], history[|history| - 1];
      assert history == before + [e];
      ValidSnoc(ROUTER, Start(archive), before, e);
      RoutingBounded(archive, before, id);
      if e.Batch? {
        var t := After(ROUTER, Start(archive), before).tables;
        assert forall i :: 0 <= i < |e.picked| ==> e.picked[i] !in t.mined;
        AfterBatchBounded(t, e.picked, e.script, 0, id, LostMarks(before, id));
      }
    }
  }

  // ---- Which row a message becomes --------------------------------------------------------

  /** A number of the text strictly between nothing and ten million dollars. */
  predicate InRange(m: Option<nat>) {
    m.Some? && 0 < m.value < 10_000_000 * 100
  }

  /** The largest such number, or none if there is none. */
  predicate LargestOf(matches: seq<Option<nat>>, amount: Option<nat>) {
    && (forall i :: 0 <= i < |matches| && InRange(matches[i]) ==>
         amount.Some? && matches[i].value <= amount.value)
    && (amount.Some? ==> InRange(amount) && amount in matches)
  }

  /** The row is the message's, in the table of its route, with the largest amount of the
      text; legal rows have none, and invoices one below fifty thousand dollars. */
  predicate Carries(r: Row, id: nat, st: Step) {
    && r.email == id && st.route == Some(r.route)
    && (if r.route == Legal then r.amount.None? else LargestOf(st.matches, r.amount))
    && (r.route == Finance ==> r.amount.Some? && r.amount.value < 50_000 * 100)
  }

  predicate Landed(st: Step) {
    st.commit != Failed && st.stop != KilledBeforeRow
  }

  lemma LargestIsAmount(matches: seq<Option<nat>>, amount: Option<nat>)
    ensures LargestOf(matches, amount) <==> amount == Amount(matches)
  {
    AmountIsLargest(matches);
    if amount.Some? && LargestOf(matches, amount) {
      var i :| 0 <= i < |matches| && matches[i] == amount;
      var j :| 0 <= j < |matches| && matches[j] == Amount(matches);
    }
  }

  lemma CandidateCarries(id: nat, st: Step, r: Row)
    ensures Candidate(id, st) == Some(r) <==> Carries(r, id, st)
  {
    hide Amount, LargestOf;
    LargestIsAmount(st.matches, r.amount);
    AmountIsLargest(st.matches);
  }

  /** One message adds a row exactly if the row is its own and the row's session is committed. */
  lemma EmailStores(t: Tables, id: nat, st: Step, r: Row)
    ensures AfterEmail(t, id, st).rows == t.rows + [r] <==> Carries(r, id, st) && Landed(st)
    ensures AfterEmail(t, id, st).rows == t.rows || exists r' :: AfterEmail(t, id, st).rows == t.rows + [r']
  {
    hide Candidate, Carries;
    var rows := AfterEmail(t, id, st).rows;
    CandidateCarries(id, st, r);
    if RowLands(id, st) {
      assert rows == t.rows + [Candidate(id, st).value];
      assert rows[|t.rows|] == Candidate(id, st).value;
    } else {
      assert |rows| == |t.rows|;
    }
  }

  /** Message number `k` of the event is worked on, and the row it carries is committed. */
  ghost predicate Stores(e: Event<Step>, k: nat, r: Row) {
    && e.Batch? && k < |e.picked| && (forall i :: 0 <= i < k ==> e.script(i).stop == Go)
    && Carries(r, e.picked[k], e.script(k)) && Landed(e.script(k))
  }

  ghost predicate StoredBy(e: Event<Step>, r: Row) {
    exists m: nat :: Stores(e, m, r)
  }

  lemma StoredIntro(e: Event<Step>, m: nat, r: Row)
    requires Stores(e, m, r)
    ensures StoredBy(e, r)
  {
  }

  lemma OneStep(t: Tables, e: Event<Step>, k: nat)
    requires e.Batch? && k < |e.picked| && (forall i :: 0 <= i < k ==> e.script(i).stop == Go)
    ensures var rows := AfterEmail(t, e.picked[k], e.script(k)).rows;
            && t.rows <= rows
            && (forall i :: |t.rows| <= i < |rows| ==> Stores(e, k, rows[i]))
            && (forall r :: Stores(e, k, r) ==> rows == t.rows + [r])
  {
    hide Carries, Landed, AfterEmail;
    var id, st := e.picked[k], e.script(k);
    var rows := AfterEmail(t, id, st).rows;
    EmailStores(t, id, st, Row(0, Legal, None));
    if rows != t.rows {
      var r' :| rows == t.rows + [r'];
      EmailStores(t, id, st, r');
    }
    forall r | Stores(e, k, r) ensures rows == t.rows + [r] {
      EmailStores(t, id, st, r);
    }
  }

  lemma {:induction false} BatchRows(t: Tables, e: Event<Step>, k: nat)
    requires e.Batch? && (forall i :: 0 <= i < k && i < |e.picked| ==> e.script(i).stop == Go)
    ensures var rows := AfterBatch(t, e.picked, e.script, k).rows;
            && t.rows <= rows
            && (forall i :: |t.rows| <= i < |rows| ==> StoredBy(e, rows[i]))
            && (forall m, r :: k <= m && Stores(e, m, r) ==> r in rows)
    decreases if k < |e.picked| then |e.picked| - k else 0
  {
    if k < |e.picked| {
      hide Stores, AfterEmail, StoredBy;
      var t', st := AfterEmail(t, e.picked[k], e.script(k)), e.script(k);
      OneStep(t, e, k);
      forall i | |t.rows| <= i < |t'.rows| ensures StoredBy(e, t'.rows[i]) {
        StoredIntro(e, k, t'.rows[i]);
      }
      if st.stop == Go {
        BatchRows(t', e, k + 1);
        var rows := AfterBatch(t, e.picked, e.script, k).rows;
        forall i | |t.rows| <= i < |rows| ensures StoredBy(e, rows[i]) {
          assert i < |t'.rows| ==> rows[i] == t'.rows[i];
        }
        forall m, r | k <= m && Stores(e, m, r) ensures r in rows {
          assert m == k ==> rows[|t'.rows| - 1] == t'.rows[|t'.rows| - 1];
        }
      } else {
        StoppedStores(e, k);
      }
    }
  }

  lemma StoppedStores(e: Event<Step>, k: nat)
    requires e.Batch? && k < |e.picked| && e.script(k).stop != Go
    ensures forall m, r :: k < m ==> !Stores(e, m, r)
  {
  }

  lemma {:induction false} RowsGrow(archive: map<nat, Email>, history: seq<Event<Step>>, j: nat)
    requires j <= |history|
    ensures After(ROUTER, Start(archive), history[..j]).tables.rows
         <= After(ROUTER, Start(archive), history).tables.rows
    decreases |history|
  {
    if j == |history| {
      assert history[..j] == history;
    } else {
      hide Stores;
      var before, e := history[..|history| - 1], history[|history| - 1];
      assert before[..j] == history[..j];
      RowsGrow(archive, before, j);
      if e.Batch? {
        BatchRows(After(ROUTER, Start(archive), before).tables, e, 0);
      }
    }
  }

  /** Every committed row is the row of a step that worked on its message. */
  lemma {:induction false} RowsComeFrom(archive: map<nat, Email>, history: seq<Event<Step>>, i: nat)
    requires i < |After(ROUTER, Start(archive), history).tables.rows|
    ensures var r := After(ROUTER, Start(archive), history).tables.rows[i];
      exists j :: 0 <= j < |history| && StoredBy(history[j], r)
    decreases |history|
  {
    if history != [] {
      hide StoredBy, Stores;
      var before, e := history[..|history| - 1], history[|history| - 1];
      var t, r := After(ROUTER, Start(archive), before).tables, After(ROUTER, Start(archive), history).tables.rows[i];
      if i < |t.rows| {
        RowsGrow(archive, history, |before|);
        RowsComeFrom(archive, before, i);
        var j :| 0 <= j < |before| && StoredBy(before[j], r);
        assert history[j] == before[j];
      } else {
        BatchRows(t, e, 0);
        assert StoredBy(history[|before|], r);
      }
    }
  }

  /** Conversely, every row a reached step commits stays in the tables. */
  lemma RowsStay(archive: map<nat, Email>, history: seq<Event<Step>>, j: nat, k: nat, r: Row)
    requires j < |history| && Stores(history[j], k, r)
    ensures r in After(ROUTER, Start(archive), history).tables.rows
  {
    BatchRows(After(ROUTER, Start(archive), history[..j]).tables, history[j], 0);
    assert history[..j + 1][..j] == history[..j];
    RowsGrow(archive, history, j + 1);
    var rows := After(ROUTER, Start(archive), history[..j + 1]).tables.rows;
    var all := After(ROUTER, Start(archive), history).tables.rows;
    assert rows == all[..|rows|];
  }

  /** An attempt counts for its route exactly if it has a row and the commit is acknowledged. */
  lemma SucceedsIff(id: nat, st: Step)
    ensures Succeeds(id, st) <==> st.commit == Ok && exists r :: Carries(r, id, st)
  {
    hide Carries, Candidate;
    if Candidate(id, st).Some? {
      CandidateCarries(id, st, Candidate(id, st).value);
    }
    forall r ensures Candidate(id, st) == Some(r) <==> Carries(r, id, st) {
      CandidateCarries(id, st, r);
    }
  }

  /** One lost mark after a committed row: the batch that makes a duplicate. */
  function LosingBatch(): Event<Step> {
    Batch(20, [7], i => Step(Some(Legal), [], Ok, Lost, Go))
  }

  function Repeat(n: nat): seq<Event<Step>> {
    if n == 0 then [] else Repeat(n - 1) + [LosingBatch()]
  }

  /** `n` copies of one message, which is not marked. */
  ghost predicate Duplicated(w: World<Tables>, email: Email, n: nat) {
    w.archive == map[7 := email] && w.tables.mined == {} && RowsFor(w.tables.rows, OWNER, 7) == n
  }

  lemma LosingStep(w: World<Tables>, email: Email, n: nat)
    requires email.content.Some? && |email.content.value| > 50
    requires Duplicated(w, email, n)
    ensures Enabled(ROUTER, w, LosingBatch()) && Duplicated(Apply(ROUTER, w, LosingBatch()), email, n + 1)
    ensures LostIn(LosingBatch().picked, LosingBatch().script, 0, 7) == 1
  {
    assert Waiting(w.archive, w.tables.mined) == {7};
    var e := LosingBatch();
    assert AfterBatch(w.tables, e.picked, e.script, 0) == AfterEmail(w.tables, 7, e.script(0));
    RowsForSnoc(w.tables.rows, OWNER, Row(7, Legal, None), 7);
    assert LostIn(e.picked, e.script, 1, 7) == 0;
  }

  /** The bound is reached: for every number of lost marks there is a valid history
      that leaves one unmined message with that many rows. */
  lemma {:induction false} DuplicatesReachBound(email: Email, n: nat)
    requires email.content.Some? && |email.content.value| > 50
    ensures ValidHistory(ROUTER, Start(map[7 := email]), Repeat(n)) && LostMarks(Repeat(n), 7) == n
    ensures Duplicated(After(ROUTER, Start(map[7 := email]), Repeat(n)), email, n)
  {
    var start := Start(map[7 := email]);
    if n > 0 {
      hide Apply, Enabled, After, ValidHistory, LosingBatch, Duplicated, LostIn;
      var before := Repeat(n - 1);
      DuplicatesReachBound(email, n - 1);
      LosingStep(After(ROUTER, start, before), email, n - 1);
      ValidSnoc(ROUTER, start, before, LosingBatch());
      assert (before + [LosingBatch()])[..|before|] == before;
    }
  }
}
