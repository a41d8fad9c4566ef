/**
 The turnover-to-task generator. The connection commits every statement on its
 own, so a run that dies leaves exactly the statements it got through. A run is
 given the number of writing statements it completes before it dies.
 Times are in minutes since some midnight.
 */
module Groundskeeper {
  import opened Common

  datatype Kind = Cleaning | Inspection | HotTub
  datatype Priority = Urgent | Normal | Low
  datatype Status = Pending | InProgress

  datatype Property = Property(slaMinutes: Option<nat>, hotTubGallons: Option<nat>)
  datatype Turnover = Turnover(prop: string, res: string, checkout: int, checkin: int, window: Option<int>,
                               status: Status)
  datatype Task = Task(kind: Kind, priority: Priority, prop: string, turnover: nat, deadline: int)
  datatype LogEntry =
    | Ingested(count: nat, skipped: nat)
    | Generated(turnover: nat)
    | Complete(tasks: nat, turnovers: nat)

  type Properties = map<string, Property>

  datatype Db = Db(turnovers: map<nat, Turnover>, tasks: seq<Task>, log: seq<LogEntry>, nextId: nat)

  const HOUR: int := 60
  const DAY: int := 1440

  // ---- Ingesting reservations --------------------------------------------------------

  /** A CSV row after date parsing; days count from the same midnight as the times.
      `conflict` is what ON CONFLICT DO NOTHING finds. */
  datatype Reservation = Reservation(res: string, prop: string, depart: Option<int>, arrive: Option<int>,
                                     conflict: bool)

  predicate Accepted(props: Properties, r: Reservation) {
    r.res != "" && r.prop != "" && r.depart.Some? && r.prop in props
  }

  /** Checkout at 11:00, check-in at 16:00, on the same day unless told otherwise. */
  function NewTurnover(r: Reservation): Turnover
    requires r.depart.Some?
  {
    var checkout := r.depart.value * DAY + 11 * HOUR;
    var checkin := (if r.arrive.Some? then r.arrive.value else r.depart.value) * DAY + 16 * HOUR;
    Turnover(r.prop, r.res, checkout, checkin, Some((checkin - checkout) / HOUR), Pending)
  }

  function IngestRow(props: Properties, db: Db, r: Reservation): Db {
    if !Accepted(props, r) then db
    else if r.conflict then db.(nextId := db.nextId + 1)
    else db.(turnovers := db.turnovers[db.nextId := NewTurnover(r)], nextId := db.nextId + 1)
  }

  function IngestRows(props: Properties, db: Db, rows: seq<Reservation>): Db {
    if rows == [] then db else IngestRow(props, IngestRows(props, db, rows[..|rows| - 1]), rows[|rows| - 1])
  }

  function CountAccepted(props: Properties, rows: seq<Reservation>): (n: nat)
    ensures n <= |rows|
  {
    if rows == [] then 0
    else CountAccepted(props, rows[..|rows| - 1]) + if Accepted(props, rows[|rows| - 1]) then 1 else 0
  }

  // ---- The tasks of one turnover --------------------------------------------------------

  function Sla(props: Properties, prop: string): nat {
    if prop in props && props[prop].slaMinutes.Some? && props[prop].slaMinutes.value != 0
    then props[prop].slaMinutes.value else 240
  }

  predicate HasHotTub(props: Properties, prop: string) {
    prop in props && props[prop].hotTubGallons.Some? && props[prop].hotTubGallons.value != 0
  }

  function PriorityOf(window: Option<int>): Priority {
    if window.Some? && window.value != 0 && window.value < 4 then Urgent
    else if window.Some? && window.value != 0 && window.value < 6 then Normal
    else Low
  }

  /** The rows a run inserts for a turnover, in order. */
  function PlanTasks(props: Properties, id: nat, t: Turnover): (tasks: seq<Task>)
    ensures 2 <= |tasks| <= 3 && (|tasks| == 3 <==> HasHotTub(props, t.prop))
  {
    var deadline := t.checkout + HOUR + Sla(props, t.prop);
    [Task(Cleaning, PriorityOf(t.window), t.prop, id, deadline),
     Task(Inspection, Urgent, t.prop, id, deadline + HOUR)]
    + if HasHotTub(props, t.prop) then [Task(HotTub, Normal, t.prop, id, deadline)] else []
  }

  /** Writing statements for one turnover: its tasks, the status update, the log. */
  function Statements(props: Properties, id: nat, t: Turnover): nat {
    |PlanTasks(props, id, t)| + 2
  }

  /** The tables after the first `n` of them. */
  function DoStatements(props: Properties, db: Db, id: nat, n: nat): Db
    requires id in db.turnovers
  {
    var t := db.turnovers[id];
    var plan := PlanTasks(props, id, t);
    db.(tasks := db.tasks + plan[..Min(n, |plan|)],
        turnovers := if n > |plan| then db.turnovers[id := t.(status := InProgress)] else db.turnovers,
        log := if n > |plan| + 1 then db.log + [Generated(id)] else db.log)
  }

  predicate HasCleaning(tasks: seq<Task>, id: nat) {
    exists i :: 0 <= i < |tasks| && tasks[i].turnover == id && tasks[i].kind == Cleaning
  }

  /** The result of a run: the tables, the tasks counted, and whether it lived. */
  datatype RunResult = RunResult(db: Db, created: nat, alive: bool)

  /** A run over the pending turnovers from the `k`-th on, with `budget` statements to live. */
  function RunFrom(props: Properties, db: Db, pending: seq<nat>, k: nat, budget: nat, created: nat): RunResult
    requires forall i :: 0 <= i < |pending| ==> pending[i] in db.turnovers
    decreases |pending| - k
  {
    if k >= |pending| then
      if budget == 0 then RunResult(db, created, false)
      else RunResult(db.(log := db.log + [Complete(created, |pending|)]), created, true)
    else
      var id := pending[k];
      if HasCleaning(db.tasks, id) then RunFrom(props, db, pending, k + 1, budget, created)
      else
        var all := Statements(props, id, db.turnovers[id]);
        if budget < all then RunResult(DoStatements(props, db, id, budget), created, false)
        else
          RunFrom(props, DoStatements(props, db, id, all), pending, k + 1, budget - all,
                  created + |PlanTasks(props, id, db.turnovers[id])|)
  }

  /** `generate_tasks`; it logs nothing when there is nothing pending. */
  function Run(props: Properties, db: Db, pending: seq<nat>, budget: nat): RunResult
    requires forall i :: 0 <= i < |pending| ==> pending[i] in db.turnovers
  {
    if pending == [] then RunResult(db, 0, true) else RunFrom(props, db, pending, 0, budget, 0)
  }

  /** What the query returns: every pending turnover, by checkout time. */
  ghost predicate IsPendingList(db: Db, pending: seq<nat>) {
    && Distinct(pending)
    && (forall id :: id in pending <==> id in db.turnovers && db.turnovers[id].status == Pending)
    && (forall i, j :: 0 <= i < j < |pending| && pending[i] in db.turnovers && pending[j] in db.turnovers ==>
         db.turnovers[pending[i]].checkout <= db.turnovers[pending[j]].checkout)
  }

  // ---- The program ---------------------------------------------------------------

  class Keeper {
    const props: Properties
    var turnovers: map<nat, Turnover>
    var tasks: seq<Task>
    var log: seq<LogEntry>
    var nextId: nat

    constructor (props: Properties)
      ensures this.props == props && Tables() == Db(map[], [], [], 0)
    {
      this.props := props;
      turnovers, tasks, log, nextId := map[], [], [], 0;
    }

    function Tables(): Db
      reads this
    {
      Db(turnovers, tasks, log, nextId)
    }

    method IngestOne(r: Reservation) returns (taken: bool)
      modifies this
      ensures Tables() == IngestRow(props, old(Tables()), r)
      ensures taken <==> Accepted(props, r)
    {
      if r.res == "" || r.prop == "" || r.depart.None? || r.prop !in props {
        return false;
      }
      var checkout := r.depart.value * DAY + 11 * HOUR;
      var checkin := r.depart.value * DAY + 16 * HOUR;
      if r.arrive.Some? {
        checkin := r.arrive.value * DAY + 16 * HOUR;
      }
      if !r.conflict {
        var window := (checkin - checkout) / HOUR;
        turnovers := turnovers[nextId := Turnover(r.prop, r.res, checkout, checkin, Some(window), Pending)];
      }
      nextId := nextId + 1;
      taken := true;
    }

    method IngestReservations(rows: seq<Reservation>) returns (count: nat, skipped: nat)
      modifies this
      ensures var db := IngestRows(props, old(Tables()), rows);
        Tables() == db.(log := db.log + [Ingested(count, skipped)])
      ensures count == CountAccepted(props, rows) && count + skipped == |rows|
    {
      hide IngestRow, Accepted;
      count, skipped := 0, 0;
      for i := 0 to |rows|
        invariant Tables() == IngestRows(props, old(Tables()), rows[..i])
        invariant count == CountAccepted(props, rows[..i]) && count + skipped == i
      {
        assert rows[..i + 1][..i] == rows[..i];
        var taken := IngestOne(rows[i]);
        if taken {
          count := count + 1;
        } else {
          skipped := skipped + 1;
        }
      }
      assert rows[..|rows|] == rows;
      log := log + [Ingested(count, skipped)];
    }

    /** The statements for one turnover; `left` is what remains of the budget. */
    method GenerateFor(id: nat, budget: nat) returns (alive: bool, left: nat, made: nat)
      requires id in turnovers
      modifies this`turnovers, this`tasks, this`log
      ensures var all := Statements(props, id, old(turnovers[id]));
        && Tables() == DoStatements(props, old(Tables()), id, Min(budget, all))
        && (alive <==> budget >= all)
        && (alive ==> left == budget - all && made == |PlanTasks(props, id, old(turnovers[id]))|)
    {
      alive, left, made := false, budget, 0;
      var t := turnovers[id];
      var cleanDeadline := t.checkout + HOUR + Sla(props, t.prop);
      if left == 0 { return; }
      tasks := tasks + [Task(Cleaning, PriorityOf(t.window), t.prop, id, cleanDeadline)];
      left := left - 1;
      if left == 0 { return; }
      tasks := tasks + [Task(Inspection, Urgent, t.prop, id, cleanDeadline + HOUR)];
      left := left - 1;
      if HasHotTub(props, t.prop) {
        if left == 0 { return; }
        tasks := tasks + [Task(HotTub, Normal, t.prop, id, cleanDeadline)];
        left := left - 1;
        made := made + 1;
      }
      assert tasks == old(tasks) + PlanTasks(props, id, t);
      if left == 0 { return; }
      turnovers := turnovers[id := t.(status := InProgress)];
      left := left - 1;
      made := made + 2;
      if left == 0 { return; }
      log := log + [Generated(id)];
      left := left - 1;
      alive := true;
    }

    method GenerateTasks(pending: seq<nat>, budget: nat) returns (alive: bool, created: nat)
      requires forall i :: 0 <= i < |pending| ==> pending[i] in turnovers
      modifies this`turnovers, this`tasks, this`log
      ensures Run(props, old(Tables()), pending, budget) == RunResult(Tables(), created, alive)
    {
      hide HasCleaning, DoStatements, Statements, PlanTasks;
      created := 0;
      if pending == [] {
        return true, 0;
      }
      var left := budget;
      var k := 0;
      ghost var result := Run(props, Tables(), pending, budget);
      while k < |pending|
        invariant 0 <= k <= |pending|
        invariant forall i :: 0 <= i < |pending| ==> pending[i] in turnovers
        invariant RunFrom(props, Tables(), pending, k, left, created) == result
      {
        var id := pending[k];
        if !HasCleaning(tasks, id) {
          var made: nat;
          StatementsKeepKeys(props, Tables(), id, Min(left, Statements(props, id, turnovers[id])));
          alive, left, made := GenerateFor(id, left);
          if !alive {
            return;
          }
          created := created + made;
        }
        k := k + 1;
      }
      if left == 0 {
        return false, created;
      }
      log := log + [Complete(created, |pending|)];
      alive := true;
    }
  }

  lemma StatementsKeepKeys(props: Properties, db: Db, id: nat, n: nat)
    requires id in db.turnovers
    ensures DoStatements(props, db, id, n).turnovers.Keys == db.turnovers.Keys
  {
  }
}
