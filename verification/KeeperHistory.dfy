/** What every history of ingestion and task generation keeps, seen one turnover at a time. */
module KeeperHistory {
  import opened Common
  import opened Groundskeeper

  // ---- One turnover's share of the tables ----------------------------------------------

  datatype View = View(t: Turnover, tasks: seq<Task>)

  function TasksOf(tasks: seq<Task>, id: nat): seq<Task> {
    if tasks == [] then []
    else TasksOf(tasks[..|tasks| - 1], id) + if tasks[|tasks| - 1].turnover == id then [tasks[|tasks| - 1]] else []
  }

  function ViewOf(db: Db, id: nat): View
    requires id in db.turnovers
  {
    View(db.turnovers[id], TasksOf(db.tasks, id))
  }

  lemma {:induction false} TasksOfConcat(a: seq<Task>, b: seq<Task>, id: nat)
    ensures TasksOf(a + b, id) == TasksOf(a, id) + TasksOf(b, id)
  {
    if b == [] {
      assert a + b == a;
    } else {
      assert (a + b)[..|a + b| - 1] == a + b[..|b| - 1];
      TasksOfConcat(a, b[..|b| - 1], id);
    }
  }

  lemma {:induction false} TasksOfOne(s: seq<Task>, owner: nat, id: nat)
    requires forall i :: 0 <= i < |s| ==> s[i].turnover == owner
    ensures TasksOf(s, id) == if id == owner then s else []
  {
    if s != [] {
      TasksOfOne(s[..|s| - 1], owner, id);
      assert s == s[..|s| - 1] + [s[|s| - 1]];
    }
  }

  lemma {:induction false} HasCleaningView(tasks: seq<Task>, id: nat)
    ensures HasCleaning(tasks, id) <==> HasCleaning(TasksOf(tasks, id), id)
  {
    if tasks != [] {
      var front, last := tasks[..|tasks| - 1], tasks[|tasks| - 1];
      HasCleaningView(front, id);
      assert tasks == front + [last];
      HasCleaningSnoc(front, last, id);
      HasCleaningSnoc(TasksOf(front, id), last, id);
      assert TasksOf(tasks, id) == TasksOf(front, id) + if last.turnover == id then [last] else [];
      if last.turnover != id {
        assert TasksOf(tasks, id) == TasksOf(front, id);
      }
    }
  }

  lemma HasCleaningSnoc(s: seq<Task>, x: Task, id: nat)
    ensures HasCleaning(s + [x], id) <==> HasCleaning(s, id) || (x.turnover == id && x.kind == Cleaning)
  {
    assert (s + [x])[|s|] == x;
    if HasCleaning(s, id) {
      var i :| 0 <= i < |s| && s[i].turnover == id && s[i].kind == Cleaning;
      assert (s + [x])[i] == s[i];
    }
  }

  /** What the first `n` statements do to the turnover they are for. */
  function Local(props: Properties, id: nat, v: View, n: nat): View {
    var plan := PlanTasks(props, id, v.t);
    View(if n > |plan| then v.t.(status := InProgress) else v.t, v.tasks + plan[..Min(n, |plan|)])
  }

  lemma StatementsView(props: Properties, db: Db, id: nat, n: nat, other: nat)
    requires id in db.turnovers && other in db.turnovers
    ensures other in DoStatements(props, db, id, n).turnovers
    ensures ViewOf(DoStatements(props, db, id, n), other)
         == if other == id then Local(props, id, ViewOf(db, id), n) else ViewOf(db, other)
  {
    hide PlanTasks, TasksOf;
    var plan := PlanTasks(props, id, db.turnovers[id]);
    PlanOwner(props, id, db.turnovers[id]);
    var added := plan[..Min(n, |plan|)];
    TasksOfConcat(db.tasks, added, other);
    TasksOfOne(added, id, other);
  }

  lemma PlanOwner(props: Properties, id: nat, t: Turnover)
    ensures forall i :: 0 <= i < |PlanTasks(props, id, t)| ==> PlanTasks(props, id, t)[i].turnover == id
  {
  }

  /** How many statements for turnover `id` a run gets through. */
  function Executed(props: Properties, db: Db, pending: seq<nat>, k: nat, budget: nat, id: nat): nat
    requires forall i :: 0 <= i < |pending| ==> pending[i] in db.turnovers
    decreases |pending| - k
  {
    if k >= |pending| then 0
    else
      var p := pending[k];
      if HasCleaning(db.tasks, p) then Executed(props, db, pending, k + 1, budget, id)
      else
        var all := Statements(props, p, db.turnovers[p]);
        if budget < all then (if p == id then budget else 0)
        else if p == id then all
        else Executed(props, DoStatements(props, db, p, all), pending, k + 1, budget - all, id)
  }

  lemma NeverReached(props: Properties, db: Db, pending: seq<nat>, k: nat, budget: nat, created: nat, id: nat)
    requires forall i :: 0 <= i < |pending| ==> pending[i] in db.turnovers
    requires id in db.turnovers
    requires HasCleaning(db.tasks, id) || forall i :: k <= i < |pending| ==> pending[i] != id
    ensures Executed(props, db, pending, k, budget, id) == 0
    ensures var r := RunFrom(props, db, pending, k, budget, created).db;
      id in r.turnovers && ViewOf(r, id) == ViewOf(db, id)
    decreases |pending| - k
  {
    hide PlanTasks, TasksOf, HasCleaning, DoStatements;
    if k < |pending| {
      var p := pending[k];
      if HasCleaning(db.tasks, p) {
        NeverReached(props, db, pending, k + 1, budget, created, id);
      } else {
        var all := Statements(props, p, db.turnovers[p]);
        StatementsView(props, db, p, Min(budget, all), id);
        if budget >= all {
          var db' := DoStatements(props, db, p, all);
          StatementsKeepKeys(props, db, p, all);
          HasCleaningView(db.tasks, id);
          HasCleaningView(db'.tasks, id);
          NeverReached(props, db', pending, k + 1, budget - all, created + |PlanTasks(props, p, db.turnovers[p])|, id);
        }
      }
    }
  }

  lemma LocalNothing(props: Properties, id: nat, v: View)
    ensures Local(props, id, v, 0) == v
  {
    assert v.tasks + PlanTasks(props, id, v.t)[..0] == v.tasks;
  }

  /** A run changes each turnover's share exactly by the statements it got through for it. */
  lemma {:induction false} RunView(props: Properties, db: Db, pending: seq<nat>, k: nat, budget: nat, created: nat,
                                   id: nat)
    requires forall i :: 0 <= i < |pending| ==> pending[i] in db.turnovers
    requires Distinct(pending) && id in db.turnovers
    ensures var r := RunFrom(props, db, pending, k, budget, created).db;
      && id in r.turnovers
      && ViewOf(r, id) == Local(props, id, ViewOf(db, id), Executed(props, db, pending, k, budget, id))
    decreases |pending| - k
  {
    hide DoStatements, PlanTasks, HasCleaning, TasksOf, Local;
    LocalNothing(props, id, ViewOf(db, id));
    if k < |pending| {
      var p := pending[k];
      if HasCleaning(db.tasks, p) {
        RunView(props, db, pending, k + 1, budget, created, id);
      } else {
        var all := Statements(props, p, db.turnovers[p]);
        StatementsView(props, db, p, Min(budget, all), id);
        if budget >= all {
          StatementsKeepKeys(props, db, p, all);
          var db' := DoStatements(props, db, p, all);
          var created' := created + |PlanTasks(props, p, db.turnovers[p])|;
          if p == id {
            NeverReached(props, db', pending, k + 1, budget - all, created', id);
          } else {
            RunView(props, db', pending, k + 1, budget - all, created', id);
          }
        }
      }
    }
  }

  /** A run that lives does everything for every pending turnover without a cleaning. */
  lemma {:induction false} AliveDoesAll(props: Properties, db: Db, pending: seq<nat>, k: nat, budget: nat, created: nat,
                                        j: nat)
    requires forall i :: 0 <= i < |pending| ==> pending[i] in db.turnovers
    requires Distinct(pending) && k <= j < |pending| && !HasCleaning(db.tasks, pending[j])
    requires RunFrom(props, db, pending, k, budget, created).alive
    ensures Executed(props, db, pending, k, budget, pending[j])
         == Statements(props, pending[j], db.turnovers[pending[j]])
    decreases |pending| - k
  {
    hide PlanTasks, TasksOf, HasCleaning, DoStatements;
    var p := pending[k];
    if HasCleaning(db.tasks, p) {
      AliveDoesAll(props, db, pending, k + 1, budget, created, j);
    } else if k < j {
      var all := Statements(props, p, db.turnovers[p]);
      var db' := DoStatements(props, db, p, all);
      StatementsKeepKeys(props, db, p, all);
      StatementsView(props, db, p, all, pending[j]);
      HasCleaningView(db.tasks, pending[j]);
      HasCleaningView(db'.tasks, pending[j]);
      AliveDoesAll(props, db', pending, k + 1, budget - all, created + |PlanTasks(props, p, db.turnovers[p])|, j);
    }
  }

  // ---- The invariant ---------------------------------------------------------------

  /** Window and times of an ingested turnover. */
  predicate TimesOk(t: Turnover) {
    && t.window.Some?
    && t.checkin == t.checkout + HOUR * t.window.value
    && (t.window.value - 5) % 24 == 0
    && t.checkout % DAY == 11 * HOUR
  }

  /** The tasks of a turnover are a prefix of its plan, all of it once in progress. */
  predicate ViewOk(props: Properties, id: nat, v: View) {
    var plan := PlanTasks(props, id, v.t);
    && TimesOk(v.t)
    && v.tasks <= plan
    && (v.t.status == InProgress ==> v.tasks == plan)
  }

  ghost predicate Sane(props: Properties, db: Db) {
    && (forall id :: id in db.turnovers ==> id < db.nextId && ViewOk(props, id, ViewOf(db, id)))
    && (forall i :: 0 <= i < |db.tasks| ==> db.tasks[i].turnover in db.turnovers)
  }

  lemma PlanCleaning(props: Properties, id: nat, v: View)
    requires ViewOk(props, id, v)
    ensures HasCleaning(v.tasks, id) <==> v.tasks != []
    ensures v.tasks != [] ==> v.tasks[0].kind == Cleaning
  {
    if v.tasks != [] {
      assert v.tasks[0] == PlanTasks(props, id, v.t)[0];
    }
  }

  lemma PlanIgnoresStatus(props: Properties, id: nat, t: Turnover)
    ensures PlanTasks(props, id, t.(status := InProgress)) == PlanTasks(props, id, t)
  {
  }

  lemma LocalOk(props: Properties, id: nat, v: View, n: nat)
    requires ViewOk(props, id, v) && (n > 0 ==> v.tasks == [] && v.t.status == Pending)
    ensures ViewOk(props, id, Local(props, id, v, n))
  {
    hide PlanTasks;
    PlanIgnoresStatus(props, id, v.t);
    assert v.tasks + PlanTasks(props, id, v.t)[..0] == v.tasks;
  }

  lemma {:induction false} ExecutedMeansFresh(props: Properties, db: Db, pending: seq<nat>, k: nat, budget: nat,
                                              id: nat)
    requires forall i :: 0 <= i < |pending| ==> pending[i] in db.turnovers
    requires id in db.turnovers && Executed(props, db, pending, k, budget, id) > 0
    ensures id in pending && !HasCleaning(db.tasks, id)
  {
    if HasCleaning(db.tasks, id) || id !in pending {
      NeverReached(props, db, pending, k, budget, 0, id);
    }
  }

  lemma StatementsTasks(props: Properties, db: Db, id: nat, n: nat)
    requires id in db.turnovers
    ensures var db' := DoStatements(props, db, id, n);
      && db'.turnovers.Keys == db.turnovers.Keys && db'.nextId == db.nextId
      && |db'.tasks| == |db.tasks| + Min(n, |PlanTasks(props, id, db.turnovers[id])|)
      && forall i :: 0 <= i < |db'.tasks| ==> db'.tasks[i].turnover == id || db'.tasks[i] in db.tasks
  {
  }

  /** The count a run reports is the growth of the task table. */
  lemma {:induction false} RunGrowth(props: Properties, db: Db, pending: seq<nat>, k: nat, budget: nat, created: nat)
    requires forall i :: 0 <= i < |pending| ==> pending[i] in db.turnovers
    ensures var r := RunFrom(props, db, pending, k, budget, created);
      && r.db.turnovers.Keys == db.turnovers.Keys && r.db.nextId == db.nextId
      && r.created - created <= |r.db.tasks| - |db.tasks|
      && (r.alive ==> r.created - created == |r.db.tasks| - |db.tasks|)
      && forall i :: 0 <= i < |r.db.tasks| ==> r.db.tasks[i].turnover in pending || r.db.tasks[i] in db.tasks
    decreases |pending| - k
  {
    hide DoStatements, PlanTasks, HasCleaning;
    if k < |pending| {
      var p := pending[k];
      if HasCleaning(db.tasks, p) {
        RunGrowth(props, db, pending, k + 1, budget, created);
      } else {
        var all := Statements(props, p, db.turnovers[p]);
        StatementsTasks(props, db, p, Min(budget, all));
        if budget >= all {
          RunGrowth(props, DoStatements(props, db, p, all), pending, k + 1, budget - all,
                    created + |PlanTasks(props, p, db.turnovers[p])|);
        }
      }
    }
  }

  // ---- Histories ---------------------------------------------------------------------

  datatype Event = Ingest(rows: seq<Reservation>) | Generate(pending: seq<nat>, budget: nat)

  ghost predicate Enabled(db: Db, e: Event) {
    e.Generate? ==> IsPendingList(db, e.pending)
  }

  ghost function Apply(props: Properties, db: Db, e: Event): Db
    requires Enabled(db, e)
  {
    match e
    case Ingest(rows) =>
      var count, db' := CountAccepted(props, rows), IngestRows(props, db, rows);
      db'.(log := db'.log + [Ingested(count, |rows| - count)])
    case Generate(pending, budget) => Run(props, db, pending, budget).db
  }

  /** The tables after a history in which every query returned what it should. */
  ghost function After(props: Properties, db: Db, history: seq<Event>): Option<Db> {
    if history == [] then Some(db)
    else
      var before, e := After(props, db, history[..|history| - 1]), history[|history| - 1];
      if before.Some? && Enabled(before.value, e) then Some(Apply(props, before.value, e)) else None
  }

  const EMPTY: Db := Db(map[], [], [], 0)

  lemma {:induction false} NoTasks(tasks: seq<Task>, id: nat)
    requires forall i :: 0 <= i < |tasks| ==> tasks[i].turnover < id
    ensures TasksOf(tasks, id) == []
  {
    if tasks != [] {
      NoTasks(tasks[..|tasks| - 1], id);
    }
  }

  lemma NewTurnoverOk(r: Reservation)
    requires r.depart.Some?
    ensures TimesOk(NewTurnover(r))
  {
  }

  lemma IngestRowSane(props: Properties, db: Db, r: Reservation)
    requires Sane(props, db)
    ensures Sane(props, IngestRow(props, db, r))
    ensures forall id :: id in db.turnovers ==>
      id in IngestRow(props, db, r).turnovers && ViewOf(IngestRow(props, db, r), id) == ViewOf(db, id)
  {
    var db' := IngestRow(props, db, r);
    if Accepted(props, r) {
      NewTurnoverOk(r);
      NoTasks(db.tasks, db.nextId);
      forall id | id in db'.turnovers ensures id < db'.nextId && ViewOk(props, id, ViewOf(db', id)) {
        if id in db.turnovers && id != db.nextId {
          assert ViewOk(props, id, ViewOf(db, id));
          assert ViewOf(db', id) == ViewOf(db, id);
        }
      }
    }
  }

  lemma {:induction false} IngestSane(props: Properties, db: Db, rows: seq<Reservation>)
    requires Sane(props, db)
    ensures Sane(props, IngestRows(props, db, rows))
    ensures forall id :: id in db.turnovers ==>
      id in IngestRows(props, db, rows).turnovers && ViewOf(IngestRows(props, db, rows), id) == ViewOf(db, id)
  {
    hide Sane, TasksOf, IngestRow;
    if rows != [] {
      IngestSane(props, db, rows[..|rows| - 1]);
      IngestRowSane(props, IngestRows(props, db, rows[..|rows| - 1]), rows[|rows| - 1]);
    }
  }

  lemma RunSane(props: Properties, db: Db, pending: seq<nat>, budget: nat)
    requires Sane(props, db) && IsPendingList(db, pending)
    ensures Sane(props, Run(props, db, pending, budget).db)
  {
    hide RunFrom, PlanTasks, ViewOk, TasksOf, Executed, Local, HasCleaning;
    if pending != [] {
      var r := RunFrom(props, db, pending, 0, budget, 0).db;
      RunGrowth(props, db, pending, 0, budget, 0);
      forall id | id in r.turnovers ensures id < r.nextId && ViewOk(props, id, ViewOf(r, id)) {
        RunView(props, db, pending, 0, budget, 0, id);
        RunLocalOk(props, db, pending, budget, id);
      }
    }
  }

  lemma RunLocalOk(props: Properties, db: Db, pending: seq<nat>, budget: nat, id: nat)
    requires Sane(props, db) && IsPendingList(db, pending) && id in db.turnovers
    ensures ViewOk(props, id, Local(props, id, ViewOf(db, id), Executed(props, db, pending, 0, budget, id)))
  {
    var n := Executed(props, db, pending, 0, budget, id);
    if n > 0 {
      ExecutedMeansFresh(props, db, pending, 0, budget, id);
      HasCleaningView(db.tasks, id);
      PlanCleaning(props, id, ViewOf(db, id));
    }
    LocalOk(props, id, ViewOf(db, id), n);
  }

  /** After any history of imports and runs that die anywhere, every turnover's tasks
      are a prefix of its plan, and all of the plan once it is in progress. */
  lemma {:induction false} KeeperSane(props: Properties, history: seq<Event>)
    requires After(props, EMPTY, history).Some?
    ensures Sane(props, After(props, EMPTY, history).value)
  {
    if history != [] {
      var before, e := history[..|history| - 1], history[|history| - 1];
      KeeperSane(props, before);
      var db := After(props, EMPTY, before).value;
      match e {
        case Ingest(rows) =>
          IngestSane(props, db, rows);
          LogIrrelevant(props, IngestRows(props, db, rows), Apply(props, db, e));
        case Generate(pending, budget) => RunSane(props, db, pending, budget);
      }
    }
  }

  lemma LogIrrelevant(props: Properties, a: Db, b: Db)
    requires Sane(props, a) && b == a.(log := b.log)
    ensures Sane(props, b)
  {
    forall id | id in b.turnovers ensures id < b.nextId && ViewOk(props, id, ViewOf(b, id)) {
      assert ViewOf(b, id) == ViewOf(a, id);
    }
  }

  function CountKind(tasks: seq<Task>, kind: Kind): nat {
    if tasks == [] then 0
    else CountKind(tasks[..|tasks| - 1], kind) + if tasks[|tasks| - 1].kind == kind then 1 else 0
  }

  /** The property has a hot tub with water in it. */
  predicate HasTub(props: Properties, prop: string) {
    prop in props && props[prop].hotTubGallons.Some? && props[prop].hotTubGallons.value > 0
  }

  /** The minutes a cleaning may take: the property's own figure, or four hours without one. */
  predicate CleaningTakes(props: Properties, prop: string, minutes: nat) {
    if prop in props && props[prop].slaMinutes.Some? && props[prop].slaMinutes.value > 0
    then minutes == props[prop].slaMinutes.value else minutes == 4 * 60
  }

  /** What the invariant means for the task types of one turnover. */
  lemma TypesOnce(props: Properties, db: Db, id: nat)
    requires Sane(props, db) && id in db.turnovers
    ensures forall kind :: CountKind(TasksOf(db.tasks, id), kind) <= 1
    ensures db.turnovers[id].status == InProgress ==>
      && CountKind(TasksOf(db.tasks, id), Cleaning) == 1 && CountKind(TasksOf(db.tasks, id), Inspection) == 1
      && (CountKind(TasksOf(db.tasks, id), HotTub) == 1 <==> HasTub(props, db.turnovers[id].prop))
  {
    var s, plan := TasksOf(db.tasks, id), PlanTasks(props, id, db.turnovers[id]);
    assert ViewOk(props, id, ViewOf(db, id));
    assert s == plan[..|s|];
    PrefixKinds(plan, |s|);
  }

  lemma PrefixKinds(plan: seq<Task>, n: nat)
    requires 2 <= |plan| <= 3 && n <= |plan|
    requires plan[0].kind == Cleaning && plan[1].kind == Inspection && (|plan| == 3 ==> plan[2].kind == HotTub)
    ensures CountKind(plan[..n], Cleaning) == (if n >= 1 then 1 else 0)
    ensures CountKind(plan[..n], Inspection) == (if n >= 2 then 1 else 0)
    ensures CountKind(plan[..n], HotTub) == (if n >= 3 then 1 else 0)
  {
    if n >= 1 {
      assert plan[..n][..n - 1] == plan[..n - 1];
      PrefixKinds(plan, n - 1);
    }
  }

  // ---- Frozen turnovers, fixpoint and recovery ------------------------------------------

  lemma StepFrozen(props: Properties, db: Db, e: Event, id: nat)
    requires Sane(props, db) && Enabled(db, e) && id in db.turnovers && TasksOf(db.tasks, id) != []
    ensures id in Apply(props, db, e).turnovers && ViewOf(Apply(props, db, e), id) == ViewOf(db, id)
  {
    match e {
      case Ingest(rows) =>
        IngestSane(props, db, rows);
      case Generate(pending, budget) =>
        assert ViewOk(props, id, ViewOf(db, id));
        PlanCleaning(props, id, ViewOf(db, id));
        HasCleaningView(db.tasks, id);
        if pending != [] {
          NeverReached(props, db, pending, 0, budget, 0, id);
        }
    }
  }

  /** Once a turnover has its CLEANING task, no later event changes it or its tasks,
      whether or not the run that made the task got to finish it. */
  lemma {:induction false} FrozenForever(props: Properties, history: seq<Event>, i: nat, id: nat)
    requires After(props, EMPTY, history).Some? && i <= |history| && After(props, EMPTY, history[..i]).Some?
    requires var db := After(props, EMPTY, history[..i]).value;
      id in db.turnovers && HasCleaning(db.tasks, id)
    ensures var db, db' := After(props, EMPTY, history[..i]).value, After(props, EMPTY, history).value;
      id in db'.turnovers && ViewOf(db', id) == ViewOf(db, id)
    decreases |history|
  {
    if i == |history| {
      assert history[..i] == history;
    } else {
      var before, e := history[..|history| - 1], history[|history| - 1];
      assert before[..i] == history[..i];
      FrozenForever(props, before, i, id);
      KeeperSane(props, before);
      HasCleaningView(After(props, EMPTY, history[..i]).value.tasks, id);
      StepFrozen(props, After(props, EMPTY, before).value, e, id);
    }
  }

  lemma {:induction false} NoWork(props: Properties, db: Db, pending: seq<nat>, k: nat, budget: nat, created: nat)
    requires forall i :: 0 <= i < |pending| ==> pending[i] in db.turnovers && HasCleaning(db.tasks, pending[i])
    ensures var r := RunFrom(props, db, pending, k, budget, created).db;
      r.turnovers == db.turnovers && r.tasks == db.tasks
    decreases |pending| - k
  {
    if k < |pending| {
      NoWork(props, db, pending, k + 1, budget, created);
    }
  }

  /** A pending turnover is left after a run that lived only if it already had a CLEANING task. */
  lemma AliveLeavesCleaned(props: Properties, db: Db, pending: seq<nat>, budget: nat, id: nat)
    requires Sane(props, db) && IsPendingList(db, pending) && Run(props, db, pending, budget).alive
    requires var r := Run(props, db, pending, budget).db; id in r.turnovers && r.turnovers[id].status == Pending
    ensures id in db.turnovers && HasCleaning(db.tasks, id) && HasCleaning(Run(props, db, pending, budget).db.tasks, id)
  {
    if pending == [] {
      assert false;
    } else {
      var r := RunFrom(props, db, pending, 0, budget, 0).db;
      RunGrowth(props, db, pending, 0, budget, 0);
      RunView(props, db, pending, 0, budget, 0, id);
      assert id in pending;
      if !HasCleaning(db.tasks, id) {
        var j :| 0 <= j < |pending| && pending[j] == id;
        AliveDoesAll(props, db, pending, 0, budget, 0, j);
      }
      NeverReached(props, db, pending, 0, budget, 0, id);
      HasCleaningView(db.tasks, id);
      HasCleaningView(r.tasks, id);
    }
  }

  /** After a run that lived, another run changes nothing in turnovers or tasks. */
  lemma RerunChangesNothing(props: Properties, db: Db, pending: seq<nat>, budget: nat, pending': seq<nat>, budget': nat)
    requires Sane(props, db) && IsPendingList(db, pending) && Run(props, db, pending, budget).alive
    requires IsPendingList(Run(props, db, pending, budget).db, pending')
    ensures var r := Run(props, db, pending, budget).db; var r' := Run(props, r, pending', budget').db;
      r'.turnovers == r.turnovers && r'.tasks == r.tasks
  {
    var r := Run(props, db, pending, budget).db;
    forall i | 0 <= i < |pending'| ensures pending'[i] in r.turnovers && HasCleaning(r.tasks, pending'[i]) {
      assert pending'[i] in pending';
      AliveLeavesCleaned(props, db, pending, budget, pending'[i]);
    }
    NoWork(props, r, pending', 0, budget', 0);
  }

  /** A run that dies and a run that lives after it leave a turnover as one run that
      lives would, if and only if the death did not fall between the turnover's first
      task and its status update. If it did, the turnover stays pending for ever with
      the tasks it had. */
  lemma CrashRecovery(props: Properties, db: Db, pending: seq<nat>, budget: nat,
                      pending': seq<nat>, budget': nat, enough: nat, id: nat)
    requires Sane(props, db) && IsPendingList(db, pending) && id in pending && TasksOf(db.tasks, id) == []
    requires IsPendingList(Run(props, db, pending, budget).db, pending')
    requires Run(props, Run(props, db, pending, budget).db, pending', budget').alive
    requires Run(props, db, pending, enough).alive
    ensures var once := Run(props, db, pending, enough).db;
      var twice := Run(props, Run(props, db, pending, budget).db, pending', budget').db;
      var plan, n := PlanTasks(props, id, db.turnovers[id]), Executed(props, db, pending, 0, budget, id);
      && id in once.turnovers && id in twice.turnovers
      && (ViewOf(twice, id) == ViewOf(once, id) <==> n == 0 || n > |plan|)
      && (1 <= n <= |plan| ==> ViewOf(twice, id) == View(db.turnovers[id], plan[..n]))
  {
    var v, plan := ViewOf(db, id), PlanTasks(props, id, db.turnovers[id]);
    var n := Executed(props, db, pending, 0, budget, id);
    FreshRun(props, db, pending, enough, id);
    RunView(props, db, pending, 0, budget, 0, id);
    RunSane(props, db, pending, budget);
    var mid := Run(props, db, pending, budget).db;
    LocalNothing(props, id, v);
    if n == 0 {
      assert id in pending';
      FreshRun(props, mid, pending', budget', id);
    } else {
      assert ViewOf(mid, id) == Local(props, id, v, n);
      assert ViewOf(mid, id).tasks == plan[..Min(n, |plan|)] != [];
      StepFrozen(props, mid, Generate(pending', budget'), id);
    }
  }

  /** A run that lives completes a pending turnover that has no tasks yet. */
  lemma FreshRun(props: Properties, db: Db, pending: seq<nat>, budget: nat, id: nat)
    requires IsPendingList(db, pending) && id in pending && TasksOf(db.tasks, id) == []
    requires Run(props, db, pending, budget).alive
    ensures var r := Run(props, db, pending, budget).db;
      id in r.turnovers
      && ViewOf(r, id) == View(db.turnovers[id].(status := InProgress), PlanTasks(props, id, db.turnovers[id]))
  {
    HasCleaningView(db.tasks, id);
    var j :| 0 <= j < |pending| && pending[j] == id;
    AliveDoesAll(props, db, pending, 0, budget, 0, j);
    RunView(props, db, pending, 0, budget, 0, id);
  }

  // ---- Time arithmetic from reservation to task -------------------------------------------

  /** The days between departure and the next arrival. */
  function Gap(r: Reservation): int
    requires r.depart.Some?
  {
    if r.arrive.Some? then r.arrive.value - r.depart.value else 0
  }

  /** Window, priority, deadlines and inspection slack follow from the day gap and the SLA alone. */
  lemma ReservationToTasks(props: Properties, r: Reservation, id: nat, sla: nat)
    requires r.depart.Some? && CleaningTakes(props, r.prop, sla)
    ensures var t, d := NewTurnover(r), Gap(r); var plan := PlanTasks(props, id, t);
      && t.window == Some(5 + 24 * d)
      && (plan[0].priority == Urgent <==> d < 0)
      && (plan[0].priority == Normal <==> d == 0)
      && (plan[0].priority == Low <==> d > 0)
      && plan[0].deadline == t.checkout + 60 + sla
      && (forall i :: 0 <= i < |plan| ==>
           plan[i].deadline == plan[0].deadline + if plan[i].kind == Inspection then 60 else 0)
      && (plan[1].deadline <= t.checkin <==> sla <= 60 * (5 + 24 * d) - 120)
      && (d == 0 && sla == 240 ==> plan[1].deadline == t.checkin + 60)
  {
  }

  // ---- What is in the tables, from the file and the properties ---------------------------------

  /** The task is one its turnover calls for: its property, a deadline after the cleaning's
      minutes, a priority by the window's length, and a tub check only where there is a tub. */
  ghost predicate CalledFor(props: Properties, t: Turnover, task: Task) {
    && task.prop == t.prop
    && (forall minutes :: CleaningTakes(props, t.prop, minutes) ==>
         task.deadline == t.checkout + 60 + minutes + if task.kind == Inspection then 60 else 0)
    && (task.kind == Inspection ==> task.priority == Urgent)
    && (task.kind == HotTub ==> task.priority == Normal && HasTub(props, t.prop))
    && (task.kind == Cleaning ==>
         && (task.priority == Urgent <==> t.checkin < t.checkout)
         && (task.priority == Normal <==> t.checkin == t.checkout + 5 * 60))
  }

  lemma {:induction false} TaskInShare(tasks: seq<Task>, i: nat)
    requires i < |tasks|
    ensures tasks[i] in TasksOf(tasks, tasks[i].turnover)
  {
    if i < |tasks| - 1 {
      TaskInShare(tasks[..|tasks| - 1], i);
    }
  }

  lemma PlanCalledFor(props: Properties, id: nat, t: Turnover, task: Task)
    requires TimesOk(t) && task in PlanTasks(props, id, t)
    ensures CalledFor(props, t, task)
  {
  }

  /** The cleaning is urgent for a gap below four hours and normal for one of four or five;
      a missing gap and one of exactly zero count as long ones. */
  lemma PriorityByGap(props: Properties, id: nat, t: Turnover)
    ensures var cleaning := PlanTasks(props, id, t)[0];
            && cleaning.kind == Cleaning
            && (cleaning.priority == Urgent <==> t.window.Some? && t.window.value != 0 && t.window.value <= 3)
            && (cleaning.priority == Normal <==> t.window.Some? && 4 <= t.window.value <= 5)
  {
  }

  /** After any history every task is one its turnover calls for. */
  lemma TasksCalledFor(props: Properties, history: seq<Event>, i: nat)
    requires After(props, EMPTY, history).Some? && i < |After(props, EMPTY, history).value.tasks|
    ensures var db := After(props, EMPTY, history).value;
      db.tasks[i].turnover in db.turnovers && CalledFor(props, db.turnovers[db.tasks[i].turnover], db.tasks[i])
  {
    hide After, TasksOf, PlanTasks, CalledFor, TimesOk;
    KeeperSane(props, history);
    var db := After(props, EMPTY, history).value;
    var id := db.tasks[i].turnover;
    TaskInShare(db.tasks, i);
    assert ViewOk(props, id, ViewOf(db, id));
    PlanCalledFor(props, id, db.turnovers[id], db.tasks[i]);
  }

  /** The row is complete, for a known property, not held back by a conflict, and the
      turnover is its: out at 11:00, in at 16:00 of the arrival day, or the same day without one. */
  predicate Makes(props: Properties, r: Reservation, t: Turnover) {
    && r.res != "" && r.prop != "" && r.depart.Some? && r.prop in props && !r.conflict
    && t.res == r.res && t.prop == r.prop
    && t.checkout == r.depart.value * 1440 + 11 * 60
    && t.checkin == (if r.arrive.Some? then r.arrive.value else r.depart.value) * 1440 + 16 * 60
  }

  predicate MadeFrom(props: Properties, rows: seq<Reservation>, t: Turnover) {
    exists i :: 0 <= i < |rows| && Makes(props, rows[i], t)
  }

  lemma RowMakes(props: Properties, db: Db, r: Reservation)
    requires forall id :: id in db.turnovers ==> id < db.nextId
    ensures var db' := IngestRow(props, db, r);
      && (forall id :: id in db'.turnovers ==> id < db'.nextId)
      && (forall id :: id in db.turnovers ==> id in db'.turnovers && db'.turnovers[id] == db.turnovers[id])
      && (forall id :: id in db'.turnovers && id !in db.turnovers ==> Makes(props, r, db'.turnovers[id]))
      && (CanMake(props, r) ==> MadeIn(props, r, db'))
  {
    if CanMake(props, r) {
      assert Makes(props, r, IngestRow(props, db, r).turnovers[db.nextId]);
    }
  }

  lemma MadeStays(props: Properties, r: Reservation, db: Db, db': Db)
    requires forall id :: id in db.turnovers ==> id in db'.turnovers && db'.turnovers[id] == db.turnovers[id]
    ensures MadeIn(props, r, db) ==> MadeIn(props, r, db')
  {
    hide Makes;
    if MadeIn(props, r, db) {
      var id :| id in db.turnovers && Makes(props, r, db.turnovers[id]);
      assert Makes(props, r, db'.turnovers[id]);
    }
  }

  /** The turnovers an import adds are made from its rows, and every row that can make one does. */
  lemma {:induction false} ImportMakes(props: Properties, db: Db, rows: seq<Reservation>)
    requires forall id :: id in db.turnovers ==> id < db.nextId
    ensures var db' := IngestRows(props, db, rows);
      && (forall id :: id in db'.turnovers ==> id < db'.nextId)
      && (forall id :: id in db.turnovers ==> id in db'.turnovers && db'.turnovers[id] == db.turnovers[id])
      && (forall id :: id in db'.turnovers && id !in db.turnovers ==> MadeFrom(props, rows, db'.turnovers[id]))
      && (forall i :: 0 <= i < |rows| && CanMake(props, rows[i]) ==> MadeIn(props, rows[i], db'))
  {
    hide Makes, CanMake, MadeIn, IngestRow;
    if rows != [] {
      var init, last := rows[..|rows| - 1], rows[|rows| - 1];
      ImportMakes(props, db, init);
      var mid, db' := IngestRows(props, db, init), IngestRows(props, db, rows);
      RowMakes(props, mid, last);
      forall id | id in db'.turnovers && id !in db.turnovers ensures MadeFrom(props, rows, db'.turnovers[id]) {
        if id in mid.turnovers {
          var i :| 0 <= i < |init| && Makes(props, init[i], mid.turnovers[id]);
          assert rows[i] == init[i];
        } else {
          assert Makes(props, rows[|rows| - 1], db'.turnovers[id]);
        }
      }
      forall i | 0 <= i < |rows| && CanMake(props, rows[i]) ensures MadeIn(props, rows[i], db') {
        if i < |init| {
          assert init[i] == rows[i];
          MadeStays(props, rows[i], mid, db');
        }
      }
    }
  }

  /** A run changes nothing of a turnover but its status. */
  lemma RunKeepsTurnovers(props: Properties, db: Db, pending: seq<nat>, budget: nat)
    requires IsPendingList(db, pending)
    ensures var db' := Run(props, db, pending, budget).db;
      && db'.turnovers.Keys == db.turnovers.Keys
      && forall id :: id in db.turnovers ==>
           db'.turnovers[id].(status := Pending) == db.turnovers[id].(status := Pending)
  {
    if pending != [] {
      hide RunFrom, PlanTasks, TasksOf, Executed;
      RunGrowth(props, db, pending, 0, budget, 0);
      forall id | id in db.turnovers
        ensures Run(props, db, pending, budget).db.turnovers[id].(status := Pending)
             == db.turnovers[id].(status := Pending)
      {
        RunView(props, db, pending, 0, budget, 0, id);
      }
    }
  }

  ghost predicate ImportedFrom(props: Properties, e: Event, t: Turnover) {
    e.Ingest? && MadeFrom(props, e.rows, t)
  }

  lemma StatusApart(props: Properties, e: Event, a: Turnover, b: Turnover)
    requires a.(status := Pending) == b.(status := Pending)
    ensures ImportedFrom(props, e, a) <==> ImportedFrom(props, e, b)
  {
    assert a.res == b.res && a.prop == b.prop && a.checkout == b.checkout && a.checkin == b.checkin;
    if ImportedFrom(props, e, a) {
      var i :| 0 <= i < |e.rows| && Makes(props, e.rows[i], a);
      assert Makes(props, e.rows[i], b);
    }
    if ImportedFrom(props, e, b) {
      var i :| 0 <= i < |e.rows| && Makes(props, e.rows[i], b);
      assert Makes(props, e.rows[i], a);
    }
  }

  /** After any history every turnover comes from a complete row, for a known property, of
      some import, with that row's times. */
  lemma {:induction false} TurnoversComeFrom(props: Properties, history: seq<Event>, id: nat)
    requires After(props, EMPTY, history).Some? && id in After(props, EMPTY, history).value.turnovers
    ensures exists j :: 0 <= j < |history|
                        && ImportedFrom(props, history[j], After(props, EMPTY, history).value.turnovers[id])
  {
    if history != [] {
      hide MadeFrom, Sane, IngestRows, Run, IsPendingList;
      var before, e := history[..|history| - 1], history[|history| - 1];
      var db, db' := After(props, EMPTY, before).value, After(props, EMPTY, history).value;
      SaneIds(props, before);
      if e.Ingest? {
        ImportMakes(props, db, e.rows);
      } else {
        RunKeepsTurnovers(props, db, e.pending, e.budget);
      }
      if id in db.turnovers {
        TurnoversComeFrom(props, before, id);
        var j :| 0 <= j < |before| && ImportedFrom(props, before[j], db.turnovers[id]);
        StatusApart(props, before[j], db.turnovers[id], db'.turnovers[id]);
        assert history[j] == before[j];
      } else {
        assert ImportedFrom(props, history[|before|], db'.turnovers[id]);
      }
    }
  }

  lemma SaneIds(props: Properties, history: seq<Event>)
    requires After(props, EMPTY, history).Some?
    ensures var db := After(props, EMPTY, history).value; forall id :: id in db.turnovers ==> id < db.nextId
  {
    KeeperSane(props, history);
  }

  predicate CanMake(props: Properties, r: Reservation) {
    r.res != "" && r.prop != "" && r.depart.Some? && r.prop in props && !r.conflict
  }

  predicate MadeIn(props: Properties, r: Reservation, db: Db) {
    exists id :: id in db.turnovers && Makes(props, r, db.turnovers[id])
  }

  // ---- Importing the same file again ---------------------------------------------------------

  /** A turnover with the row's reservation and property exists. */
  predicate Keyed(db: Db, r: Reservation) {
    exists id :: id in db.turnovers && db.turnovers[id].res == r.res && db.turnovers[id].prop == r.prop
  }

  /** ON CONFLICT acts as the import's comment says: keyed on reservation and property. */
  ghost predicate KeyedImport(props: Properties, db: Db, rows: seq<Reservation>) {
    forall i :: 0 <= i < |rows| ==> (rows[i].conflict <==> Keyed(IngestRows(props, db, rows[..i]), rows[i]))
  }

  ghost predicate UniqueKeys(db: Db) {
    && (forall id :: id in db.turnovers ==> id < db.nextId)
    && (forall a, b :: a in db.turnovers && b in db.turnovers && a != b ==>
         db.turnovers[a].res != db.turnovers[b].res || db.turnovers[a].prop != db.turnovers[b].prop)
  }

  lemma KeyedSnoc(props: Properties, db: Db, rows: seq<Reservation>)
    requires rows != [] && KeyedImport(props, db, rows)
    ensures KeyedImport(props, db, rows[..|rows| - 1])
    ensures rows[|rows| - 1].conflict <==> Keyed(IngestRows(props, db, rows[..|rows| - 1]), rows[|rows| - 1])
  {
    hide Keyed, IngestRows;
    var init := rows[..|rows| - 1];
    assert forall i :: 0 <= i < |init| ==> init[..i] == rows[..i];
  }

  /** With such a key a reservation has at most one turnover per property. */
  lemma {:induction false} KeysOnce(props: Properties, db: Db, rows: seq<Reservation>)
    requires UniqueKeys(db) && KeyedImport(props, db, rows)
    ensures UniqueKeys(IngestRows(props, db, rows))
    decreases |rows|
  {
    if rows != [] {
      hide KeyedImport;
      KeyedSnoc(props, db, rows);
      KeysOnce(props, db, rows[..|rows| - 1]);
    }
  }

  /** Every accepted row of an import has its turnover afterwards. */
  lemma {:induction false} AcceptedKeyed(props: Properties, db: Db, rows: seq<Reservation>, i: nat)
    requires UniqueKeys(db) && KeyedImport(props, db, rows) && i < |rows| && Accepted(props, rows[i])
    ensures Keyed(IngestRows(props, db, rows), rows[i])
    decreases |rows|
  {
    hide KeyedImport;
    var init, last := rows[..|rows| - 1], rows[|rows| - 1];
    KeyedSnoc(props, db, rows);
    KeysOnce(props, db, init);
    var before, after := IngestRows(props, db, init), IngestRows(props, db, rows);
    assert before.turnovers.Keys <= after.turnovers.Keys
           && forall id :: id in before.turnovers ==> after.turnovers[id] == before.turnovers[id];
    if i < |init| {
      AcceptedKeyed(props, db, init, i);
      var id :| id in before.turnovers && before.turnovers[id].res == rows[i].res
                && before.turnovers[id].prop == rows[i].prop;
      assert id in after.turnovers;
    } else if last.conflict {
      var id :| id in before.turnovers && before.turnovers[id].res == last.res
                && before.turnovers[id].prop == last.prop;
      assert id in after.turnovers;
    } else {
      assert before.nextId in after.turnovers;
    }
  }

  ghost predicate SameButConflict(a: seq<Reservation>, b: seq<Reservation>) {
    |a| == |b| && forall i :: 0 <= i < |a| ==> a[i].(conflict := true) == b[i].(conflict := true)
  }

  /** Importing the same file again then adds no turnover and changes none. */
  lemma ReimportAddsNothing(props: Properties, db: Db, rows: seq<Reservation>, again: seq<Reservation>)
    requires UniqueKeys(db) && KeyedImport(props, db, rows) && SameButConflict(rows, again)
    requires KeyedImport(props, IngestRows(props, db, rows), again)
    ensures IngestRows(props, IngestRows(props, db, rows), again).turnovers == IngestRows(props, db, rows).turnovers
  {
    hide KeyedImport, IngestRows, Keyed;
    var db' := IngestRows(props, db, rows);
    forall i | 0 <= i < |again| && Accepted(props, again[i]) ensures Keyed(db', again[i]) {
      assert rows[i].(conflict := true) == again[i].(conflict := true);
      AcceptedKeyed(props, db, rows, i);
      SameKey(db', rows[i], again[i]);
    }
    AllConflict(props, db', again);
  }

  lemma SameKey(db: Db, a: Reservation, b: Reservation)
    requires a.(conflict := true) == b.(conflict := true)
    ensures Keyed(db, a) <==> Keyed(db, b)
  {
    assert a.res == b.res && a.prop == b.prop;
  }

  lemma {:induction false} AllConflict(props: Properties, db: Db, rows: seq<Reservation>)
    requires KeyedImport(props, db, rows)
    requires forall i :: 0 <= i < |rows| && Accepted(props, rows[i]) ==> Keyed(db, rows[i])
    ensures IngestRows(props, db, rows).turnovers == db.turnovers
    decreases |rows|
  {
    if rows != [] {
      hide KeyedImport;
      KeyedSnoc(props, db, rows);
      AllConflict(props, db, rows[..|rows| - 1]);
    }
  }

  /** Without any such key every import adds a turnover for every accepted row. */
  lemma {:induction false} NoKeyRepeats(props: Properties, db: Db, rows: seq<Reservation>)
    requires (forall id :: id in db.turnovers ==> id < db.nextId)
    requires forall i :: 0 <= i < |rows| ==> !rows[i].conflict
    ensures var db' := IngestRows(props, db, rows);
      && (forall id :: id in db'.turnovers ==> id < db'.nextId)
      && |db'.turnovers| == |db.turnovers| + CountAccepted(props, rows)
  {
    if rows != [] {
      NoKeyRepeats(props, db, rows[..|rows| - 1]);
    }
  }
}
