/**
 The backfill that labels historical captures with paid teacher models until the
 day's budget is used up. Money is in millionths of a dollar.
 */
module BudgetLoop {
  import opened Common

  datatype Model = Claude | Gpt | Gemini | Grok | DeepSeek

  const PROMPT_TOKENS := 500
  const RESPONSE_TOKENS := 200

  /** Prices per thousand tokens, input and output. */
  function Rates(m: Model): (nat, nat) {
    match m
    case Claude => (3_000, 15_000)
    case Gpt => (5_000, 15_000)
    case Gemini => (1_250, 5_000)
    case Grok => (5_000, 15_000)
    case DeepSeek => (270, 1_100)
  }

  function Price(m: Model): nat {
    (Rates(m).0 * PROMPT_TOKENS + Rates(m).1 * RESPONSE_TOKENS) / 1000
  }

  /** The teachers of a task in the order they are tried. */
  function Teachers(task: string): (chain: seq<Model>)
    ensures chain != []
  {
    if task in {"legal_reasoning", "brief_drafting", "pricing_math"} then [Claude, Gpt, DeepSeek]
    else if task in {"legal_citations", "contract_analysis", "code_refactoring", "vrs_concierge", "vrs_ota_response",
                     "acquisitions"} then [Claude, Gpt]
    else if task in {"code_generation", "code_debugging"} then [Gpt, Claude]
    else if task in {"vision_damage", "vision_photo", "ocr"} then [Gemini, Claude]
    else if task == "real_time" then [Grok, Gemini]
    else if task in {"current_market", "summarization_news"} then [Grok, Claude]
    else if task in {"math_reasoning", "complex_logic"} then [DeepSeek, Claude, Gpt]
    else if task == "summarization_long" then [Claude, Gemini, Gpt]
    else if task == "competitive_intel" then [Claude, Gemini]
    else [Claude, Gpt]
  }

  function Estimate(task: string): nat {
    Price(Teachers(task)[0])
  }

  datatype Capture = Capture(id: nat, task: string)

  /** How one row's calls go: which teachers answer with a usable verdict, whether an
      exception escapes, and whether the label insert commits. */
  datatype Reply = Reply(answers: nat -> bool, raises: bool, written: bool)

  /** A row of the label table; `cost` is what the cost column holds. */
  datatype Label = Label(id: nat, model: Option<Model>, cost: nat)

  /** The cost column keeps four decimals of a dollar and rounds half away from zero. */
  function Stored(cost: nat): (c: nat)
    ensures c % 100 == 0 && c - 50 <= cost < c + 50
  {
    (cost + 50) / 100 * 100
  }

  // ---- One call --------------------------------------------------------------------

  /** The first teacher from `k` on that answers. */
  function FirstAnswer(chain: seq<Model>, answers: nat -> bool, k: nat): Option<Model>
    decreases |chain| - k
  {
    if k >= |chain| then None else if answers(k) then Some(chain[k]) else FirstAnswer(chain, answers, k + 1)
  }

  function Cost(model: Option<Model>): nat {
    if model.None? then 0 else Price(model.value)
  }

  function CostOf(row: Capture, reply: Reply): nat {
    Cost(FirstAnswer(Teachers(row.task), reply.answers, 0))
  }

  /** Tries the teachers in turn; when all fail the call still returns, at no cost. */
  method CallGodhead(task: string, answers: nat -> bool) returns (model: Option<Model>, cost: nat)
    ensures model == FirstAnswer(Teachers(task), answers, 0) && cost == Cost(model)
    ensures cost <= Estimate(task) + MAX_GAP
  {
    var chain := Teachers(task);
    var k := 0;
    GapBound(task, answers);
    while k < |chain|
      invariant 0 <= k <= |chain|
      invariant FirstAnswer(chain, answers, 0) == FirstAnswer(chain, answers, k)
    {
      if answers(k) {
        return Some(chain[k]), Price(chain[k]);
      }
      k := k + 1;
    }
    return None, 0;
  }

  /** The dearest fallback against the cheapest first teacher: $0.005145. */
  const MAX_GAP := 5_145

  lemma GapBound(task: string, answers: nat -> bool)
    ensures Cost(FirstAnswer(Teachers(task), answers, 0)) <= Estimate(task) + MAX_GAP
  {
    ChainGap(Teachers(task), answers, 0);
  }

  lemma {:induction false} ChainGap(chain: seq<Model>, answers: nat -> bool, k: nat)
    requires chain != []
    ensures FirstAnswer(chain, answers, k).Some? ==> FirstAnswer(chain, answers, k).value in chain[Min(k, |chain|)..]
    ensures Cost(FirstAnswer(chain, answers, k)) <= Price(chain[0]) + MAX_GAP
    decreases |chain| - k
  {
    if k < |chain| {
      ChainGap(chain, answers, k + 1);
      assert chain[k] in chain[k..];
    }
  }

  // ---- The tables, task by task ---------------------------------------------------------

  /** The answer charged is that of the first teacher that answers, and none if none does. */
  lemma {:induction false} FirstAnswerIs(chain: seq<Model>, answers: nat -> bool, k: nat, i: nat)
    requires k <= |chain|
    ensures k <= i < |chain| && answers(i) && (forall j :: k <= j < i ==> !answers(j)) ==>
      FirstAnswer(chain, answers, k) == Some(chain[i])
    ensures (forall j :: k <= j < |chain| ==> !answers(j)) ==> FirstAnswer(chain, answers, k) == None
    decreases |chain| - k
  {
    if k < |chain| {
      FirstAnswerIs(chain, answers, k + 1, i);
    }
  }

  /** An answer's price, in millionths of a dollar. */
  lemma Prices()
    ensures Price(Claude) == 4_500 && Price(Gpt) == 5_500 && Price(Gemini) == 1_625
    ensures Price(Grok) == 5_500 && Price(DeepSeek) == 355
  {
  }

  /** Whom a task asks in turn and what each answer costs; it is estimated at the first price. */
  predicate Costs(task: string, models: seq<Model>, prices: seq<nat>) {
    |models| == |prices| > 0 && Teachers(task) == models && Estimate(task) == prices[0]
    && forall i :: 0 <= i < |prices| ==> Price(models[i]) == prices[i]
  }

  const TASKS: set<string> := {
    "legal_reasoning", "brief_drafting", "legal_citations", "contract_analysis", "code_generation", "code_refactoring",
    "code_debugging", "vision_damage", "vision_photo", "ocr", "real_time", "current_market", "math_reasoning",
    "complex_logic", "summarization_long", "summarization_news", "vrs_concierge", "vrs_ota_response",
    "competitive_intel", "pricing_math", "acquisitions"}

  lemma LegalCosts()
    ensures Costs("legal_reasoning", [Claude, Gpt, DeepSeek], [4_500, 5_500, 355])
    ensures Costs("brief_drafting", [Claude, Gpt, DeepSeek], [4_500, 5_500, 355])
    ensures Costs("legal_citations", [Claude, Gpt], [4_500, 5_500])
    ensures Costs("contract_analysis", [Claude, Gpt], [4_500, 5_500])
  {
    Prices();
  }

  lemma CodeCosts()
    ensures Costs("code_generation", [Gpt, Claude], [5_500, 4_500])
    ensures Costs("code_refactoring", [Claude, Gpt], [4_500, 5_500])
    ensures Costs("code_debugging", [Gpt, Claude], [5_500, 4_500])
  {
    Prices();
  }

  lemma VisionCosts()
    ensures Costs("vision_damage", [Gemini, Claude], [1_625, 4_500])
    ensures Costs("vision_photo", [Gemini, Claude], [1_625, 4_500])
    ensures Costs("ocr", [Gemini, Claude], [1_625, 4_500])
  {
    Prices();
  }

  lemma LiveCosts()
    ensures Costs("real_time", [Grok, Gemini], [5_500, 1_625])
    ensures Costs("current_market", [Grok, Claude], [5_500, 4_500])
    ensures Costs("summarization_news", [Grok, Claude], [5_500, 4_500])
    ensures Costs("summarization_long", [Claude, Gemini, Gpt], [4_500, 1_625, 5_500])
  {
    Prices();
  }

  lemma LogicCosts()
    ensures Costs("math_reasoning", [DeepSeek, Claude, Gpt], [355, 4_500, 5_500])
    ensures Costs("complex_logic", [DeepSeek, Claude, Gpt], [355, 4_500, 5_500])
    ensures Costs("pricing_math", [Claude, Gpt, DeepSeek], [4_500, 5_500, 355])
  {
    Prices();
  }

  lemma HouseCosts()
    ensures Costs("vrs_concierge", [Claude, Gpt], [4_500, 5_500])
    ensures Costs("vrs_ota_response", [Claude, Gpt], [4_500, 5_500])
    ensures Costs("competitive_intel", [Claude, Gemini], [4_500, 1_625])
    ensures Costs("acquisitions", [Claude, Gpt], [4_500, 5_500])
  {
    Prices();
  }

  /** Any other task has the default teachers. */
  lemma OtherCosts(task: string)
    requires task !in TASKS
    ensures Costs(task, [Claude, Gpt], [4_500, 5_500])
  {
    Prices();
  }

  // ---- The loop -----------------------------------------------------------------------

  datatype Tally = Tally(spent: nat, labeled: nat, errors: nat, labels: seq<Label>)

  predicate Labelled(labels: seq<Label>, id: nat) {
    exists i :: 0 <= i < |labels| && labels[i].id == id
  }

  function AfterRow(t: Tally, dryRun: bool, row: Capture, reply: Reply): Tally {
    if dryRun then t.(spent := t.spent + Estimate(row.task), labeled := t.labeled + 1)
    else if reply.raises then t.(errors := t.errors + 1)
    else
      var model := FirstAnswer(Teachers(row.task), reply.answers, 0);
      Tally(t.spent + Cost(model), t.labeled + 1, t.errors,
            if reply.written && !Labelled(t.labels, row.id)
            then t.labels + [Label(row.id, model, Stored(Cost(model)))] else t.labels)
  }

  predicate Exhausted(t: Tally, remaining: int, row: Capture) {
    t.spent + Estimate(row.task) > remaining
  }

  /** The tally and the number of rows handled when the loop ends. */
  function Loop(t: Tally, dryRun: bool, remaining: int, rows: seq<Capture>, script: nat -> Reply, k: nat): (Tally, nat)
    requires k <= |rows|
    decreases |rows| - k
  {
    if k == |rows| || Exhausted(t, remaining, rows[k]) then (t, k)
    else Loop(AfterRow(t, dryRun, rows[k], script(k)), dryRun, remaining, rows, script, k + 1)
  }

  datatype Stats = Stats(processed: nat, labeled: nat, skipped: nat, errors: nat, spent: nat)

  class Backfill {
    const dailyBudget: nat
    var labels: seq<Label>

    constructor (dailyBudget: nat, labels: seq<Label>)
      ensures this.dailyBudget == dailyBudget && this.labels == labels
    {
      this.dailyBudget, this.labels := dailyBudget, labels;
    }

    /** Inserts a label unless the capture has one; the column rounds the cost, and
        failures are swallowed. */
    method WriteLabel(id: nat, model: Option<Model>, cost: nat, written: bool)
      modifies this
      ensures labels == if written && !Labelled(old(labels), id) then old(labels) + [Label(id, model, Stored(cost))]
                        else old(labels)
    {
      if written && !Labelled(labels, id) {
        labels := labels + [Label(id, model, (cost + 50) / 100 * 100)];
      }
    }

    /** One run over the fetched rows. `readable` is whether the budget query succeeds. */
    method Run(dryRun: bool, readable: bool, rows: seq<Capture>, script: nat -> Reply) returns (stats: Stats)
      modifies this
      ensures var remaining := Remaining(dailyBudget, old(labels), readable);
              var end := Loop(Tally(0, 0, 0, old(labels)), dryRun, remaining, rows, script, 0);
              && labels == end.0.labels
              && stats.labeled == end.0.labeled && stats.errors == end.0.errors && stats.spent == end.0.spent
              && stats.skipped == |rows| - end.1
              && stats.processed == Min(end.1 + 1, |rows|)
      ensures stats.labeled + stats.errors + stats.skipped == |rows|
    {
      hide Teachers, Estimate, FirstAnswer, Labelled, Recorded, Rates, Price, Stored;
      var remaining := Remaining(dailyBudget, labels, readable);
      var processed, labeled, skipped, errors, spent := 0, 0, 0, 0, 0;
      ghost var start := Tally(0, 0, 0, labels);
      ghost var end := Loop(start, dryRun, remaining, rows, script, 0);
      var k := 0;
      while k < |rows|
        invariant 0 <= k <= |rows| && processed == k && skipped == 0 && labeled + errors == k
        invariant end == Loop(Tally(spent, labeled, errors, labels), dryRun, remaining, rows, script, k)
      {
        var row := rows[k];
        processed := processed + 1;
        var estimate := Estimate(row.task);
        if spent + estimate > remaining {
          skipped := skipped + (|rows| - processed + 1);
          break;
        }
        if dryRun {
          spent, labeled := spent + estimate, labeled + 1;
        } else if script(k).raises {
          errors := errors + 1;
        } else {
          var model, cost := CallGodhead(row.task, script(k).answers);
          WriteLabel(row.id, model, cost, script(k).written);
          spent, labeled := spent + cost, labeled + 1;
        }
        k := k + 1;
      }
      stats := Stats(processed, labeled, skipped, errors, spent);
    }
  }

  /** The day's recorded spending. */
  function Recorded(labels: seq<Label>): nat {
    if labels == [] then 0 else Recorded(labels[..|labels| - 1]) + labels[|labels| - 1].cost
  }

  /** What the run believes is left; a failed budget query leaves nothing. */
  function Remaining(dailyBudget: nat, labels: seq<Label>, readable: bool): nat {
    if readable then Max(dailyBudget - Recorded(labels), 0) else 0
  }

  // ---- What a run keeps ------------------------------------------------------------------

  /** Every row is labelled, failed or skipped, and the skipped rows are a suffix. */
  lemma {:induction false} LoopCounts(t: Tally, dryRun: bool, remaining: int, rows: seq<Capture>,
                                      script: nat -> Reply, k: nat)
    requires k <= |rows|
    ensures var (t', n) := Loop(t, dryRun, remaining, rows, script, k);
            && k <= n <= |rows|
            && t'.labeled + t'.errors == t.labeled + t.errors + (n - k)
            && (n < |rows| ==> Exhausted(t', remaining, rows[n]))
            && (dryRun ==> t'.labels == t.labels)
    decreases |rows| - k
  {
    hide Teachers, Estimate, FirstAnswer, Labelled, Rates, Price, Stored;
    if k < |rows| && !Exhausted(t, remaining, rows[k]) {
      LoopCounts(AfterRow(t, dryRun, rows[k], script(k)), dryRun, remaining, rows, script, k + 1);
    }
  }

  /** What the rows `[k, n)` are estimated at together. */
  function Estimates(rows: seq<Capture>, k: nat, n: nat): nat
    requires k <= n <= |rows|
    decreases n - k
  {
    if k == n then 0 else Estimate(rows[k].task) + Estimates(rows, k + 1, n)
  }

  /** What the rows `[k, n)` cost together: the answers of the calls that return. */
  function Costing(rows: seq<Capture>, script: nat -> Reply, k: nat, n: nat): nat
    requires k <= n <= |rows|
    decreases n - k
  {
    if k == n then 0
    else (if script(k).raises then 0 else CostOf(rows[k], script(k))) + Costing(rows, script, k + 1, n)
  }

  /** A dry run adds up the estimates of the rows it handles, a live run the costs of those
      whose call returns; each handled row fitted when its turn came, and the first row
      left did not. */
  lemma {:induction false} SpentIs(t: Tally, dryRun: bool, remaining: int, rows: seq<Capture>, script: nat -> Reply,
                                   k: nat)
    requires k <= |rows|
    ensures var (t', n) := Loop(t, dryRun, remaining, rows, script, k);
            && k <= n <= |rows|
            && t'.spent == t.spent + (if dryRun then Estimates(rows, k, n) else Costing(rows, script, k, n))
            && (n < |rows| ==> t'.spent + Estimate(rows[n].task) > remaining)
            && (forall i :: k <= i < n ==>
                 t.spent + (if dryRun then Estimates(rows, k, i) else Costing(rows, script, k, i))
                 + Estimate(rows[i].task) <= remaining)
    decreases |rows| - k
  {
    if k < |rows| && !Exhausted(t, remaining, rows[k]) {
      hide Teachers, Estimate, FirstAnswer, Rates, Price, Stored, Labelled;
      SpentIs(AfterRow(t, dryRun, rows[k], script(k)), dryRun, remaining, rows, script, k + 1);
    }
  }

  /** The label of a row whose call returned and whose insert committed: the first teacher
      that answers, at its price to the nearest hundred millionths, or none at no cost. */
  ghost predicate LabelOf(l: Label, row: Capture, reply: Reply) {
    var chain := Teachers(row.task);
    && l.id == row.id && !reply.raises && reply.written
    && (l.model == None ==> l.cost == 0 && forall i :: 0 <= i < |chain| ==> !reply.answers(i))
    && (l.model != None ==>
         && l.cost % 100 == 0 && l.cost - 50 <= Price(l.model.value) < l.cost + 50
         && exists i: nat :: i < |chain| && chain[i] == l.model.value && reply.answers(i)
                             && forall j :: 0 <= j < i ==> !reply.answers(j))
  }

  lemma {:induction false} AnswerAt(chain: seq<Model>, answers: nat -> bool, k: nat)
    requires k <= |chain|
    ensures var m := FirstAnswer(chain, answers, k);
            && (m == None ==> forall i :: k <= i < |chain| ==> !answers(i))
            && (m != None ==> exists i: nat :: k <= i < |chain| && chain[i] == m.value && answers(i)
                                               && forall j :: k <= j < i ==> !answers(j))
    decreases |chain| - k
  {
    if k < |chain| && !answers(k) {
      AnswerAt(chain, answers, k + 1);
      var m := FirstAnswer(chain, answers, k + 1);
      if m != None {
        var i: nat :| k + 1 <= i < |chain| && chain[i] == m.value && answers(i)
                      && forall j :: k + 1 <= j < i ==> !answers(j);
        assert forall j :: k <= j < i ==> !answers(j);
      }
    }
  }

  lemma RowLabels(t: Tally, row: Capture, reply: Reply)
    ensures var t' := AfterRow(t, false, row, reply);
            && t.labels <= t'.labels && |t'.labels| <= |t.labels| + 1
            && (forall i :: |t.labels| <= i < |t'.labels| ==> LabelOf(t'.labels[i], row, reply))
            && (!reply.raises && reply.written ==> Labelled(t'.labels, row.id))
    ensures AfterRow(t, true, row, reply).labels == t.labels
  {
    hide Teachers, Price, Rates;
    AnswerAt(Teachers(row.task), reply.answers, 0);
    var t' := AfterRow(t, false, row, reply);
    if |t'.labels| > |t.labels| {
      assert t'.labels[|t.labels|].id == row.id;
    }
  }

  lemma LabelledStays(a: seq<Label>, b: seq<Label>, id: nat)
    requires a <= b && Labelled(a, id)
    ensures Labelled(b, id)
  {
    var i :| 0 <= i < |a| && a[i].id == id;
    assert b[i].id == id;
  }

  /** A live run's new labels are those of rows it handled, and every handled row whose call
      returned and whose insert committed has one; a dry run writes none. */
  lemma {:induction false} LabelsAre(t: Tally, dryRun: bool, remaining: int, rows: seq<Capture>, script: nat -> Reply,
                                     k: nat)
    requires k <= |rows|
    ensures var (t', n) := Loop(t, dryRun, remaining, rows, script, k);
            && k <= n <= |rows| && t.labels <= t'.labels
            && (dryRun ==> t'.labels == t.labels)
            && (forall i :: |t.labels| <= i < |t'.labels| ==>
                 exists j: nat :: k <= j < n && LabelOf(t'.labels[i], rows[j], script(j)))
            && (!dryRun ==> forall j :: k <= j < n && !script(j).raises && script(j).written ==>
                 Labelled(t'.labels, rows[j].id))
    decreases |rows| - k
  {
    hide LabelOf, Labelled, Exhausted;
    if k < |rows| && !Exhausted(t, remaining, rows[k]) {
      RowLabels(t, rows[k], script(k));
      var next := AfterRow(t, dryRun, rows[k], script(k));
      hide AfterRow;
      LabelsAre(next, dryRun, remaining, rows, script, k + 1);
      var (t', n) := Loop(t, dryRun, remaining, rows, script, k);
      forall i | |t.labels| <= i < |t'.labels|
        ensures exists j: nat :: k <= j < n && LabelOf(t'.labels[i], rows[j], script(j))
      {
        if i < |next.labels| {
          assert t'.labels[i] == next.labels[i];
        }
      }
      if !dryRun && !script(k).raises && script(k).written {
        LabelledStays(next.labels, t'.labels, rows[k].id);
      }
    }
  }

  /** A dry run never plans to spend more than what is left. */
  lemma {:induction false} DryWithinBudget(t: Tally, remaining: int, rows: seq<Capture>, script: nat -> Reply, k: nat)
    requires k <= |rows| && t.spent <= remaining
    ensures Loop(t, true, remaining, rows, script, k).0.spent <= remaining
    decreases |rows| - k
  {
    if k < |rows| && !Exhausted(t, remaining, rows[k]) {
      DryWithinBudget(AfterRow(t, true, rows[k], script(k)), remaining, rows, script, k + 1);
    }
  }

  /** The overshoot of a live run is at most one row's cost beyond its estimate: once over
      the budget nothing is charged any more, so overshoots never add up. */
  ghost predicate WithinOneRow(spent: nat, remaining: int, rows: seq<Capture>, script: nat -> Reply) {
    spent <= remaining
    || exists k: nat :: k < |rows| && !script(k).raises
         && spent - remaining <= CostOf(rows[k], script(k)) - Estimate(rows[k].task)
  }

  lemma {:induction false} LiveOvershoot(t: Tally, remaining: int, rows: seq<Capture>, script: nat -> Reply, k: nat)
    requires k <= |rows| && WithinOneRow(t.spent, remaining, rows, script)
    ensures WithinOneRow(Loop(t, false, remaining, rows, script, k).0.spent, remaining, rows, script)
    decreases |rows| - k
  {
    if k < |rows| && !Exhausted(t, remaining, rows[k]) {
      var t' := AfterRow(t, false, rows[k], script(k));
      if !script(k).raises {
        assert t'.spent == t.spent + CostOf(rows[k], script(k));
      }
      LiveOvershoot(t', remaining, rows, script, k + 1);
    }
  }

  /** In dollars: no run spends more than $0.005145 beyond what was left. */
  lemma LiveBound(labels: seq<Label>, remaining: nat, rows: seq<Capture>, script: nat -> Reply)
    ensures Loop(Tally(0, 0, 0, labels), false, remaining, rows, script, 0).0.spent <= remaining + MAX_GAP
  {
    LiveOvershoot(Tally(0, 0, 0, labels), remaining, rows, script, 0);
    var spent := Loop(Tally(0, 0, 0, labels), false, remaining, rows, script, 0).0.spent;
    if spent > remaining {
      var k: nat :| k < |rows| && !script(k).raises
                    && spent - remaining <= CostOf(rows[k], script(k)) - Estimate(rows[k].task);
      GapBound(rows[k].task, script(k).answers);
    }
  }

  // ---- A whole day ------------------------------------------------------------------------

  datatype RunInput = RunInput(dryRun: bool, readable: bool, rows: seq<Capture>, script: nat -> Reply)

  function RunEnd(dailyBudget: nat, labels: seq<Label>, r: RunInput): Tally {
    Loop(Tally(0, 0, 0, labels), r.dryRun, Remaining(dailyBudget, labels, r.readable), r.rows, r.script, 0).0
  }

  function Day(dailyBudget: nat, labels: seq<Label>, runs: seq<RunInput>): seq<Label> {
    if runs == [] then labels
    else RunEnd(dailyBudget, Day(dailyBudget, labels, runs[..|runs| - 1]), runs[|runs| - 1]).labels
  }

  function ChargedBy(dailyBudget: nat, labels: seq<Label>, r: RunInput): nat {
    if r.dryRun then 0 else RunEnd(dailyBudget, labels, r).spent
  }

  /** What the runs charged in all, dry runs aside. */
  function Charged(dailyBudget: nat, labels: seq<Label>, runs: seq<RunInput>): nat {
    if runs == [] then 0
    else
      var before := runs[..|runs| - 1];
      Charged(dailyBudget, labels, before) + ChargedBy(dailyBudget, Day(dailyBudget, labels, before), runs[|runs| - 1])
  }

  ghost predicate OnePerCapture(labels: seq<Label>) {
    forall i, j :: 0 <= i < j < |labels| ==> labels[i].id != labels[j].id
  }

  /** What the price table and the column's rounding do to one row: DeepSeek answers are
      recorded 80/71 of their charge, Gemini answers 64/65, and the rest exactly. */
  lemma RowRates(task: string, answers: nat -> bool)
    ensures var est, c := Estimate(task), Cost(FirstAnswer(Teachers(task), answers, 0));
            && 71 * Stored(c) <= 80 * c && 64 * c <= 65 * Stored(c)
            && 71 * Stored(c) <= 80 * est + 362_100 && 64 * c <= 65 * est + 328_925
  {
    hide Teachers, FirstAnswer, Price, Rates, Stored;
    ModelRates(FirstAnswer(Teachers(task), answers, 0));
    ModelRates(Some(Teachers(task)[0]));
  }

  lemma ModelRates(model: Option<Model>)
    ensures 71 * Stored(Cost(model)) <= 80 * Cost(model) && 64 * Cost(model) <= 65 * Stored(Cost(model))
    ensures (model.Some? ==> 355 <= Cost(model)) && Cost(model) <= 5_500 && Stored(Cost(model)) <= 5_500
  {
  }

  /** Labels only grow, one per capture. What a run charges or records beyond the budget it
      starts with is bounded by its last charged row, at the worst of the table's rates. */
  lemma {:induction false} LoopBounds(t: Tally, remaining: int, rows: seq<Capture>, script: nat -> Reply, k: nat)
    requires k <= |rows|
    ensures var t' := Loop(t, false, remaining, rows, script, k).0;
            var charged, recorded := t'.spent - t.spent, Recorded(t'.labels) - Recorded(t.labels);
            && t.labels <= t'.labels && (OnePerCapture(t.labels) ==> OnePerCapture(t'.labels))
            && charged >= 0 && recorded >= 0 && 71 * recorded <= 80 * charged
            && (charged > 0 ==>
                 && t.spent < remaining
                 && 71 * recorded <= 80 * (remaining - t.spent) + 362_100
                 && 64 * charged <= 65 * (remaining - t.spent) + 328_925)
    decreases |rows| - k
  {
    hide Teachers, Estimate, FirstAnswer, Rates, Price, Stored, Labelled, OnePerCapture, Recorded, AfterRow;
    if k < |rows| && !Exhausted(t, remaining, rows[k]) {
      var t1 := AfterRow(t, false, rows[k], script(k));
      RowRates(rows[k].task, script(k).answers);
      RowAppends(t, rows[k], script(k));
      EstimatePositive(rows[k].task);
      LoopBounds(t1, remaining, rows, script, k + 1);
    }
  }

  lemma EstimatePositive(task: string)
    ensures Estimate(task) > 0
  {
  }

  lemma RowAppends(t: Tally, row: Capture, reply: Reply)
    ensures var t' := AfterRow(t, false, row, reply);
            var c := CostOf(row, reply);
            && t.labels <= t'.labels && (OnePerCapture(t.labels) ==> OnePerCapture(t'.labels))
            && t'.spent - t.spent == (if reply.raises then 0 else c)
            && Recorded(t'.labels) - Recorded(t.labels)
               == (if !reply.raises && reply.written && !Labelled(t.labels, row.id) then Stored(c) else 0)
  {
    hide Teachers, Estimate, FirstAnswer, Rates, Price, Stored;
    var t' := AfterRow(t, false, row, reply);
    if t'.labels != t.labels {
      assert t'.labels[..|t'.labels| - 1] == t.labels;
    }
  }

  lemma DryKeepsLabels(dailyBudget: nat, labels: seq<Label>, r: RunInput)
    requires r.dryRun
    ensures RunEnd(dailyBudget, labels, r).labels == labels
  {
    LoopCounts(Tally(0, 0, 0, labels), true, Remaining(dailyBudget, labels, r.readable), r.rows, r.script, 0);
  }

  /** However many runs a day has and whatever fails in them: labels only grow, one per
      capture, and what they record is at most 80/71 of the budget left at the start
      plus $0.0051. */
  lemma {:induction false} DayBound(dailyBudget: nat, labels: seq<Label>, runs: seq<RunInput>)
    ensures var end := Day(dailyBudget, labels, runs);
            && labels <= end && (OnePerCapture(labels) ==> OnePerCapture(end))
            && Recorded(labels) <= Recorded(end)
            && (Recorded(end) == Recorded(labels)
                || 71 * (Recorded(end) - Recorded(labels)) <= 80 * (dailyBudget - Recorded(labels)) + 362_100)
  {
    if runs != [] {
      hide Recorded, OnePerCapture, Loop;
      var before, r := runs[..|runs| - 1], runs[|runs| - 1];
      DayBound(dailyBudget, labels, before);
      var b := Day(dailyBudget, labels, before);
      if r.dryRun {
        DryKeepsLabels(dailyBudget, b, r);
      } else {
        LoopBounds(Tally(0, 0, 0, b), Remaining(dailyBudget, b, r.readable), r.rows, r.script, 0);
      }
    }
  }

  // ---- Charged against recorded ---------------------------------------------------------

  /** The fetch returns captures without a label, each once. */
  ghost predicate IsFetch(labels: seq<Label>, rows: seq<Capture>, k: nat) {
    && (forall i :: k <= i < |rows| ==> !Labelled(labels, rows[i].id))
    && (forall i, j :: k <= i < j < |rows| ==> rows[i].id != rows[j].id)
  }

  /** The charged rows among `[k, n)` all had their label committed. */
  ghost predicate AllCommitted(rows: seq<Capture>, script: nat -> Reply, k: nat, n: nat)
    requires n <= |rows|
  {
    forall i :: k <= i < n && !script(i).raises && CostOf(rows[i], script(i)) > 0 ==> script(i).written
  }

  /** Committed labels among the rows `[k, n)` that this teacher answered. */
  function AnsweredBy(m: Model, rows: seq<Capture>, script: nat -> Reply, k: nat, n: nat): nat
    requires k <= n <= |rows|
    decreases n - k
  {
    if k == n then 0
    else
      var answered := FirstAnswer(Teachers(rows[k].task), script(k).answers, 0) == Some(m);
      (if !script(k).raises && script(k).written && answered then 1 else 0) + AnsweredBy(m, rows, script, k + 1, n)
  }

  /** What the rows `[k, n)` charged without their label being committed. */
  function LostCost(rows: seq<Capture>, script: nat -> Reply, k: nat, n: nat): nat
    requires k <= n <= |rows|
    decreases n - k
  {
    if k == n then 0
    else
      (if !script(k).raises && !script(k).written then CostOf(rows[k], script(k)) else 0)
      + LostCost(rows, script, k + 1, n)
  }

  /** Per row: a DeepSeek label records $0.000045 too much, a Gemini label $0.000025 too little. */
  lemma RoundingPerTeacher(model: Option<Model>)
    ensures Stored(Cost(model)) == Cost(model) + (if model == Some(DeepSeek) then 45 else 0)
                                   - (if model == Some(Gemini) then 25 else 0)
  {
  }

  lemma RowRecords(t: Tally, row: Capture, reply: Reply)
    requires !Labelled(t.labels, row.id)
    ensures var t', model := AfterRow(t, false, row, reply), FirstAnswer(Teachers(row.task), reply.answers, 0);
            var kept := !reply.raises && reply.written;
            Recorded(t'.labels) - Recorded(t.labels) + (if !reply.raises && !kept then CostOf(row, reply) else 0)
            + (if kept && model == Some(Gemini) then 25 else 0)
            == t'.spent - t.spent + (if kept && model == Some(DeepSeek) then 45 else 0)
  {
    hide Teachers, Estimate, FirstAnswer, Rates, Price, Stored, Recorded;
    RowAppends(t, row, reply);
    RoundingPerTeacher(FirstAnswer(Teachers(row.task), reply.answers, 0));
  }

  lemma FetchShrinks(t: Tally, rows: seq<Capture>, reply: Reply, k: nat)
    requires k < |rows| && IsFetch(t.labels, rows, k)
    ensures IsFetch(AfterRow(t, false, rows[k], reply).labels, rows, k + 1)
  {
    hide Teachers, FirstAnswer, Rates, Price, Stored;
  }

  /** What a run records, to the millionth: its charges, less the lost labels, with the
      rounding of each teacher's price. */
  lemma {:induction false} RecordsExactly(t: Tally, remaining: int, rows: seq<Capture>, script: nat -> Reply, k: nat)
    requires k <= |rows| && IsFetch(t.labels, rows, k)
    ensures var (t', n) := Loop(t, false, remaining, rows, script, k);
            && k <= n <= |rows|
            && Recorded(t'.labels) - Recorded(t.labels)
               + 25 * AnsweredBy(Gemini, rows, script, k, n) + LostCost(rows, script, k, n)
               == t'.spent - t.spent + 45 * AnsweredBy(DeepSeek, rows, script, k, n)
    decreases |rows| - k
  {
    LoopCounts(t, false, remaining, rows, script, k);
    if k < |rows| && !Exhausted(t, remaining, rows[k]) {
      hide Teachers, Estimate, FirstAnswer, Rates, Price, Recorded, Labelled, CostOf;
      var t1 := AfterRow(t, false, rows[k], script(k));
      assert !Labelled(t.labels, rows[k].id);
      RowRecords(t, rows[k], script(k));
      FetchShrinks(t, rows, script(k), k);
      LoopCounts(t1, false, remaining, rows, script, k + 1);
      RecordsExactly(t1, remaining, rows, script, k + 1);
    }
  }

  /** The labels record what the run charged if and only if the roundings up pay for the
      roundings down and the lost labels; with every charged row committed, if and only
      if nine times the DeepSeek labels are five times the Gemini labels. */
  lemma ChargesRecordedIff(t: Tally, remaining: int, rows: seq<Capture>, script: nat -> Reply, k: nat)
    requires k <= |rows| && IsFetch(t.labels, rows, k)
    ensures var (t', n) := Loop(t, false, remaining, rows, script, k);
            && k <= n <= |rows|
            && (Recorded(t'.labels) - Recorded(t.labels) == t'.spent - t.spent
                <==> 45 * AnsweredBy(DeepSeek, rows, script, k, n)
                     == 25 * AnsweredBy(Gemini, rows, script, k, n) + LostCost(rows, script, k, n))
            && (AllCommitted(rows, script, k, n) ==>
                 (Recorded(t'.labels) - Recorded(t.labels) == t'.spent - t.spent
                  <==> 9 * AnsweredBy(DeepSeek, rows, script, k, n) == 5 * AnsweredBy(Gemini, rows, script, k, n)))
  {
    hide Loop, AnsweredBy, LostCost, Recorded, AllCommitted;
    RecordsExactly(t, remaining, rows, script, k);
    var n := Loop(t, false, remaining, rows, script, k).1;
    NothingLostIff(rows, script, k, n);
  }

  /** If no DeepSeek or Gemini answer was recorded, the labels record the charges exactly
      if and only if every charged row was committed. */
  lemma WholePricesRecordedIff(t: Tally, remaining: int, rows: seq<Capture>, script: nat -> Reply, k: nat)
    requires k <= |rows| && IsFetch(t.labels, rows, k)
    ensures var (t', n) := Loop(t, false, remaining, rows, script, k);
            && k <= n <= |rows|
            && (AnsweredBy(DeepSeek, rows, script, k, n) == 0 && AnsweredBy(Gemini, rows, script, k, n) == 0 ==>
                 (Recorded(t'.labels) - Recorded(t.labels) == t'.spent - t.spent <==> AllCommitted(rows, script, k, n)))
  {
    hide Loop, AnsweredBy, LostCost, Recorded, AllCommitted;
    RecordsExactly(t, remaining, rows, script, k);
    var n := Loop(t, false, remaining, rows, script, k).1;
    NothingLostIff(rows, script, k, n);
  }

  lemma {:induction false} NothingLostIff(rows: seq<Capture>, script: nat -> Reply, k: nat, n: nat)
    requires k <= n <= |rows|
    ensures LostCost(rows, script, k, n) == 0 <==> AllCommitted(rows, script, k, n)
    decreases n - k
  {
    hide CostOf;
    if k < n {
      hide AllCommitted;
      NothingLostIff(rows, script, k + 1, n);
      CommittedStep(rows, script, k, n);
    }
  }

  lemma CommittedStep(rows: seq<Capture>, script: nat -> Reply, k: nat, n: nat)
    requires k < n <= |rows|
    ensures AllCommitted(rows, script, k, n)
       <==> (!script(k).raises && CostOf(rows[k], script(k)) > 0 ==> script(k).written)
            && AllCommitted(rows, script, k + 1, n)
  {
    hide CostOf;
  }

  // ---- What a day charges -------------------------------------------------------------------

  /** Every run of the day works on a fresh fetch and commits all its labels. */
  ghost predicate CommittedDay(dailyBudget: nat, labels: seq<Label>, runs: seq<RunInput>) {
    forall i :: 0 <= i < |runs| && !runs[i].dryRun ==>
      CommittedRun(Day(dailyBudget, labels, runs[..i]), runs[i])
  }

  ghost predicate CommittedRun(labels: seq<Label>, r: RunInput) {
    IsFetch(labels, r.rows, 0) && forall k :: 0 <= k < |r.rows| && !r.script(k).raises ==> r.script(k).written
  }

  lemma {:induction false} CommittedRecords(t: Tally, remaining: int, rows: seq<Capture>, script: nat -> Reply, k: nat)
    requires k <= |rows| && IsFetch(t.labels, rows, k)
    requires forall i :: k <= i < |rows| && !script(i).raises ==> script(i).written
    ensures var t' := Loop(t, false, remaining, rows, script, k).0;
            64 * (t'.spent - t.spent) <= 65 * (Recorded(t'.labels) - Recorded(t.labels))
    decreases |rows| - k
  {
    if k < |rows| && !Exhausted(t, remaining, rows[k]) {
      hide Teachers, Estimate, FirstAnswer, Rates, Price, Stored, Recorded, Labelled;
      var t1 := AfterRow(t, false, rows[k], script(k));
      RowRates(rows[k].task, script(k).answers);
      RowAppends(t, rows[k], script(k));
      FetchShrinks(t, rows, script(k), k);
      CommittedRecords(t1, remaining, rows, script, k + 1);
    }
  }

  /** Even when every insert commits, a day's charges are only bounded by 65/64 of the
      budget left at its start plus $0.00514: Gemini labels record too little. */
  lemma {:induction false} DayCharges(dailyBudget: nat, labels: seq<Label>, runs: seq<RunInput>)
    requires CommittedDay(dailyBudget, labels, runs)
    ensures var charged, start := Charged(dailyBudget, labels, runs), Recorded(labels);
            && 64 * charged <= 65 * (Recorded(Day(dailyBudget, labels, runs)) - start)
            && (charged > 0 ==> 64 * charged <= 65 * (dailyBudget - start) + 328_925)
  {
    if runs != [] {
      var before, r := runs[..|runs| - 1], runs[|runs| - 1];
      var b := Day(dailyBudget, labels, before);
      forall i | 0 <= i < |before| && !before[i].dryRun
        ensures CommittedRun(Day(dailyBudget, labels, before[..i]), before[i])
      {
        assert before[..i] == runs[..i] && before[i] == runs[i];
      }
      hide Recorded, Loop, CommittedDay;
      DayCharges(dailyBudget, labels, before);
      if r.dryRun {
        DryKeepsLabels(dailyBudget, b, r);
      } else {
        assert CommittedRun(b, r);
        var remaining := Remaining(dailyBudget, b, r.readable);
        CommittedRecords(Tally(0, 0, 0, b), remaining, r.rows, r.script, 0);
        LoopBounds(Tally(0, 0, 0, b), remaining, r.rows, r.script, 0);
      }
    }
  }

  // ---- The bounds are reached ---------------------------------------------------------------

  const FIRST_ANSWERS := Reply(i => i == 0, false, true)
  const THIRD_ANSWERS := Reply(i => i == 2, false, true)

  lemma KnownAnswers()
    ensures FirstAnswer(Teachers("math_reasoning"), FIRST_ANSWERS.answers, 0) == Some(DeepSeek)
    ensures FirstAnswer(Teachers("math_reasoning"), THIRD_ANSWERS.answers, 0) == Some(Gpt)
    ensures FirstAnswer(Teachers("ocr"), FIRST_ANSWERS.answers, 0) == Some(Gemini)
    ensures Estimate("math_reasoning") == 355 && Estimate("ocr") == 1_625
  {
    var math, ocr := Teachers("math_reasoning"), Teachers("ocr");
    assert math == [DeepSeek, Claude, Gpt] && ocr == [Gemini, Claude];
    assert FirstAnswer(math, THIRD_ANSWERS.answers, 0) == FirstAnswer(math, THIRD_ANSWERS.answers, 1);
    assert FirstAnswer(math, THIRD_ANSWERS.answers, 1) == FirstAnswer(math, THIRD_ANSWERS.answers, 2);
  }

  /** One row of a task with a known answer, whose label is new. */
  lemma KnownRow(t: Tally, id: nat, task: string, reply: Reply, model: Model)
    requires !Labelled(t.labels, id) && !reply.raises && reply.written
    requires FirstAnswer(Teachers(task), reply.answers, 0) == Some(model)
    ensures var t' := AfterRow(t, false, Capture(id, task), reply);
            && t'.spent == t.spent + Price(model) && Recorded(t'.labels) == Recorded(t.labels) + Stored(Price(model))
            && t'.labels == t.labels + [Label(id, Some(model), Stored(Price(model)))]
  {
    hide Teachers, FirstAnswer, Estimate, Price, Stored;
    var t' := AfterRow(t, false, Capture(id, task), reply);
    assert t'.labels[..|t.labels|] == t.labels;
  }

  ghost predicate IdsBelow(labels: seq<Label>, k: nat) {
    forall i :: 0 <= i < |labels| ==> labels[i].id < k
  }

  function MathRows(m: nat): seq<Capture> {
    seq(m, (i: nat) => Capture(i, "math_reasoning"))
  }

  /** DeepSeek answers the first `n` rows, the dearest fallback the rest. */
  function MathScript(n: nat): nat -> Reply {
    i => if i < n then FIRST_ANSWERS else THIRD_ANSWERS
  }

  lemma {:induction false} MathRun(m: nat, n: nat, remaining: int, t: Tally, k: nat)
    requires k <= n <= m <= n + 1 && 355 * m <= remaining
    requires t.spent == 355 * k && Recorded(t.labels) == 400 * k && IdsBelow(t.labels, k)
    ensures var end := Loop(t, false, remaining, MathRows(m), MathScript(n), k).0;
            && end.spent == 355 * n + (if m > n then 5_500 else 0)
            && Recorded(end.labels) == 400 * n + (if m > n then 5_500 else 0)
    decreases n - k
  {
    hide Teachers, FirstAnswer, Estimate, Recorded, AfterRow, Loop, Price, Stored;
    KnownAnswers();
    MathPrices();
    var rows, script := MathRows(m), MathScript(n);
    if k == m {
      LoopEnd(t, remaining, rows, script);
    } else {
      KnownRow(t, k, "math_reasoning", script(k), if k < n then DeepSeek else Gpt);
      var t1 := AfterRow(t, false, rows[k], script(k));
      LoopStep(t, remaining, rows, script, k);
      if k < n {
        MathRun(m, n, remaining, t1, k + 1);
      } else {
        LoopEnd(t1, remaining, rows, script);
      }
    }
  }

  lemma MathPrices()
    ensures Price(DeepSeek) == 355 && Stored(355) == 400 && Price(Gpt) == 5_500 && Stored(5_500) == 5_500
  {
  }

  lemma LoopEnd(t: Tally, remaining: int, rows: seq<Capture>, script: nat -> Reply)
    ensures Loop(t, false, remaining, rows, script, |rows|).0 == t
  {
  }

  lemma LoopStep(t: Tally, remaining: int, rows: seq<Capture>, script: nat -> Reply, k: nat)
    requires k < |rows| && !Exhausted(t, remaining, rows[k])
    ensures Loop(t, false, remaining, rows, script, k)
         == Loop(AfterRow(t, false, rows[k], script(k)), false, remaining, rows, script, k + 1)
  {
  }

  /** The recorded bound is reached by one run, for budgets of every size. */
  lemma RecordedBoundReached(n: nat)
    ensures var run := RunInput(false, true, MathRows(n + 1), MathScript(n));
            71 * Recorded(Day(355 * (n + 1), [], [run])) == 80 * (355 * (n + 1)) + 362_100
  {
    var budget, run := 355 * (n + 1), RunInput(false, true, MathRows(n + 1), MathScript(n));
    MathRun(n + 1, n, budget, Tally(0, 0, 0, []), 0);
    assert [run][..0] == [];
    assert Day(budget, [], [run][..0]) == [];
    assert Remaining(budget, [], true) == budget;
  }

  /** At the default budget of $20, mathematics answered by DeepSeek alone is recorded as $22.5352. */
  lemma TwentyDollars()
    ensures var run := RunInput(false, true, MathRows(56_338), MathScript(56_338));
            Recorded(Day(20_000_000, [], [run])) == 22_535_200
  {
    var run := RunInput(false, true, MathRows(56_338), MathScript(56_338));
    MathRun(56_338, 56_338, 20_000_000, Tally(0, 0, 0, []), 0);
    assert [run][..0] == [];
    assert Day(20_000_000, [], [run][..0]) == [];
    assert Remaining(20_000_000, [], true) == 20_000_000;
  }

  /** One committed label is enough to record more, or less, than was charged. */
  lemma OneLabelMisrecords()
    ensures var math := Loop(Tally(0, 0, 0, []), false, 355, [Capture(1, "math_reasoning")], i => FIRST_ANSWERS, 0).0;
            math.spent == 355 && Recorded(math.labels) == 400
    ensures var ocr := Loop(Tally(0, 0, 0, []), false, 1_625, [Capture(1, "ocr")], i => FIRST_ANSWERS, 0).0;
            ocr.spent == 1_625 && Recorded(ocr.labels) == 1_600
  {
    hide Teachers, FirstAnswer, AfterRow, Loop;
    KnownAnswers();
    OneRow([], 355, 1, "math_reasoning", FIRST_ANSWERS, DeepSeek);
    OneRow([], 1_625, 1, "ocr", FIRST_ANSWERS, Gemini);
  }

  /** The bound on one run is reached: a mathematics task whose first two teachers fail. */
  lemma GapReached()
    ensures var row := Capture(1, "math_reasoning");
            Loop(Tally(0, 0, 0, []), false, 355, [row], i => THIRD_ANSWERS, 0).0.spent == 355 + MAX_GAP
  {
    hide Teachers, FirstAnswer, AfterRow, Loop;
    KnownAnswers();
    OneRow([], 355, 1, "math_reasoning", THIRD_ANSWERS, Gpt);
  }

  /** A run over one row that fits. */
  lemma OneRow(labels: seq<Label>, remaining: int, id: nat, task: string, reply: Reply, model: Model)
    requires !Labelled(labels, id) && !reply.raises && reply.written
    requires (task, reply, model) in {("math_reasoning", FIRST_ANSWERS, DeepSeek),
                                      ("math_reasoning", THIRD_ANSWERS, Gpt), ("ocr", FIRST_ANSWERS, Gemini)}
    requires Estimate(task) <= remaining
    ensures var end := Loop(Tally(0, 0, 0, labels), false, remaining, [Capture(id, task)], i => reply, 0).0;
            && end.spent == Price(model) && Recorded(end.labels) == Recorded(labels) + Stored(Price(model))
            && end.labels == labels + [Label(id, Some(model), Stored(Price(model)))]
  {
    KnownAnswers();
    hide Teachers, FirstAnswer, Estimate, Price, Stored, Recorded;
    var start, row := Tally(0, 0, 0, labels), Capture(id, task);
    KnownRow(start, id, task, reply, model);
    var t1 := AfterRow(start, false, row, reply);
    assert Loop(t1, false, remaining, [row], i => reply, 1).0 == t1;
  }

  // A day of one-row runs: Gemini answers, then the dearest fallback on what is left.

  function OcrRun(i: nat): RunInput {
    RunInput(false, true, [Capture(i, "ocr")], k => FIRST_ANSWERS)
  }

  function LastRun(i: nat): RunInput {
    RunInput(false, true, [Capture(i, "math_reasoning")], k => THIRD_ANSWERS)
  }

  function OcrRuns(n: nat): seq<RunInput> {
    if n == 0 then [] else OcrRuns(n - 1) + [OcrRun(n - 1)]
  }

  lemma RunsAppend(dailyBudget: nat, before: seq<RunInput>, r: RunInput)
    ensures Day(dailyBudget, [], before + [r]) == RunEnd(dailyBudget, Day(dailyBudget, [], before), r).labels
    ensures Charged(dailyBudget, [], before + [r])
         == Charged(dailyBudget, [], before) + ChargedBy(dailyBudget, Day(dailyBudget, [], before), r)
    ensures CommittedDay(dailyBudget, [], before) && CommittedRun(Day(dailyBudget, [], before), r) ==>
      CommittedDay(dailyBudget, [], before + [r])
  {
    hide RunEnd, ChargedBy, CommittedRun;
    var all := before + [r];
    assert all[..|before|] == before;
    assert forall i :: 0 <= i < |before| ==> all[..i] == before[..i] && all[i] == before[i];
  }

  /** What a one-row run adds to the day. */
  lemma OneRowRun(dailyBudget: nat, labels: seq<Label>, id: nat, last: bool)
    requires IdsBelow(labels, id) && Recorded(labels) + (if last then 355 else 1_625) <= dailyBudget
    ensures var r := if last then LastRun(id) else OcrRun(id);
            && CommittedRun(labels, r)
            && ChargedBy(dailyBudget, labels, r) == (if last then 5_500 else 1_625)
            && Recorded(RunEnd(dailyBudget, labels, r).labels) == Recorded(labels) + (if last then 5_500 else 1_600)
            && IdsBelow(RunEnd(dailyBudget, labels, r).labels, id + 1)
  {
    hide Recorded, Teachers, FirstAnswer;
    KnownAnswers();
    var remaining := Remaining(dailyBudget, labels, true);
    if last {
      OneRow(labels, remaining, id, "math_reasoning", THIRD_ANSWERS, Gpt);
    } else {
      OneRow(labels, remaining, id, "ocr", FIRST_ANSWERS, Gemini);
    }
  }

  lemma EmptyDay(dailyBudget: nat)
    ensures Day(dailyBudget, [], []) == [] && Recorded([]) == 0
    ensures Charged(dailyBudget, [], []) == 0 && CommittedDay(dailyBudget, [], [])
  {
  }

  lemma {:induction false} OcrDay(dailyBudget: nat, n: nat)
    requires 1_600 * n + 25 <= dailyBudget
    ensures var end := Day(dailyBudget, [], OcrRuns(n));
            && IdsBelow(end, n) && Recorded(end) == 1_600 * n
            && Charged(dailyBudget, [], OcrRuns(n)) == 1_625 * n && CommittedDay(dailyBudget, [], OcrRuns(n))
  {
    hide Day, Charged, CommittedDay, RunEnd, ChargedBy, CommittedRun, Recorded;
    if n == 0 {
      EmptyDay(dailyBudget);
    } else {
      OcrDay(dailyBudget, n - 1);
      RunsAppend(dailyBudget, OcrRuns(n - 1), OcrRun(n - 1));
      OneRowRun(dailyBudget, Day(dailyBudget, [], OcrRuns(n - 1)), n - 1, false);
    }
  }

  /** The bound on a day's charges is reached, by days of every length that commit all
      their labels: each run stays within its own budget, the day does not. */
  lemma ChargeBoundReached(n: nat)
    ensures var budget, runs := 1_600 * n + 355, OcrRuns(n) + [LastRun(n)];
            && CommittedDay(budget, [], runs)
            && 64 * Charged(budget, [], runs) == 65 * budget + 328_925
            && Charged(budget, [], runs) - budget == 25 * n + MAX_GAP
  {
    hide Day, Charged, CommittedDay, RunEnd, ChargedBy, CommittedRun, Recorded;
    var budget := 1_600 * n + 355;
    OcrDay(budget, n);
    RunsAppend(budget, OcrRuns(n), LastRun(n));
    OneRowRun(budget, Day(budget, [], OcrRuns(n)), n, true);
  }

  /** And if inserts are lost nothing bounds the charges: with a budget for one call, each
      run charges for the same capture again. */
  lemma {:induction false} LostLabelsCharge(n: nat)
    ensures var reply := Reply(i => true, false, false);
            var runs := seq(n, _ => RunInput(false, true, [Capture(1, "vrs_concierge")], i => reply));
            Day(4_500, [], runs) == [] && Charged(4_500, [], runs) == 4_500 * n
  {
    var reply := Reply(i => true, false, false);
    var r := RunInput(false, true, [Capture(1, "vrs_concierge")], i => reply);
    var runs := seq(n, _ => r);
    if n > 0 {
      LostLabelsCharge(n - 1);
      assert runs[..n - 1] == seq(n - 1, _ => r);
      OneLostRun(r, reply);
    }
  }

  lemma OneLostRun(r: RunInput, reply: Reply)
    requires reply.answers(0) && !reply.raises && !reply.written
    requires !r.dryRun && r.readable && r.rows == [Capture(1, "vrs_concierge")] && r.script(0) == reply
    ensures RunEnd(4_500, [], r) == Tally(4_500, 1, 0, [])
  {
    var row := r.rows[0];
    assert Teachers(row.task) == [Claude, Gpt];
    assert FirstAnswer(Teachers(row.task), reply.answers, 0) == Some(Claude);
    var t := Tally(4_500, 1, 0, []);
    assert AfterRow(Tally(0, 0, 0, []), false, row, reply) == t;
    assert Remaining(4_500, [], true) == 4_500;
    assert Loop(t, false, 4_500, r.rows, r.script, 1).0 == t;
  }
}
