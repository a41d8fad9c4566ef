/**
 What every history of reindex runs keeps: runs that crash, halt or complete, in
 any number and order, with the state file deleted at any time in between.
 */
module ReindexHistory {
  import opened Common
  import opened Reindex

  /** Something that happens to the durable state. `Forget` is `--reset-state`, and
      `Resume` is `--resume-from`: it rewrites the cursor of the checkpoint file. */
  datatype Event = Invoke(args: Args, script: nat -> Step) | Forget | Resume(offset: nat, dies: bool)

  predicate Copying(e: Event) {
    e.Forget? || (e.Invoke? && !e.args.dryRun)
  }

  ghost predicate AllCopying(history: seq<Event>) {
    forall i :: 0 <= i < |history| ==> Copying(history[i])
  }

  ghost function Apply(job: Job, w: World, e: Event): World {
    match e
    case Invoke(args, script) => Run(job, args, script, w).0
    case Forget => w.(saved := None, torn := false, passes := 0)
    case Resume(offset, dies) =>
      if w.torn then w
      else if dies then w.(torn := true)
      else w.(saved := Some(Load(w).(nextOffset := Some(offset))))
  }

  ghost function After(job: Job, w: World, history: seq<Event>): World {
    if history == [] then w
    else Apply(job, After(job, w, history[..|history| - 1]), history[|history| - 1])
  }

  function Start(initial: map<nat, Stored>): World {
    World(None, false, initial, 0, false)
  }

  // ---- The invariant ---------------------------------------------------------

  /** Every eligible point before index `n` is stored with its own embedding and payload. */
  ghost predicate Covered(job: Job, n: nat, target: map<nat, Stored>)
    requires n <= |job.source|
  {
    forall k :: 0 <= k < n && Eligible(job, job.source[k]) ==>
      job.source[k].id in target && target[job.source[k].id] == Image(job, job.source[k])
  }

  ghost function CursorOf(job: Job, w: World): nat {
    Pos(job.source, Load(w).nextOffset)
  }

  ghost predicate CursorOk(job: Job, w: World) {
    Load(w).nextOffset.Some? ==>
      CursorOf(job, w) < |job.source| && Load(w).nextOffset == CursorAt(job.source, CursorOf(job, w))
  }

  /** Eligible points met in `k` passes and a prefix of length `p`. */
  ghost function Tally(job: Job, k: nat, p: nat): nat
    requires p <= |job.source|
  {
    k * CountEligible(job, job.source) + CountEligible(job, job.source[..p])
  }

  /** The counters are exactly those of the completed passes and the saved prefix. */
  ghost predicate CountersOk(job: Job, w: World) {
    var cp := Load(w);
    && cp.processed == Tally(job, w.passes, CursorOf(job, w))
    && cp.processed + cp.errors == w.passes * |job.source| + CursorOf(job, w)
  }

  ghost predicate Safe(job: Job, w: World) {
    && CursorOk(job, w)
    && Covered(job, CursorOf(job, w), w.target)
    && (w.done ==> Covered(job, |job.source|, w.target))
  }

  /** Every stored point was there at the start, unchanged, or is the image of an eligible source point. */
  ghost predicate Origin(job: Job, initial: map<nat, Stored>, t: map<nat, Stored>) {
    forall id :: id in t ==>
      (id in initial && t[id] == initial[id])
      || (id in EligibleIds(job, job.source) && t[id] == ImageOf(job, id))
  }

  // ---- Steps keep the invariant ------------------------------------------------

  lemma OverlayKeepsCovered(job: Job, n: nat, t: map<nat, Stored>, ids: set<nat>)
    requires ValidJob(job) && n <= |job.source| && Covered(job, n, t) && ids <= EligibleIds(job, job.source)
    ensures Covered(job, n, Overlay(job, t, ids))
  {
    forall k | 0 <= k < n && Eligible(job, job.source[k])
      ensures job.source[k].id in Overlay(job, t, ids)
      ensures Overlay(job, t, ids)[job.source[k].id] == Image(job, job.source[k])
    {
      ImageOfAt(job, k);
    }
  }

  lemma SliceCovers(job: Job, t: map<nat, Stored>, a: nat, b: nat)
    requires ValidJob(job) && a <= b <= |job.source| && Covered(job, a, t)
    ensures EligibleIds(job, job.source[a..b]) <= EligibleIds(job, job.source)
    ensures Covered(job, b, Overlay(job, t, EligibleIds(job, job.source[a..b])))
  {
    SliceIds(job, a, b);
    var ids := EligibleIds(job, job.source[a..b]);
    OverlayKeepsCovered(job, a, t, ids);
    forall k | a <= k < b && Eligible(job, job.source[k])
      ensures job.source[k].id in ids && ImageOf(job, job.source[k].id) == Image(job, job.source[k])
    {
      ImageOfAt(job, k);
      assert job.source[a..b][k - a] == job.source[k];
    }
  }

  lemma FinishCursor(job: Job, args: Args, w: World, pos: nat, end: nat)
    requires ValidJob(job) && pos < end <= |job.source|
    ensures CursorOk(job, FinishWindow(job, args, w, pos, end))
    ensures CursorOf(job, FinishWindow(job, args, w, pos, end)) == if end == |job.source| then 0 else end
  {
    if end < |job.source| {
      PosOfCursor(job, end);
    }
  }

  lemma FinishSafe(job: Job, args: Args, w: World, pos: nat, end: nat)
    requires ValidJob(job) && pos < end <= |job.source| && !args.dryRun
    requires Safe(job, w) && CursorOf(job, w) == pos
    ensures Safe(job, FinishWindow(job, args, w, pos, end))
  {
    FinishCursor(job, args, w, pos, end);
    SliceCovers(job, w.target, pos, end);
    if w.done {
      OverlayKeepsCovered(job, |job.source|, w.target, EligibleIds(job, job.source[pos..end]));
    }
  }

  lemma CrashSafe(job: Job, args: Args, w: World, pos: nat, end: nat, lost: set<nat>)
    requires ValidJob(job) && pos < end <= |job.source| && Safe(job, w)
    ensures EligibleIds(job, job.source[pos..end]) <= EligibleIds(job, job.source)
    ensures Safe(job, w.(target := CrashTarget(job, args, w.target, job.source[pos..end], lost)))
  {
    SliceIds(job, pos, end);
    if !args.dryRun {
      var ids := EligibleIds(job, job.source[pos..end]) - lost;
      OverlayKeepsCovered(job, CursorOf(job, w), w.target, ids);
      if w.done {
        OverlayKeepsCovered(job, |job.source|, w.target, ids);
      }
    }
  }

  lemma TornSafe(job: Job, w: World)
    requires Safe(job, w)
    ensures Safe(job, w.(torn := true))
  {
  }

  lemma TallyAdvance(job: Job, k: nat, pos: nat, end: nat)
    requires pos <= end <= |job.source|
    ensures Tally(job, k, end) == Tally(job, k, pos) + CountEligible(job, job.source[pos..end])
  {
    assert job.source[..pos] + job.source[pos..end] == job.source[..end];
    CountEligibleConcat(job, job.source[..pos], job.source[pos..end]);
  }

  lemma TallyWrap(job: Job, k: nat)
    ensures Tally(job, k, |job.source|) == Tally(job, k + 1, 0)
    ensures k * |job.source| + |job.source| == (k + 1) * |job.source|
  {
    assert job.source[..|job.source|] == job.source;
    assert CountEligible(job, job.source[..0]) == 0;
  }

  lemma FinishCounts(job: Job, args: Args, w: World, pos: nat, end: nat)
    requires ValidJob(job) && pos < end <= |job.source| && !args.dryRun
    requires CountersOk(job, w) && CursorOf(job, w) == pos
    ensures CountersOk(job, FinishWindow(job, args, w, pos, end))
  {
    FinishCursor(job, args, w, pos, end);
    TallyAdvance(job, w.passes, pos, end);
    if end == |job.source| {
      TallyWrap(job, w.passes);
    }
  }

  lemma {:induction false} RunKeeps(job: Job, args: Args, script: nat -> Step, k: nat, pos: nat, w: World)
    requires ValidJob(job) && !args.dryRun && pos == CursorOf(job, w)
    requires Safe(job, w) && CountersOk(job, w)
    ensures var (w', outcome) := RunFrom(job, args, script, k, pos, w);
      Safe(job, w') && CountersOk(job, w') && (outcome == Completed ==> w'.done) && (w.done ==> w'.done)
    decreases |job.source| - pos
  {
    hide Covered, Overlay, Tally, LowerBound, Eligible, CountEligible;
    if pos < |job.source| {
      WindowEndAdvances(job.source, args, pos);
      var end := WindowEnd(job.source, args, pos);
      match script(k) {
        case Crash(lost) =>
          CrashSafe(job, args, w, pos, end, lost);
        case DieSaving =>
          CrashSafe(job, args, w, pos, end, {});
          TornSafe(job, w.(target := CrashTarget(job, args, w.target, job.source[pos..end], {})));
        case Finish(halt) =>
          FinishSafe(job, args, w, pos, end);
          FinishCounts(job, args, w, pos, end);
          FinishCursor(job, args, w, pos, end);
          if end < |job.source| && !halt {
            RunKeeps(job, args, script, k + 1, end, FinishWindow(job, args, w, pos, end));
          }
      }
    }
  }

  // ---- Where the stored points come from ---------------------------------------------

  lemma OverlayOrigin(job: Job, initial: map<nat, Stored>, t: map<nat, Stored>, ids: set<nat>)
    requires Origin(job, initial, t) && ids <= EligibleIds(job, job.source)
    ensures Origin(job, initial, Overlay(job, t, ids))
  {
    hide ImageOf, EligibleIds;
  }

  /** Dry or not, and however it ends. */
  lemma {:induction false} RunOrigin(job: Job, initial: map<nat, Stored>, args: Args, script: nat -> Step, k: nat,
                                     pos: nat, w: World)
    requires pos <= |job.source| && Origin(job, initial, w.target)
    ensures Origin(job, initial, RunFrom(job, args, script, k, pos, w).0.target)
    decreases |job.source| - pos
  {
    hide Origin, Overlay, LowerBound, Eligible, CountEligible;
    if pos < |job.source| {
      WindowEndAdvances(job.source, args, pos);
      var end := WindowEnd(job.source, args, pos);
      SliceIds(job, pos, end);
      var ids := EligibleIds(job, job.source[pos..end]);
      match script(k) {
        case Crash(lost) =>
          OverlayOrigin(job, initial, w.target, ids - lost);
        case DieSaving =>
          OverlayOrigin(job, initial, w.target, ids - {});
        case Finish(halt) =>
          OverlayOrigin(job, initial, w.target, ids);
          if end < |job.source| && !halt {
            RunOrigin(job, initial, args, script, k + 1, end, FinishWindow(job, args, w, pos, end));
          }
      }
    }
  }

  lemma {:induction false} HistoryOrigin(job: Job, initial: map<nat, Stored>, history: seq<Event>)
    ensures Origin(job, initial, After(job, Start(initial), history).target)
  {
    if history != [] {
      hide Origin, RunFrom, LowerBound;
      var before, e := history[..|history| - 1], history[|history| - 1];
      HistoryOrigin(job, initial, before);
      var w := After(job, Start(initial), before);
      if e.Invoke? && !w.torn && e.args.targetOk {
        RunOrigin(job, initial, e.args, e.script, 0, CursorOf(job, w), w);
      }
    }
  }

  // ---- Main results ------------------------------------------------------------

  /** Every history of copying runs, however they end: what lies before the saved
      cursor is in the target with its own image, nothing foreign is, and the
      counters are those of the completed passes plus the saved prefix. */
  lemma {:induction false} HistorySafe(job: Job, initial: map<nat, Stored>, history: seq<Event>)
    requires ValidJob(job) && AllCopying(history)
    ensures Safe(job, After(job, Start(initial), history))
    ensures CountersOk(job, After(job, Start(initial), history))
    ensures initial.Keys <= EligibleIds(job, job.source) ==>
      After(job, Start(initial), history).target.Keys <= EligibleIds(job, job.source)
  {
    HistoryOrigin(job, initial, history);
    if history == [] {
      assert CountEligible(job, job.source[..0]) == 0;
    } else {
      var before, e := history[..|history| - 1], history[|history| - 1];
      HistorySafe(job, initial, before);
      assert Copying(e);
      var w := After(job, Start(initial), before);
      match e {
        case Invoke(args, script) =>
          if !w.torn && args.targetOk {
            RunKeeps(job, args, script, 0, CursorOf(job, w), w);
          }
        case Forget => assert CountEligible(job, job.source[..0]) == 0;
      }
    }
  }

  // What is stored, from the payloads alone.

  /** A text with something other than white space in it. */
  predicate SaysSomething(text: string) {
    exists i :: 0 <= i < |text| && !IsSpace(text[i])
  }

  /** The point has this payload, and this text in the job's field. */
  predicate HasText(job: Job, p: Point, m: map<string, Value>, text: string) {
    p.payload == Some(m) && job.field in m && m[job.field] == Str(text) && SaysSomething(text)
  }

  lemma EligibleHasText(job: Job, p: Point)
    ensures Eligible(job, p) <==> exists m, text :: HasText(job, p, m, text)
    ensures forall m, text :: HasText(job, p, m, text) ==>
      Eligible(job, p) && Image(job, p) == Stored(job.embed(text), m)
  {
    if Eligible(job, p) {
      var m := p.payload.value;
      assert HasText(job, p, m, m[job.field].text);
    }
  }

  /** After every copying history a point with a text, before the saved cursor, is in the
      target with the embedding of that text and its own payload, whatever the target held. */
  lemma StoredBeforeCursor(job: Job, initial: map<nat, Stored>, history: seq<Event>, k: nat, m: map<string, Value>,
                           text: string)
    requires ValidJob(job) && AllCopying(history)
    requires k < |job.source| && HasText(job, job.source[k], m, text)
    requires var saved := After(job, Start(initial), history).saved;
      saved.Some? && saved.value.nextOffset.Some? && job.source[k].id < saved.value.nextOffset.value
    ensures var target := After(job, Start(initial), history).target;
      job.source[k].id in target && target[job.source[k].id] == Stored(job.embed(text), m)
  {
    hide After, Eligible, Image, EligibleIds;
    HistorySafe(job, initial, history);
    EligibleHasText(job, job.source[k]);
    var n := CursorOf(job, After(job, Start(initial), history));
    assert k < n;
  }

  /** And once any run has completed, every point with a text is. */
  lemma StoredOnceCompleted(job: Job, initial: map<nat, Stored>, history: seq<Event>, i: nat, k: nat,
                            m: map<string, Value>, text: string)
    requires ValidJob(job) && AllCopying(history)
    requires i < |history| && history[i].Invoke?
    requires Run(job, history[i].args, history[i].script, After(job, Start(initial), history[..i])).1 == Completed
    requires k < |job.source| && HasText(job, job.source[k], m, text)
    ensures var target := After(job, Start(initial), history).target;
      job.source[k].id in target && target[job.source[k].id] == Stored(job.embed(text), m)
  {
    hide Eligible, Image, EligibleIds, RunFrom, LowerBound;
    CompletedIsDone(job, initial, history, i);
    HistorySafe(job, initial, history);
    EligibleHasText(job, job.source[k]);
  }

  /** Conversely, whatever the events were: a stored point is one the target held at the
      start, or a source point with a text, with that text's embedding and its payload. */
  lemma StoredOnlyFromTexts(job: Job, initial: map<nat, Stored>, history: seq<Event>, id: nat)
    requires id in After(job, Start(initial), history).target
    ensures var stored := After(job, Start(initial), history).target[id];
      (id in initial && stored == initial[id])
      || exists k, m, text :: 0 <= k < |job.source| && job.source[k].id == id && HasText(job, job.source[k], m, text)
                              && stored == Stored(job.embed(text), m)
  {
    hide After, Eligible, Image;
    HistoryOrigin(job, initial, history);
    var stored := After(job, Start(initial), history).target[id];
    if !(id in initial && stored == initial[id]) {
      var k :| 0 <= k < |job.source| && Eligible(job, job.source[k]) && job.source[k].id == id
               && stored == Image(job, job.source[k]);
      EligibleHasText(job, job.source[k]);
      var m, text :| HasText(job, job.source[k], m, text);
      assert stored == Stored(job.embed(text), m);
    }
  }

  predicate Speaks(job: Job, p: Point) {
    && p.payload.Some? && job.field in p.payload.value && p.payload.value[job.field].Str?
    && SaysSomething(p.payload.value[job.field].text)
  }

  /** The source positions before `n` whose point has a text. */
  function Texts(job: Job, n: nat): set<nat>
    requires n <= |job.source|
  {
    set k | 0 <= k < n && Speaks(job, job.source[k])
  }

  lemma {:induction false} CountIsTexts(job: Job, n: nat)
    requires n <= |job.source|
    ensures CountEligible(job, job.source[..n]) == |Texts(job, n)|
  {
    if n > 0 {
      CountIsTexts(job, n - 1);
      assert job.source[..n][..n - 1] == job.source[..n - 1];
      var last := job.source[n - 1];
      assert Speaks(job, last) <==> Eligible(job, last);
      assert Texts(job, n) == Texts(job, n - 1) + if Speaks(job, last) then {n - 1} else {};
    }
  }

  /** The saved counters, counted in points with a text: of `passes` whole sources and of the prefix. */
  lemma CountersAreTexts(job: Job, initial: map<nat, Stored>, history: seq<Event>)
    requires ValidJob(job) && AllCopying(history)
    ensures var w := After(job, Start(initial), history);
            var n, cp := CursorOf(job, w), Load(w);
            && cp.processed == w.passes * |Texts(job, |job.source|)| + |Texts(job, n)|
            && cp.processed + cp.errors == w.passes * |job.source| + n
  {
    hide After, Safe, CountEligible, Texts;
    HistorySafe(job, initial, history);
    assert job.source[..|job.source|] == job.source;
    CountIsTexts(job, |job.source|);
    CountIsTexts(job, CursorOf(job, After(job, Start(initial), history)));
  }

  /** A covered target without foreign ids is exactly the image of the source. */
  lemma CoveredIsImage(job: Job, target: map<nat, Stored>)
    requires ValidJob(job) && target.Keys <= EligibleIds(job, job.source)
    ensures Covered(job, |job.source|, target) <==> target == FullImage(job)
  {
    var ids := EligibleIds(job, job.source);
    forall k | 0 <= k < |job.source| && Eligible(job, job.source[k])
      ensures job.source[k].id in ids && ImageOf(job, job.source[k].id) == Image(job, job.source[k])
    {
      ImageOfAt(job, k);
    }
    if Covered(job, |job.source|, target) {
      forall id | id in ids ensures id in target && target[id] == ImageOf(job, id) {
        var k :| 0 <= k < |job.source| && Eligible(job, job.source[k]) && job.source[k].id == id;
      }
    }
  }

  lemma DoneStep(job: Job, w: World, e: Event)
    requires ValidJob(job) && Copying(e) && Safe(job, w) && CountersOk(job, w) && w.done
    ensures Apply(job, w, e).done
  {
    if e.Invoke? && !w.torn && e.args.targetOk {
      RunKeeps(job, e.args, e.script, 0, CursorOf(job, w), w);
    }
  }

  lemma {:induction false} DoneStays(job: Job, initial: map<nat, Stored>, history: seq<Event>, i: nat)
    requires ValidJob(job) && AllCopying(history)
    requires i <= |history| && After(job, Start(initial), history[..i]).done
    ensures After(job, Start(initial), history).done
    decreases |history|
  {
    if i == |history| {
      assert history[..i] == history;
    } else {
      var before, e := history[..|history| - 1], history[|history| - 1];
      assert before[..i] == history[..i];
      DoneStays(job, initial, before, i);
      HistorySafe(job, initial, before);
      assert Copying(e);
      DoneStep(job, After(job, Start(initial), before), e);
    }
  }

  lemma CompletedIsDone(job: Job, initial: map<nat, Stored>, history: seq<Event>, i: nat)
    requires ValidJob(job) && AllCopying(history)
    requires i < |history| && history[i].Invoke?
    requires Run(job, history[i].args, history[i].script, After(job, Start(initial), history[..i])).1 == Completed
    ensures After(job, Start(initial), history).done
  {
    var w := After(job, Start(initial), history[..i]);
    HistorySafe(job, initial, history[..i]);
    assert Copying(history[i]);
    RunKeeps(job, history[i].args, history[i].script, 0, CursorOf(job, w), w);
    assert history[..i + 1][..i] == history[..i];
    DoneStays(job, initial, history, i + 1);
  }

  /** Once any run of the history has completed, the target is exactly the image of
      the eligible source points, for ever after. */
  lemma CompletedMeansExact(job: Job, initial: map<nat, Stored>, history: seq<Event>, i: nat)
    requires ValidJob(job) && initial.Keys <= EligibleIds(job, job.source)
    requires AllCopying(history)
    requires i < |history| && history[i].Invoke?
    requires Run(job, history[i].args, history[i].script, After(job, Start(initial), history[..i])).1 == Completed
    ensures After(job, Start(initial), history).target == FullImage(job)
  {
    hide Run, After, FullImage, EligibleIds, Covered;
    CompletedIsDone(job, initial, history, i);
    HistorySafe(job, initial, history);
    CoveredIsImage(job, After(job, Start(initial), history).target);
  }

  /** A run that is neither killed nor halted always completes. */
  lemma {:induction false} UninterruptedCompletes(job: Job, args: Args, script: nat -> Step, k: nat, pos: nat, w: World)
    requires pos <= |job.source|
    requires forall i :: script(i) == Finish(false)
    ensures RunFrom(job, args, script, k, pos, w).1 == Completed
    decreases |job.source| - pos
  {
    if pos < |job.source| {
      WindowEndAdvances(job.source, args, pos);
      var end := WindowEnd(job.source, args, pos);
      if end < |job.source| {
        UninterruptedCompletes(job, args, script, k + 1, end, FinishWindow(job, args, w, pos, end));
      }
    }
  }

  // ---- Recovery and the torn checkpoint ----------------------------------------------

  /** The event dies while it overwrites the checkpoint file. */
  ghost predicate DiesSaving(job: Job, w: World, e: Event) {
    match e
    case Invoke(args, script) => Run(job, args, script, w).1 == Torn
    case Forget => false
    case Resume(_, dies) => dies && !w.torn
  }

  /** Some event of the history died in the save, and no reset followed. */
  ghost predicate TornUnreset(job: Job, w: World, history: seq<Event>) {
    exists i :: 0 <= i < |history| && DiesSaving(job, After(job, w, history[..i]), history[i])
                && forall j :: i < j < |history| ==> !history[j].Forget?
  }

  lemma {:induction false} RunTears(job: Job, args: Args, script: nat -> Step, k: nat, pos: nat, w: World)
    requires pos <= |job.source| && !w.torn
    ensures var (w', outcome) := RunFrom(job, args, script, k, pos, w);
      outcome != Refused && (w'.torn <==> outcome == Torn)
    decreases |job.source| - pos
  {
    if pos < |job.source| {
      WindowEndAdvances(job.source, args, pos);
      var end := WindowEnd(job.source, args, pos);
      SliceIds(job, pos, end);
      if script(k).Finish? && end < |job.source| && !script(k).halt {
        RunTears(job, args, script, k + 1, end, FinishWindow(job, args, w, pos, end));
      }
    }
  }

  lemma TearStep(job: Job, w: World, e: Event)
    ensures Apply(job, w, e).torn <==> !e.Forget? && (w.torn || DiesSaving(job, w, e))
  {
    hide RunFrom, LowerBound;
    if e.Invoke? && !w.torn && e.args.targetOk {
      RunTears(job, e.args, e.script, 0, CursorOf(job, w), w);
    }
  }

  lemma TornUnresetStep(job: Job, w: World, before: seq<Event>, e: Event)
    ensures TornUnreset(job, w, before + [e])
       <==> !e.Forget? && (TornUnreset(job, w, before) || DiesSaving(job, After(job, w, before), e))
  {
    hide DiesSaving, After;
    var all := before + [e];
    assert all[..|before|] == before;
    assert forall i :: 0 <= i < |before| ==> all[..i] == before[..i] && all[i] == before[i];
    if TornUnreset(job, w, before) && !e.Forget? {
      var i :| 0 <= i < |before| && DiesSaving(job, After(job, w, before[..i]), before[i])
               && forall j :: i < j < |before| ==> !before[j].Forget?;
      assert DiesSaving(job, After(job, w, all[..i]), all[i]);
    }
    if DiesSaving(job, After(job, w, before), e) && !e.Forget? {
      assert DiesSaving(job, After(job, w, all[..|before|]), all[|before|]);
    }
    if TornUnreset(job, w, all) {
      var i :| 0 <= i < |all| && DiesSaving(job, After(job, w, all[..i]), all[i])
               && forall j :: i < j < |all| ==> !all[j].Forget?;
      ForgetSavesNothing(job, After(job, w, all[..i]), all[i]);
      if i < |before| {
        assert all[|before|] == e;
        assert DiesSaving(job, After(job, w, before[..i]), before[i]);
        assert forall j :: i < j < |before| ==> all[j] == before[j];
      }
    }
  }

  lemma ForgetSavesNothing(job: Job, w: World, e: Event)
    ensures DiesSaving(job, w, e) ==> !e.Forget?
  {
  }

  /** The file is unreadable exactly if some event died in the save without a reset since. */
  lemma {:induction false} TornIff(job: Job, w: World, history: seq<Event>)
    requires !w.torn
    ensures After(job, w, history).torn <==> TornUnreset(job, w, history)
  {
    hide DiesSaving, Apply, TornUnreset;
    if history == [] {
      assert !TornUnreset(job, w, history) by {
        NothingTorn(job, w);
      }
    } else {
      var before, e := history[..|history| - 1], history[|history| - 1];
      assert history == before + [e];
      TornIff(job, w, before);
      TearStep(job, After(job, w, before), e);
      TornUnresetStep(job, w, before, e);
    }
  }

  lemma NothingTorn(job: Job, w: World)
    ensures !TornUnreset(job, w, [])
  {
  }

  /** Whatever happened before, an uninterrupted copying run completes and leaves the
      exact image if and only if no death in a save is still waiting for a reset. In
      that case it refuses and changes nothing. */
  lemma RecoveryIff(job: Job, initial: map<nat, Stored>, history: seq<Event>, args: Args, script: nat -> Step)
    requires ValidJob(job) && initial.Keys <= EligibleIds(job, job.source)
    requires AllCopying(history)
    requires !args.dryRun && args.targetOk && forall i :: script(i) == Finish(false)
    ensures var w := After(job, Start(initial), history);
      var (w', outcome) := Run(job, args, script, w);
      && (outcome == Completed <==> !TornUnreset(job, Start(initial), history))
      && (outcome == Completed ==> w'.target == FullImage(job))
      && (outcome != Completed ==> outcome == Refused && w' == w)
  {
    hide TornUnreset, RunFrom, LowerBound, FullImage;
    var w := After(job, Start(initial), history);
    TornIff(job, Start(initial), history);
    if !w.torn {
      UninterruptedCompletes(job, args, script, 0, CursorOf(job, w), w);
      var longer := history + [Invoke(args, script)];
      assert longer[..|history|] == history;
      CompletedMeansExact(job, initial, longer, |history|);
    }
  }

  /** A reset always makes the next uninterrupted run exact. */
  lemma ResetRecovers(job: Job, initial: map<nat, Stored>, history: seq<Event>, args: Args, script: nat -> Step)
    requires ValidJob(job) && initial.Keys <= EligibleIds(job, job.source)
    requires AllCopying(history)
    requires !args.dryRun && args.targetOk && forall i :: script(i) == Finish(false)
    ensures Run(job, args, script, After(job, Start(initial), history + [Forget])).0.target == FullImage(job)
  {
    hide RunFrom, LowerBound, FullImage;
    TornUnresetStep(job, Start(initial), history, Forget);
    RecoveryIff(job, initial, history + [Forget], args, script);
  }

  // ---- The dry-run trap ---------------------------------------------------------

  /** The source points a dry run or a crash may leave behind the cursor. */
  ghost predicate CoveredFrom(job: Job, n: nat, target: map<nat, Stored>)
    requires n <= |job.source|
  {
    forall k :: n <= k < |job.source| && Eligible(job, job.source[k]) ==>
      job.source[k].id in target && target[job.source[k].id] == Image(job, job.source[k])
  }

  lemma SliceWritten(job: Job, t: map<nat, Stored>, a: nat, b: nat)
    requires ValidJob(job) && a <= b <= |job.source|
    ensures EligibleIds(job, job.source[a..b]) <= EligibleIds(job, job.source)
    ensures forall k :: a <= k < b && Eligible(job, job.source[k]) ==>
      && job.source[k].id in Overlay(job, t, EligibleIds(job, job.source[a..b]))
      && Overlay(job, t, EligibleIds(job, job.source[a..b]))[job.source[k].id] == Image(job, job.source[k])
  {
    SliceIds(job, a, b);
    forall k | a <= k < b && Eligible(job, job.source[k])
      ensures job.source[k].id in EligibleIds(job, job.source[a..b])
      ensures ImageOf(job, job.source[k].id) == Image(job, job.source[k])
    {
      ImageOfAt(job, k);
      assert job.source[a..b][k - a] == job.source[k];
    }
  }

  /** Points outside the slice keep what was stored for them. */
  lemma SliceLeavesPrefix(job: Job, t: map<nat, Stored>, a: nat, b: nat, ids: set<nat>)
    requires ValidJob(job) && a <= b <= |job.source|
    requires ids <= EligibleIds(job, job.source[a..b]) && ids <= EligibleIds(job, job.source)
    ensures forall k :: 0 <= k < a ==> SameAt(t, Overlay(job, t, ids), job.source[k].id)
  {
    forall k | 0 <= k < a ensures SameAt(t, Overlay(job, t, ids), job.source[k].id) {
      forall m | 0 <= m < b - a ensures job.source[a..b][m].id != job.source[k].id {
        assert job.source[a..b][m] == job.source[a + m];
      }
    }
  }

  ghost predicate SameAt(t: map<nat, Stored>, t': map<nat, Stored>, id: nat) {
    (id in t <==> id in t') && (id in t && id in t' ==> t[id] == t'[id])
  }

  /** A copying run touches nothing before the index it starts from, and when it
      completes it has written everything from there on. */
  lemma {:induction false} RunWritesSuffix(job: Job, args: Args, script: nat -> Step, k: nat, pos: nat, w: World)
    requires ValidJob(job) && !args.dryRun && pos <= |job.source|
    requires w.target.Keys <= EligibleIds(job, job.source)
    ensures var (w', outcome) := RunFrom(job, args, script, k, pos, w);
      && w'.target.Keys <= EligibleIds(job, job.source)
      && (outcome == Completed ==> CoveredFrom(job, pos, w'.target))
      && forall i :: 0 <= i < pos ==> SameAt(w.target, w'.target, job.source[i].id)
    decreases |job.source| - pos
  {
    if pos < |job.source| {
      WindowEndAdvances(job.source, args, pos);
      var end := WindowEnd(job.source, args, pos);
      SliceIds(job, pos, end);
      match script(k) {
        case Crash(lost) =>
          SliceLeavesPrefix(job, w.target, pos, end, EligibleIds(job, job.source[pos..end]) - lost);
        case DieSaving =>
          SliceLeavesPrefix(job, w.target, pos, end, EligibleIds(job, job.source[pos..end]) - {});
        case Finish(halt) =>
          SliceLeavesPrefix(job, w.target, pos, end, EligibleIds(job, job.source[pos..end]));
          SliceWritten(job, w.target, pos, end);
          if end < |job.source| && !halt {
            RunWritesSuffix(job, args, script, k + 1, end, FinishWindow(job, args, w, pos, end));
          }
      }
    }
  }

  /** The exact condition, whatever led to the state: a copying run that completes
      leaves the exact image if and only if the eligible points before the cursor
      it resumed from were already stored with their own images. */
  lemma CompletedExactIff(job: Job, args: Args, script: nat -> Step, w: World)
    requires ValidJob(job) && !args.dryRun
    requires w.target.Keys <= EligibleIds(job, job.source)
    requires Run(job, args, script, w).1 == Completed
    ensures Run(job, args, script, w).0.target == FullImage(job) <==> Covered(job, CursorOf(job, w), w.target)
  {
    hide RunFrom, LowerBound;
    var pos, t' := CursorOf(job, w), Run(job, args, script, w).0.target;
    RunWritesSuffix(job, args, script, 0, pos, w);
    CoveredIsImage(job, t');
    forall k | 0 <= k < pos && Eligible(job, job.source[k]) ensures SameAt(w.target, t', job.source[k].id) {
    }
    assert Covered(job, |job.source|, t') <==> Covered(job, pos, t');
  }

  /** A dry run embeds and stores nothing and leaves the counters alone, but it
      does move the saved cursor, as far as a copying run would. */
  lemma {:induction false} DryRunMovesCursor(job: Job, args: Args, script: nat -> Step, k: nat, pos: nat, w: World)
    requires ValidJob(job) && args.dryRun && pos < |job.source|
    ensures var (w', outcome) := RunFrom(job, args, script, k, pos, w);
      && w'.target == w.target && w'.done == w.done && w'.passes == w.passes
      && Load(w').processed == Load(w).processed && Load(w').errors == Load(w).errors
      && (outcome == Completed ==> CursorOf(job, w') == 0)
      && (outcome == Halted ==> pos < CursorOf(job, w') < |job.source|)
    decreases |job.source| - pos
  {
    WindowEndAdvances(job.source, args, pos);
    var end := WindowEnd(job.source, args, pos);
    SliceIds(job, pos, end);
    if script(k).Finish? {
      FinishCursor(job, args, w, pos, end);
      if end < |job.source| && !script(k).halt {
        DryRunMovesCursor(job, args, script, k + 1, end, FinishWindow(job, args, w, pos, end));
      }
    }
  }

  /** The same for `--resume-from`: a completed copy is exact if and only if the points
      before the given id were already stored. */
  lemma ResumeThenCopy(job: Job, w: World, offset: nat, args: Args, script: nat -> Step)
    requires ValidJob(job) && !args.dryRun && !w.torn
    requires w.target.Keys <= EligibleIds(job, job.source)
    requires Run(job, args, script, Apply(job, w, Resume(offset, false))).1 == Completed
    ensures Run(job, args, script, Apply(job, w, Resume(offset, false))).0.target == FullImage(job)
       <==> Covered(job, LowerBound(job.source, offset), w.target)
  {
    hide RunFrom, LowerBound, FullImage, Covered;
    CompletedExactIff(job, args, script, Apply(job, w, Resume(offset, false)));
  }

  /** From an empty target: after a dry run that was halted, a copying run that
      completes is exact if and only if the dry run skipped no eligible point. */
  lemma DryRunThenCopy(job: Job, dry: Args, dryScript: nat -> Step, args: Args, script: nat -> Step)
    requires ValidJob(job) && job.source != [] && dry.dryRun
    requires !args.dryRun
    requires Run(job, dry, dryScript, Start(map[])).1 == Halted
    requires Run(job, args, script, Run(job, dry, dryScript, Start(map[])).0).1 == Completed
    ensures var w := Run(job, dry, dryScript, Start(map[])).0;
      Run(job, args, script, w).0.target == FullImage(job)
      <==> EligibleIds(job, job.source[..CursorOf(job, w)]) == {}
  {
    DryRunMovesCursor(job, dry, dryScript, 0, 0, Start(map[]));
    var w := Run(job, dry, dryScript, Start(map[])).0;
    CompletedExactIff(job, args, script, w);
    var n := CursorOf(job, w);
    if Covered(job, n, map[]) {
      forall k | 0 <= k < n ensures !Eligible(job, job.source[..n][k]) {
        assert job.source[..n][k] == job.source[k];
      }
    } else {
      var k :| 0 <= k < n && Eligible(job, job.source[k]);
      assert job.source[..n][k] == job.source[k];
      assert job.source[k].id in EligibleIds(job, job.source[..n]);
    }
  }

  /** The trap is real: two eligible points, a dry run halted after the first, and
      the copying run that then completes has lost that point. */
  lemma DryRunLosesPoint(embed: string -> Vector)
    ensures var one := Point(1, Some(map["text" := Str("a")]));
      var two := Point(2, Some(map["text" := Str("b")]));
      var job := Job([one, two], "text", embed);
      var w := Run(job, Args(1, 1, true, true), i => Finish(true), Start(map[])).0;
      var (w', outcome) := Run(job, Args(1, 1, false, true), i => Finish(false), w);
      outcome == Completed && 1 in FullImage(job) && 1 !in w'.target
  {
    var one := Point(1, Some(map["text" := Str("a")]));
    var two := Point(2, Some(map["text" := Str("b")]));
    var job := Job([one, two], "text", embed);
    var dry, copy := Args(1, 1, true, true), Args(1, 1, false, true);
    assert !Blank("a") && !Blank("b") by {
      assert !IsSpace("a"[0]) && !IsSpace("b"[0]);
    }
    assert Eligible(job, job.source[0]) && Eligible(job, job.source[1]);
    assert PageEnd(job.source, 1, 0, 1) == 1 && PageEnd(job.source, 1, 1, 1) == 2;
    var w := Run(job, dry, i => Finish(true), Start(map[])).0;
    PosOfCursor(job, 1);
    assert CursorOf(job, w) == 1;
    RunWritesSuffix(job, copy, i => Finish(false), 0, 1, w);
    UninterruptedCompletes(job, copy, i => Finish(false), 0, 1, w);
    var w' := Run(job, copy, i => Finish(false), w).0;
    assert SameAt(w.target, w'.target, job.source[0].id);
  }
}
