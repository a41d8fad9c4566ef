/**
 The inbox watcher: every fetched message is skipped, escalated, drafted or
 reported as an error; drafts and label writes fail independently of each other.
 */
module GmailWatcher {
  import opened Common

  datatype Label = Drafted | Processed | HumanHelp

  /** A message of the mailbox. `visible` is inbox and unread, which the user changes. */
  datatype Message = Message(labels: set<Label>, visible: bool, drafts: nat)

  type Mailbox = map<nat, Message>

  datatype Reply = Reply(escalationRequired: bool, tone: string, topic: string, confidence: real,
                         examplesLoaded: nat, success: bool)

  datatype Config = Config(filterSenders: bool, threshold: real, maxPerRun: nat, dryRun: bool)

  /** How the draft call ends. `Unseen`: the draft exists but the call reported an error. */
  datatype DraftCall = Created | Refused | Unseen

  /** Where the process dies while working on a message, if it does. */
  datatype Stop = Go | BeforeWrites | BeforeLabels | AfterLabels

  /** `reply` is `None` when the pipeline raises; `labelled` tells whether the label
      write takes effect. */
  datatype Step = Step(allowed: bool, reply: Option<Reply>, draft: DraftCall, labelled: bool, stop: Stop)

  datatype Action = DraftedIt | Escalated | Failed
  datatype Entry = Entry(id: nat, action: Action)

  datatype Stats = Stats(processed: nat, drafted: nat, escalated: nat, skipped: nat, errors: nat)

  // ---- Decisions ------------------------------------------------------------------

  function ShouldEscalate(config: Config, r: Reply): bool {
    if r.escalationRequired || r.tone == "emergency" then true
    else if r.confidence < config.threshold then true
    else if r.topic == "general" && r.examplesLoaded == 0 then true
    else if !r.success then true
    else false
  }

  predicate Skipped(config: Config, st: Step) {
    config.filterSenders && !st.allowed
  }

  predicate LabelsLand(st: Step) {
    st.labelled && st.stop != BeforeLabels
  }

  /** What one message's processing does to it. */
  function Effect(config: Config, m: Message, st: Step): Message {
    if config.dryRun || Skipped(config, st) || st.reply.None? || st.stop == BeforeWrites then m
    else if ShouldEscalate(config, st.reply.value) then
      if LabelsLand(st) then m.(labels := m.labels + {HumanHelp, Processed}) else m
    else if !st.reply.value.success then m
    else
      match st.draft
      case Refused => m
      case Unseen => m.(drafts := m.drafts + 1)
      case Created =>
        if LabelsLand(st) then m.(drafts := m.drafts + 1, labels := m.labels + {Drafted, Processed})
        else m.(drafts := m.drafts + 1)
  }

  function AfterMessage(config: Config, box: Mailbox, id: nat, st: Step): Mailbox {
    if id in box then box[id := Effect(config, box[id], st)] else box
  }

  /** The mailbox after a pass, from its `k`-th message on. */
  function AfterPass(config: Config, box: Mailbox, picked: seq<nat>, script: nat -> Step, k: nat): Mailbox
    decreases |picked| - k
  {
    if k >= |picked| then box
    else
      var box' := AfterMessage(config, box, picked[k], script(k));
      if script(k).stop == Go then AfterPass(config, box', picked, script, k + 1) else box'
  }

  function AddMessage(config: Config, s: Stats, st: Step): Stats {
    var s := s.(processed := s.processed + 1);
    if Skipped(config, st) then s.(skipped := s.skipped + 1)
    else if st.reply.None? then s.(errors := s.errors + 1)
    else if ShouldEscalate(config, st.reply.value) then s.(escalated := s.escalated + 1)
    else if !config.dryRun && st.reply.value.success then
      if st.draft == Created then s.(drafted := s.drafted + 1) else s.(errors := s.errors + 1)
    else if config.dryRun then s.(drafted := s.drafted + 1)
    else s
  }

  const NO_STATS := Stats(0, 0, 0, 0, 0)

  function StatsOf(config: Config, script: nat -> Step, k: nat): Stats {
    if k == 0 then NO_STATS else AddMessage(config, StatsOf(config, script, k - 1), script(k - 1))
  }

  /** The log entries one message leaves. */
  function LogOf(config: Config, id: nat, st: Step): seq<Entry> {
    if Skipped(config, st) then []
    else if st.reply.None? then [Entry(id, Failed)]
    else if ShouldEscalate(config, st.reply.value) then [Entry(id, Escalated)]
    else if config.dryRun || (st.reply.value.success && st.draft == Created) then [Entry(id, DraftedIt)]
    else [Entry(id, Failed)]
  }

  function PassLog(config: Config, picked: seq<nat>, script: nat -> Step, k: nat): seq<Entry>
    requires k <= |picked|
  {
    if k == 0 then [] else PassLog(config, picked, script, k - 1) + LogOf(config, picked[k - 1], script(k - 1))
  }

  predicate RunsThrough(picked: seq<nat>, script: nat -> Step) {
    forall k :: 0 <= k < |picked| ==> script(k).stop == Go
  }

  function Plus(a: Stats, b: Stats): Stats {
    Stats(a.processed + b.processed, a.drafted + b.drafted, a.escalated + b.escalated,
          a.skipped + b.skipped, a.errors + b.errors)
  }

  // ---- The program ---------------------------------------------------------------

  class Watcher {
    var box: Mailbox
    var log: seq<Entry>

    constructor (box: Mailbox)
      ensures this.box == box && log == []
    {
      this.box, log := box, [];
    }

    /** Creates a draft reply; the answer is the draft id the program sees. */
    method CreateDraft(id: nat, call: DraftCall) returns (seen: bool)
      modifies this`box
      ensures seen <==> call == Created
      ensures box == if call != Refused && id in old(box)
                     then old(box)[id := old(box)[id].(drafts := old(box)[id].drafts + 1)] else old(box)
    {
      if call != Refused && id in box {
        box := box[id := box[id].(drafts := box[id].drafts + 1)];
      }
      seen := call == Created;
    }

    /** Adds labels in one write. */
    method ApplyLabels(id: nat, add: set<Label>, lands: bool)
      modifies this`box
      ensures box == if lands && id in old(box)
                     then old(box)[id := old(box)[id].(labels := old(box)[id].labels + add)] else old(box)
    {
      if lands && id in box {
        box := box[id := box[id].(labels := box[id].labels + add)];
      }
    }

    /** One message of the pass; `alive` is false if the process dies in it. */
    method ProcessMessage(config: Config, id: nat, st: Step, stats: Stats) returns (alive: bool, stats': Stats)
      modifies this
      ensures box == AfterMessage(config, old(box), id, st)
      ensures alive <==> st.stop == Go
      ensures alive ==> stats' == AddMessage(config, stats, st) && log == old(log) + LogOf(config, id, st)
    {
      stats' := stats.(processed := stats.processed + 1);
      alive := st.stop == Go;
      if config.filterSenders && !st.allowed {
        stats' := stats'.(skipped := stats'.skipped + 1);
        return;
      }
      if st.reply.None? {
        stats' := stats'.(errors := stats'.errors + 1);
        log := log + [Entry(id, Failed)];
        return;
      }
      if st.stop == BeforeWrites {
        return;
      }
      var reply := st.reply.value;
      if ShouldEscalate(config, reply) {
        if !config.dryRun {
          ApplyLabels(id, {HumanHelp, Processed}, LabelsLand(st));
        }
        log := log + [Entry(id, Escalated)];
        stats' := stats'.(escalated := stats'.escalated + 1);
        return;
      }
      var seen := false;
      if !config.dryRun && reply.success {
        seen := CreateDraft(id, st.draft);
        if seen {
          ApplyLabels(id, {Drafted, Processed}, LabelsLand(st));
          stats' := stats'.(drafted := stats'.drafted + 1);
        } else {
          stats' := stats'.(errors := stats'.errors + 1);
        }
      } else if config.dryRun {
        stats' := stats'.(drafted := stats'.drafted + 1);
      }
      log := log + [Entry(id, if seen || config.dryRun then DraftedIt else Failed)];
    }

    /** One pass over the fetched messages. */
    method ProcessInbox(config: Config, picked: seq<nat>, script: nat -> Step) returns (alive: bool, stats: Stats)
      modifies this
      ensures box == AfterPass(config, old(box), picked, script, 0)
      ensures alive <==> RunsThrough(picked, script)
      ensures alive ==> stats == StatsOf(config, script, |picked|)
      ensures alive ==> log == old(log) + PassLog(config, picked, script, |picked|)
    {
      hide AfterMessage, AddMessage, LogOf;
      stats := NO_STATS;
      ghost var final := AfterPass(config, box, picked, script, 0);
      var k := 0;
      while k < |picked|
        invariant 0 <= k <= |picked|
        invariant AfterPass(config, box, picked, script, k) == final
        invariant stats == StatsOf(config, script, k)
        invariant log == old(log) + PassLog(config, picked, script, k)
        invariant forall i :: 0 <= i < k ==> script(i).stop == Go
      {
        alive, stats := ProcessMessage(config, picked[k], script(k), stats);
        if !alive {
          return;
        }
        k := k + 1;
      }
      alive := true;
    }

    /** Polls once per fetch until a pass dies or the fetches run out. */
    method WatchLoop(config: Config, fetches: seq<seq<nat>>, scripts: nat -> nat -> Step)
        returns (cycles: nat, total: Stats)
      modifies this
      ensures cycles <= |fetches| && forall c :: 0 <= c < cycles ==> RunsThrough(fetches[c], scripts(c))
      ensures cycles < |fetches| ==> !RunsThrough(fetches[cycles], scripts(cycles))
      ensures total == TotalOf(config, fetches, scripts, cycles)
      ensures box == AfterCycles(config, old(box), fetches, scripts, if cycles < |fetches| then cycles + 1 else cycles)
    {
      hide AfterPass, StatsOf, PassLog, RunsThrough;
      total := NO_STATS;
      cycles := 0;
      while cycles < |fetches|
        invariant 0 <= cycles <= |fetches|
        invariant total == TotalOf(config, fetches, scripts, cycles)
        invariant box == AfterCycles(config, old(box), fetches, scripts, cycles)
        invariant forall c :: 0 <= c < cycles ==> RunsThrough(fetches[c], scripts(c))
      {
        var alive, stats := ProcessInbox(config, fetches[cycles], scripts(cycles));
        if !alive {
          return;
        }
        total := Plus(total, stats);
        cycles := cycles + 1;
      }
    }
  }

  /** The mailbox after the first `cycles` passes. */
  function AfterCycles(config: Config, box: Mailbox, fetches: seq<seq<nat>>, scripts: nat -> nat -> Step, cycles: nat)
      : Mailbox
    requires cycles <= |fetches|
  {
    if cycles == 0 then box
    else
      var before := AfterCycles(config, box, fetches, scripts, cycles - 1);
      AfterPass(config, before, fetches[cycles - 1], scripts(cycles - 1), 0)
  }

  function TotalOf(config: Config, fetches: seq<seq<nat>>, scripts: nat -> nat -> Step, cycles: nat): Stats
    requires cycles <= |fetches|
  {
    if cycles == 0 then NO_STATS
    else Plus(TotalOf(config, fetches, scripts, cycles - 1),
              StatsOf(config, scripts(cycles - 1), |fetches[cycles - 1]|))
  }

  // ---- Conservation --------------------------------------------------------------

  predicate Balanced(s: Stats) {
    s.processed == s.drafted + s.escalated + s.skipped + s.errors
  }

  /** Every failed result is escalated before the draft branch can see it: the one
      branch that would count a message nowhere is dead. */
  lemma FailuresEscalate(config: Config, r: Reply)
    requires !ShouldEscalate(config, r)
    ensures r.success
  {
  }

  lemma {:induction false} PassBalanced(config: Config, script: nat -> Step, k: nat)
    ensures Balanced(StatsOf(config, script, k)) && StatsOf(config, script, k).processed == k
  {
    if k > 0 {
      PassBalanced(config, script, k - 1);
      var st := script(k - 1);
      if st.reply.Some? && !ShouldEscalate(config, st.reply.value) {
        FailuresEscalate(config, st.reply.value);
      }
    }
  }

  lemma {:induction false} TotalsBalanced(config: Config, fetches: seq<seq<nat>>, scripts: nat -> nat -> Step,
                                          cycles: nat)
    requires cycles <= |fetches|
    ensures Balanced(TotalOf(config, fetches, scripts, cycles))
    ensures TotalOf(config, fetches, scripts, cycles).processed == |Flatten(fetches[..cycles])|
  {
    hide StatsOf;
    if cycles > 0 {
      TotalsBalanced(config, fetches, scripts, cycles - 1);
      PassBalanced(config, scripts(cycles - 1), |fetches[cycles - 1]|);
      assert fetches[..cycles][..cycles - 1] == fetches[..cycles - 1];
    }
  }

  function Logged(log: seq<Entry>, action: Action): nat {
    if log == [] then 0 else Logged(log[..|log| - 1], action) + if log[|log| - 1].action == action then 1 else 0
  }

  lemma {:induction false} LoggedConcat(a: seq<Entry>, b: seq<Entry>, action: Action)
    ensures Logged(a + b, action) == Logged(a, action) + Logged(b, action)
  {
    if b == [] {
      assert a + b == a;
    } else {
      assert (a + b)[..|a + b| - 1] == a + b[..|b| - 1];
      LoggedConcat(a, b[..|b| - 1], action);
    }
  }

  /** The log agrees with the counts: one entry per message that was not skipped. */
  ghost predicate Agrees(log: seq<Entry>, s: Stats) {
    && Logged(log, DraftedIt) == s.drafted && Logged(log, Escalated) == s.escalated
    && Logged(log, Failed) == s.errors && |log| + s.skipped == s.processed
  }

  lemma AgreesStep(config: Config, log: seq<Entry>, s: Stats, id: nat, st: Step)
    requires Agrees(log, s)
    ensures Agrees(log + LogOf(config, id, st), AddMessage(config, s, st))
  {
    var last := LogOf(config, id, st);
    if st.reply.Some? && !ShouldEscalate(config, st.reply.value) {
      FailuresEscalate(config, st.reply.value);
    }
    LoggedConcat(log, last, DraftedIt);
    LoggedConcat(log, last, Escalated);
    LoggedConcat(log, last, Failed);
    assert last == [] || (|last| == 1 && last[..0] == []);
  }

  lemma {:induction false} LogMatchesStats(config: Config, picked: seq<nat>, script: nat -> Step, k: nat)
    requires k <= |picked|
    ensures Agrees(PassLog(config, picked, script, k), StatsOf(config, script, k))
  {
    if k > 0 {
      LogMatchesStats(config, picked, script, k - 1);
      AgreesStep(config, PassLog(config, picked, script, k - 1), StatsOf(config, script, k - 1),
                 picked[k - 1], script(k - 1));
    }
  }
}

/** What every history of polling keeps. */
module WatcherHistory {
  import opened Common
  import opened GmailWatcher

  /** New mail, the user reading or unreading a message, and passes of the watcher. */
  datatype Event =
    | Arrive(id: nat)
    | Show(id: nat, visible: bool)
    | Pass(config: Config, picked: seq<nat>, script: nat -> Step)

  /** The query never returns a message labelled AI-Processed. */
  ghost predicate IsFetch(config: Config, box: Mailbox, picked: seq<nat>) {
    && Distinct(picked) && |picked| <= config.maxPerRun
    && forall i :: 0 <= i < |picked| ==>
      picked[i] in box && box[picked[i]].visible && Processed !in box[picked[i]].labels
  }

  ghost predicate Enabled(box: Mailbox, e: Event) {
    match e
    case Arrive(id) => id !in box
    case Show(id, _) => id in box
    case Pass(config, picked, _) => IsFetch(config, box, picked)
  }

  function Apply(box: Mailbox, e: Event): Mailbox {
    match e
    case Arrive(id) => box[id := Message({}, true, 0)]
    case Show(id, visible) => if id in box then box[id := box[id].(visible := visible)] else box
    case Pass(config, picked, script) => AfterPass(config, box, picked, script, 0)
  }

  function After(box: Mailbox, history: seq<Event>): Mailbox {
    if history == [] then box else Apply(After(box, history[..|history| - 1]), history[|history| - 1])
  }

  ghost predicate ValidHistory(box: Mailbox, history: seq<Event>) {
    forall i :: 0 <= i < |history| ==> Enabled(After(box, history[..i]), history[i])
  }

  // ---- What happened, in the terms of the replies and calls --------------------------------

  /** Live, not filtered out, answered, and the process got as far as the writes. */
  predicate Answered(config: Config, st: Step) {
    && !config.dryRun && !(config.filterSenders && !st.allowed) && st.reply.Some? && st.stop != BeforeWrites
  }

  /** Nothing about the reply asks for a human: no flag, no emergency, enough confidence,
      a known topic or examples for it, and success. */
  predicate Routine(config: Config, r: Reply) {
    && !r.escalationRequired && r.tone != "emergency" && r.confidence >= config.threshold
    && !(r.topic == "general" && r.examplesLoaded == 0) && r.success
  }

  /** The step makes a draft for its message. */
  predicate DraftMade(config: Config, st: Step) {
    Answered(config, st) && Routine(config, st.reply.value) && st.draft != Refused
  }

  /** A draft whose AI-Drafted label write takes effect. */
  predicate DraftLabelled(config: Config, st: Step) {
    && Answered(config, st) && Routine(config, st.reply.value) && st.draft == Created
    && st.labelled && st.stop != BeforeLabels
  }

  /** A draft that no label write follows. */
  predicate DraftOrphaned(config: Config, st: Step) {
    DraftMade(config, st) && !DraftLabelled(config, st)
  }

  /** A call for a human whose label write takes effect. */
  predicate HelpLabelled(config: Config, st: Step) {
    && Answered(config, st) && !Routine(config, st.reply.value) && st.labelled && st.stop != BeforeLabels
  }

  /** One step makes a draft, labels it, or calls for help exactly under these conditions. */
  lemma EffectIs(config: Config, m: Message, st: Step)
    ensures var m' := Effect(config, m, st);
            && m'.drafts == m.drafts + (if DraftMade(config, st) then 1 else 0)
            && (Drafted in m'.labels <==> Drafted in m.labels || DraftLabelled(config, st))
            && (HumanHelp in m'.labels <==> HumanHelp in m.labels || HelpLabelled(config, st))
            && (Processed in m'.labels <==>
                 Processed in m.labels || DraftLabelled(config, st) || HelpLabelled(config, st))
            && m'.visible == m.visible
  {
  }

  // The statistics of a pass.

  predicate Filtered(config: Config, st: Step) {
    config.filterSenders && !st.allowed
  }

  predicate CallsForHelp(config: Config, st: Step) {
    !Filtered(config, st) && st.reply.Some? && !Routine(config, st.reply.value)
  }

  /** On a dry run every routine reply counts as a draft, otherwise those whose draft call returns one. */
  predicate CountsDraft(config: Config, st: Step) {
    && !Filtered(config, st) && st.reply.Some? && Routine(config, st.reply.value)
    && (config.dryRun || st.draft == Created)
  }

  /** The pipeline raised, or the draft call returned nothing. */
  predicate CountsError(config: Config, st: Step) {
    && !Filtered(config, st)
    && (st.reply.None? || (!config.dryRun && Routine(config, st.reply.value) && st.draft != Created))
  }

  function CountFirst(what: Kind, config: Config, script: nat -> Step, k: nat): nat {
    if k == 0 then 0 else CountFirst(what, config, script, k - 1) + if what(config, script(k - 1)) then 1 else 0
  }

  /** Each statistic counts the messages of its kind. */
  lemma {:induction false} StatsAre(config: Config, script: nat -> Step, k: nat)
    ensures var s := StatsOf(config, script, k);
            && s.processed == k
            && s.skipped == CountFirst(Filtered, config, script, k)
            && s.escalated == CountFirst(CallsForHelp, config, script, k)
            && s.drafted == CountFirst(CountsDraft, config, script, k)
            && s.errors == CountFirst(CountsError, config, script, k)
  {
    if k > 0 {
      StatsAre(config, script, k - 1);
    }
  }

  /** A message that is not filtered leaves one entry, with its own id and its kind. */
  lemma LogEntryIs(config: Config, id: nat, st: Step)
    ensures var entries := LogOf(config, id, st);
            if Filtered(config, st) then entries == []
            else
              && |entries| == 1 && entries[0].id == id
              && (entries[0].action == Escalated <==> CallsForHelp(config, st))
              && (entries[0].action == DraftedIt <==> CountsDraft(config, st))
              && (entries[0].action == Failed <==> CountsError(config, st))
  {
  }

  type Kind = (Config, Step) -> bool

  /** Steps of this kind on a message, from the pass's `k`-th message on. */
  function CountIn(what: Kind, config: Config, picked: seq<nat>, script: nat -> Step, k: nat, id: nat): nat
    decreases |picked| - k
  {
    if k >= |picked| then 0
    else
      (if picked[k] == id && what(config, script(k)) then 1 else 0)
      + if script(k).stop == Go then CountIn(what, config, picked, script, k + 1, id) else 0
  }

  /** The same over a history. */
  function Count(what: Kind, history: seq<Event>, id: nat): nat {
    if history == [] then 0
    else
      var e := history[|history| - 1];
      Count(what, history[..|history| - 1], id)
      + if e.Pass? then CountIn(what, e.config, e.picked, e.script, 0, id) else 0
  }

  /** Numbers of steps so far: drafts made, drafts labelled, calls for a human labelled. */
  datatype Tally = Tally(made: nat, labelled: nat, helped: nat)

  function TallyIn(config: Config, picked: seq<nat>, script: nat -> Step, k: nat, id: nat): Tally {
    Tally(CountIn(DraftMade, config, picked, script, k, id), CountIn(DraftLabelled, config, picked, script, k, id),
          CountIn(HelpLabelled, config, picked, script, k, id))
  }

  function TallyOf(history: seq<Event>, id: nat): Tally {
    Tally(Count(DraftMade, history, id), Count(DraftLabelled, history, id), Count(HelpLabelled, history, id))
  }

  function Sum(a: Tally, b: Tally): Tally {
    Tally(a.made + b.made, a.labelled + b.labelled, a.helped + b.helped)
  }

  /** Drafts are the drafts made; each outcome label stands for the one step that wrote
      it, there is at most one such step, and AI-Processed stands for either. */
  predicate LawFor(m: Message, n: Tally) {
    && m.drafts == n.made
    && n.labelled + n.helped <= 1
    && (Drafted in m.labels <==> n.labelled == 1)
    && (HumanHelp in m.labels <==> n.helped == 1)
    && (Processed in m.labels <==> n.labelled + n.helped == 1)
  }

  predicate Lawful(box: Mailbox, id: nat, n: Tally) {
    if id in box then LawFor(box[id], n) else n == Tally(0, 0, 0)
  }

  /** What one step counts for its message. */
  function StepTally(config: Config, st: Step): Tally {
    Tally(if DraftMade(config, st) then 1 else 0, if DraftLabelled(config, st) then 1 else 0,
          if HelpLabelled(config, st) then 1 else 0)
  }

  lemma EffectLawful(config: Config, m: Message, st: Step, n: Tally)
    requires LawFor(m, n) && Processed !in m.labels
    ensures LawFor(Effect(config, m, st), Sum(n, StepTally(config, st)))
    ensures m.labels <= Effect(config, m, st).labels
  {
  }

  /** What the message in turn counts for message `id`. */
  function TurnTally(config: Config, picked: nat, st: Step, id: nat): Tally {
    if picked == id then StepTally(config, st) else Tally(0, 0, 0)
  }

  lemma TallyUnfolds(config: Config, picked: seq<nat>, script: nat -> Step, k: nat, id: nat)
    ensures TallyIn(config, picked, script, k, id)
         == if k >= |picked| then Tally(0, 0, 0)
            else Sum(TurnTally(config, picked[k], script(k), id),
                     if script(k).stop == Go then TallyIn(config, picked, script, k + 1, id) else Tally(0, 0, 0))
  {
  }

  lemma MessageLawful(config: Config, box: Mailbox, picked: nat, st: Step, id: nat, n: Tally)
    requires Lawful(box, id, n) && picked in box && Processed !in box[picked].labels
    ensures Lawful(AfterMessage(config, box, picked, st), id, Sum(n, TurnTally(config, picked, st, id)))
  {
    hide Effect, LawFor, StepTally;
    if picked == id {
      EffectLawful(config, box[id], st, n);
    }
  }

  lemma {:induction false} PassLawful(config: Config, box: Mailbox, picked: seq<nat>, script: nat -> Step, k: nat,
                                      id: nat, n: Tally)
    requires Lawful(box, id, n) && Distinct(picked)
    requires forall i :: k <= i < |picked| ==> picked[i] in box && Processed !in box[picked[i]].labels
    ensures Lawful(AfterPass(config, box, picked, script, k), id, Sum(n, TallyIn(config, picked, script, k, id)))
    decreases |picked| - k
  {
    hide Effect, Lawful, TallyIn, TurnTally;
    TallyUnfolds(config, picked, script, k, id);
    if k < |picked| {
      MessageLawful(config, box, picked[k], script(k), id, n);
      if script(k).stop == Go {
        PassLawful(config, AfterMessage(config, box, picked[k], script(k)), picked, script, k + 1,
                   id, Sum(n, TurnTally(config, picked[k], script(k), id)));
      }
    }
  }

  /** Over every history of passes, deaths, failed writes and user actions, for every message. */
  lemma {:induction false} HistoryLawful(history: seq<Event>, id: nat)
    requires ValidHistory(map[], history)
    ensures Lawful(After(map[], history), id, TallyOf(history, id))
  {
    if history != [] {
      hide LawFor, DraftMade, DraftLabelled, HelpLabelled;
      var before, e := history[..|history| - 1], history[|history| - 1];
      forall i | 0 <= i < |before| ensures Enabled(After(map[], before[..i]), before[i]) {
        assert before[..i] == history[..i];
      }
      HistoryLawful(before, id);
      assert Enabled(After(map[], before), e);
      if e.Pass? {
        PassLawful(e.config, After(map[], before), e.picked, e.script, 0, id, TallyOf(before, id));
      } else {
        KeepsLaw(After(map[], before), e, id, TallyOf(before, id));
      }
    }
  }

  lemma KeepsLaw(box: Mailbox, e: Event, id: nat, n: Tally)
    requires Enabled(box, e) && !e.Pass? && Lawful(box, id, n)
    ensures Lawful(Apply(box, e), id, n)
  {
  }

  /** The law of the labels. The drafts of a message are its AI-Drafted label plus the
      drafts no label write followed; AI-Processed goes exactly with one of the outcome
      labels; and each outcome label is there exactly if a step wrote it for that reason. */
  lemma DraftLabelLaw(history: seq<Event>, id: nat)
    requires ValidHistory(map[], history) && id in After(map[], history)
    ensures var m := After(map[], history)[id];
            && m.drafts == (if Drafted in m.labels then 1 else 0) + Count(DraftOrphaned, history, id)
            && m.drafts == Count(DraftMade, history, id)
            && (Processed in m.labels <==> (Drafted in m.labels) != (HumanHelp in m.labels))
            && !(Drafted in m.labels && HumanHelp in m.labels)
            && (Drafted in m.labels <==> Count(DraftLabelled, history, id) > 0)
            && (HumanHelp in m.labels <==> Count(HelpLabelled, history, id) > 0)
  {
    HistoryLawful(history, id);
    OrphansAreRest(history, id);
  }

  lemma {:induction false} OrphansAreRest(history: seq<Event>, id: nat)
    ensures Count(DraftMade, history, id) == Count(DraftLabelled, history, id) + Count(DraftOrphaned, history, id)
  {
    if history != [] {
      hide DraftMade, DraftLabelled, DraftOrphaned;
      var e := history[|history| - 1];
      OrphansAreRest(history[..|history| - 1], id);
      if e.Pass? {
        OrphansInRest(e.config, e.picked, e.script, 0, id);
      }
    }
  }

  lemma {:induction false} OrphansInRest(config: Config, picked: seq<nat>, script: nat -> Step, k: nat, id: nat)
    ensures CountIn(DraftMade, config, picked, script, k, id)
         == CountIn(DraftLabelled, config, picked, script, k, id)
            + CountIn(DraftOrphaned, config, picked, script, k, id)
    decreases |picked| - k
  {
    if k < |picked| && script(k).stop == Go {
      OrphansInRest(config, picked, script, k + 1, id);
    }
  }

  /** A pass touches only the messages it fetched. */
  lemma {:induction false} PassLeaves(config: Config, box: Mailbox, picked: seq<nat>, script: nat -> Step, k: nat,
                                      id: nat)
    requires id in box && forall i :: k <= i < |picked| ==> picked[i] != id
    ensures id in AfterPass(config, box, picked, script, k) && AfterPass(config, box, picked, script, k)[id] == box[id]
    decreases |picked| - k
  {
    if k < |picked| && script(k).stop == Go {
      PassLeaves(config, AfterMessage(config, box, picked[k], script(k)), picked, script, k + 1, id);
    }
  }

  lemma StepFreezes(box: Mailbox, e: Event, id: nat)
    requires Enabled(box, e) && id in box && Processed in box[id].labels
    ensures id in Apply(box, e) && Apply(box, e)[id].(visible := true) == box[id].(visible := true)
    ensures e.Pass? ==> id !in e.picked
  {
    if e.Pass? {
      PassLeaves(e.config, box, e.picked, e.script, 0, id);
    }
  }

  /** Once a message is processed, no later pass fetches it, and its labels and
      drafts never change again. */
  lemma {:induction false} ProcessedFrozen(box: Mailbox, history: seq<Event>, i: nat, id: nat)
    requires ValidHistory(box, history) && i <= |history|
    requires id in After(box, history[..i]) && Processed in After(box, history[..i])[id].labels
    ensures id in After(box, history)
    ensures After(box, history)[id].(visible := true) == After(box, history[..i])[id].(visible := true)
    ensures forall j :: i <= j < |history| && history[j].Pass? ==> id !in history[j].picked
    decreases |history|
  {
    hide Enabled, Apply;
    if i == |history| {
      assert history[..i] == history;
    } else {
      var before, e := history[..|history| - 1], history[|history| - 1];
      forall j | 0 <= j < |before| ensures Enabled(After(box, before[..j]), before[j]) {
        assert before[..j] == history[..j];
      }
      assert before[..i] == history[..i];
      ProcessedFrozen(box, before, i, id);
      assert Enabled(After(box, before), e);
      StepFreezes(After(box, before), e, id);
      forall j | i <= j < |history| && history[j].Pass? ensures id !in history[j].picked {
        assert j < |before| ==> before[j] == history[j];
      }
    }
  }
}
