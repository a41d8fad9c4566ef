/**
 The nightly fine-tune job's hand-over of the GPU: the inference pods are scaled to
 zero, training runs, and the pods are scaled up again. Every outside call may fail
 and takes arbitrary time; times are in milliseconds.
 */
module GpuHandover {
  import opened Common

  datatype PodState = Pending | Running | Terminating | Ended

  /** How a step of the training block ends; `Interrupted` is what `except Exception` lets through. */
  datatype Work = Succeeds | Fails | Interrupted

  datatype Stage = Train | Evaluate | Push

  /** A pod listing. A kubectl that exits non-zero prints nothing and raises nothing,
      so the program reads it as no pods at all. `there` are the pods there were. */
  datatype Listing = Listing(there: set<PodState>, answered: bool) {
    function Read(): set<PodState> {
      if answered then there else {}
    }
  }

  /** What the job did and saw. `PodsUnknown` is a listing that raises; `Began` holds the
      pods that are there when the training block begins; `applied` is whether a failed
      command took effect all the same. */
  datatype Event =
    | Pods(list: Listing)
    | PodsUnknown
    | Scaled(to: nat, ok: bool, applied: bool)
    | Free(mib: Option<int>)
    | Slept(ms: nat)
    | Health(ok: bool)
    | Began(pods: set<PodState>)
    | Did(stage: Stage, work: Work)

  type Trace = seq<Event>

  /** How a command ends: with exit code 0, with another one, or in an exception (a timeout, no binary). */
  datatype Call = Answers | NonZero | Raises

  /** What the outside world answers to one call; `states` are the pods there are then. */
  datatype Answer = Answer(took: nat, call: Call, states: set<PodState>, applied: bool, mib: Option<int>, healthy: bool)

  datatype Config = Config(stopNim: bool, push: bool, minExamples: int, stopTimeout: int, startTimeout: int, dwell: nat)

  /** The inputs of one night. */
  datatype Job = Job(staged: bool, skipExport: bool, exported: bool, loaded: bool, records: nat, dryRun: bool,
                     deps: bool, work: Stage -> Work, noteWritten: bool)

  /** How a call ends: with a value, with the `RuntimeError` that `main` catches, or with another exception. */
  datatype Outcome<T> = Returned(value: T) | TimedOut | Crashed

  const HARD_MIN := 5
  const RELEASE_TIMEOUT := 120_000
  const GIB := 1024

  // ---- Reading a trace ---------------------------------------------------------------

  /** The number of commands that asked for `to` replicas. */
  function Scales(t: Trace, to: nat): nat {
    if t == [] then 0
    else Scales(t[..|t| - 1], to) + if t[|t| - 1].Scaled? && t[|t| - 1].to == to then 1 else 0
  }

  /** The replicas the deployment is left with. */
  function Replicas(t: Trace, initial: nat): nat {
    if t == [] then initial
    else
      var e := t[|t| - 1];
      if e.Scaled? && (e.ok || e.applied) then e.to else Replicas(t[..|t| - 1], initial)
  }

  /** The last pod listing, if the last word of the trace about pods is a listing. */
  function LastPods(t: Trace): Option<Listing> {
    if t == [] then None
    else
      match t[|t| - 1]
      case Pods(list) => Some(list)
      case Scaled(_, _, _) => None
      case PodsUnknown => None
      case _ => LastPods(t[..|t| - 1])
  }

  predicate ReadsEmpty(list: Option<Listing>) {
    list.Some? && list.value.Read() == {}
  }

  predicate Trained(t: Trace) {
    exists k :: 0 <= k < |t| && t[k].Did?
  }

  predicate AllSucceeded(t: Trace) {
    forall k :: 0 <= k < |t| && t[k].Did? ==> t[k].work == Succeeds
  }

  /** Between position `i` and `k` a listing read as no pods, and nothing was scaled. */
  ghost predicate VacatedBetween(t: Trace, i: nat, k: nat)
    requires k <= |t|
  {
    && (exists j :: i < j < k && t[j].Pods? && t[j].list.Read() == {})
    && (forall m :: i < m < k ==> !t[m].Scaled?)
  }

  /** No step of training follows a scale-down without a listing that read as no pods in between. */
  ghost predicate SafeTraining(t: Trace) {
    forall i, k :: 0 <= i < k < |t| && t[i].Scaled? && t[i].to == 0 && t[k].Did? ==> VacatedBetween(t, i, k)
  }

  lemma {:induction false} ScalesConcat(a: Trace, b: Trace, to: nat)
    ensures Scales(a + b, to) == Scales(a, to) + Scales(b, to)
  {
    if b == [] {
      assert a + b == a;
    } else {
      assert (a + b)[..|a + b| - 1] == a + b[..|b| - 1];
      ScalesConcat(a, b[..|b| - 1], to);
    }
  }

  lemma {:induction false} ReplicasConcat(a: Trace, b: Trace, initial: nat)
    ensures Replicas(a + b, initial) == Replicas(b, Replicas(a, initial))
  {
    if b == [] {
      assert a + b == a;
    } else {
      assert (a + b)[..|a + b| - 1] == a + b[..|b| - 1];
      ReplicasConcat(a, b[..|b| - 1], initial);
    }
  }

  predicate NoScales(t: Trace) {
    forall k :: 0 <= k < |t| ==> !t[k].Scaled?
  }

  lemma {:induction false} UnscaledKeeps(t: Trace, to: nat, initial: nat)
    requires NoScales(t)
    ensures Scales(t, to) == 0 && Replicas(t, initial) == initial
  {
    if t != [] {
      UnscaledKeeps(t[..|t| - 1], to, initial);
    }
  }

  // ---- The parts of a night ------------------------------------------------------------

  predicate NoWork(t: Trace) {
    forall k :: 0 <= k < |t| ==> !t[k].Did? && !t[k].Began?
  }

  /** The scale-down was accepted while a pod was running, and is the only command. */
  predicate ShutDown(t: Trace) {
    && |t| >= 2 && t[0].Pods? && Running in t[0].list.Read() && t[1] == Scaled(0, true, true)
    && NoScales(t[2..])
  }

  /** What stopping the deployment does, by how it ends. */
  ghost predicate StopTrace(t: Trace, end: Outcome<bool>) {
    && NoWork(t)
    && match end
       case Returned(true) => ShutDown(t) && ReadsEmpty(LastPods(t))
       case Returned(false) => |t| == 1 && t[0].Pods? && Running !in t[0].list.Read()
       case TimedOut => ShutDown(t) && !ReadsEmpty(LastPods(t))
       case Crashed =>
         || t == [PodsUnknown]
         || (|t| == 2 && t[0].Pods? && t[1].Scaled? && t[1].to == 0 && !t[1].ok)
         || (ShutDown(t) && t[|t| - 1] == PodsUnknown)
  }

  /** What restarting the deployment does, by how it ends. */
  predicate StartTrace(t: Trace, end: Outcome<()>) {
    && t != [] && t[0].Scaled? && t[0].to == 1 && NoScales(t[1..]) && NoWork(t)
    && (t[0].ok ==> t[0].applied)
    && (end.Crashed? <==> !t[0].ok)
    && (end.Crashed? ==> |t| == 1)
    && (end.Returned? <==> t[|t| - 1] == Health(true))
  }

  /** The steps of the training block, up to the first that does not succeed. */
  function WorkTrace(config: Config, job: Job): Trace {
    if job.work(Train) != Succeeds then [Did(Train, job.work(Train))]
    else if job.work(Evaluate) != Succeeds then [Did(Train, Succeeds), Did(Evaluate, job.work(Evaluate))]
    else if config.push then [Did(Train, Succeeds), Did(Evaluate, Succeeds), Did(Push, job.work(Push))]
    else [Did(Train, Succeeds), Did(Evaluate, Succeeds)]
  }

  function BlockEnd(config: Config, job: Job): Work {
    WorkTrace(config, job)[|WorkTrace(config, job)| - 1].work
  }

  function BlockTrace(config: Config, job: Job, pods: set<PodState>): Trace {
    [Began(pods)] + WorkTrace(config, job)
  }

  datatype Exit = Code(n: nat) | Raised

  /** How the night ends before anything is stopped or trained, if it does. */
  function Skips(config: Config, job: Job): Option<Exit> {
    if !job.staged then Some(Code(1))
    else if (!job.skipExport && !job.exported) || !job.loaded then Some(Raised)
    else if job.records < HARD_MIN || job.dryRun || job.records < config.minExamples then Some(Code(0))
    else if !job.deps then Some(Raised)
    else None
  }

  /** `began` are the pods at the beginning of the training block, if the night has one. */
  datatype Night = Night(stop: Trace, stopEnd: Outcome<bool>, began: set<PodState>, work: Trace,
                         start: Trace, startEnd: Outcome<()>)

  function Whole(n: Night): Trace {
    n.stop + n.work + n.start
  }

  /** The nights the job can have, part by part. */
  ghost predicate IsNight(config: Config, job: Job, n: Night, exit: Exit) {
    var skip := Skips(config, job);
    if skip.Some? then Whole(n) == [] && exit == skip.value
    else
      && (if config.stopNim then StopTrace(n.stop, n.stopEnd) else n.stop == [] && n.stopEnd == Returned(false))
      && if !n.stopEnd.Returned? then
           && n.work == [] && n.start == []
           && exit == if n.stopEnd.TimedOut? && job.noteWritten then Code(1) else Raised
         else
           && n.work == BlockTrace(config, job, n.began)
           && (if n.stopEnd.value then StartTrace(n.start, n.startEnd) else n.start == [] && n.startEnd == Returned(()))
           && exit == if n.startEnd.Crashed? || BlockEnd(config, job) == Interrupted then Raised
                      else Code(if BlockEnd(config, job) == Fails || n.startEnd.TimedOut? then 1 else 0)
  }

  // ---- What every night keeps -------------------------------------------------------------

  lemma {:induction false} LastPodsSeen(t: Trace)
    ensures LastPods(t).Some? ==> exists j :: 0 <= j < |t| && t[j] == Pods(LastPods(t).value) && NoScales(t[j..])
  {
    if t != [] && LastPods(t).Some? {
      var s := t[..|t| - 1];
      if t[|t| - 1].Pods? {
        assert t[|t| - 1..] == [t[|t| - 1]];
      } else {
        LastPodsSeen(s);
        var j :| 0 <= j < |s| && s[j] == Pods(LastPods(s).value) && NoScales(s[j..]);
        assert t[j..] == s[j..] + [t[|t| - 1]];
      }
    }
  }

  /** Whatever fails and whenever: training never follows a scale-down unless a listing
      in between read as no pods in any state. */
  lemma TrainingAfterEmptyListing(config: Config, job: Job, n: Night, exit: Exit)
    requires IsNight(config, job, n, exit)
    ensures SafeTraining(Whole(n))
  {
    hide LastPods, StopTrace, StartTrace, BlockTrace, BlockEnd;
    var t := Whole(n);
    forall i, k | 0 <= i < k < |t| && t[i].Scaled? && t[i].to == 0 && t[k].Did? ensures VacatedBetween(t, i, k) {
      DidAt(config, job, n, exit, k);
      ScaledAt(config, job, n, exit, i);
      StoppedMeans(n.stop);
      LastPodsSeen(n.stop);
      var j :| 0 <= j < |n.stop| && n.stop[j] == Pods(LastPods(n.stop).value) && NoScales(n.stop[j..]);
      WholeAt(n, j);
      forall m | i < m < k ensures !t[m].Scaled? {
        WholeAt(n, m);
        WorkUnscaled(config, job, n.began);
      }
    }
  }

  /** Pods were there although the listing that let training begin exited non-zero. */
  predicate Blind(last: Listing) {
    !last.answered && last.there != {}
  }

  /** The only listing was answered and named pods, none of them Running. */
  predicate Overlooked(stop: Trace) {
    |stop| == 1 && stop[0].Pods? && stop[0].list.answered && stop[0].list.there != {} && Running !in stop[0].list.there
  }

  /** Once gone, pods stay gone until something scales the deployment up. */
  ghost predicate GoneStaysGone(t: Trace) {
    forall i, j :: 0 <= i < j < |t| && t[i].Pods? && t[i].list.there == {} && t[j].Began? && NoScales(t[i..j])
      ==> t[j].pods == {}
  }

  /** If no pod was there at the last listing after a stop, none is there when training begins. */
  lemma GoneWhenTraining(config: Config, job: Job, n: Night, exit: Exit)
    requires IsNight(config, job, n, exit) && config.stopNim && Trained(Whole(n)) && GoneStaysGone(Whole(n))
    requires n.stopEnd == Returned(true) && LastPods(n.stop).Some? && LastPods(n.stop).value.there == {}
    ensures n.began == {}
  {
    hide Scales, Replicas, StartTrace, BlockEnd, Trained, WorkTrace, LastPods, NoWork;
    TrainedIff(config, job, n, exit);
    LastPodsSeen(n.stop);
    var t, a := Whole(n), |n.stop|;
    var i :| 0 <= i < a && n.stop[i] == Pods(LastPods(n.stop).value) && NoScales(n.stop[i..]);
    WholeAt(n, i);
    WholeAt(n, a);
    assert t[i..a] == n.stop[i..];
  }

  /** Training begins with pods present at the listing that allowed it if and only if that
      listing exited non-zero beside them, or was the first one and named only pods that
      were not Running. If the pods stay as listed, they are there when training begins; if
      pods only stay gone, pods there after a stop mean that its last listing was blind. */
  lemma TrainingIsSafe(config: Config, job: Job, n: Night, exit: Exit)
    requires IsNight(config, job, n, exit) && config.stopNim && Trained(Whole(n))
    ensures LastPods(n.stop).Some?
    ensures var last := LastPods(n.stop).value;
            && (last.there != {} <==> Blind(last) || Overlooked(n.stop))
            && (n.began == last.there ==> (n.began != {} <==> Blind(last) || Overlooked(n.stop)))
            && (n.stopEnd == Returned(true) && GoneStaysGone(Whole(n)) && n.began != {} ==> Blind(last))
  {
    hide Scales, Replicas, StartTrace, BlockTrace, BlockEnd, Trained, GoneStaysGone;
    TrainedIff(config, job, n, exit);
    if n.stopEnd == Returned(true) && GoneStaysGone(Whole(n)) && LastPods(n.stop).Some?
       && LastPods(n.stop).value.there == {} {
      GoneWhenTraining(config, job, n, exit);
    }
    if n.stopEnd.value {
      StoppedMeans(n.stop);
    }
  }

  /** Both ways of training beside Running pods are nights of the job. */
  lemma BlindNights(config: Config, job: Job)
    requires config.stopNim && Skips(config, job).None? && job.work(Train) == Fails
    ensures var work := BlockTrace(config, job, {Running});
            var n := Night([Pods(Listing({Running}, false))], Returned(false), {Running}, work, [], Returned(()));
            IsNight(config, job, n, Code(1)) && Trained(Whole(n))
    ensures var work := BlockTrace(config, job, {Running});
            var blind := Pods(Listing({Running}, false));
            var stop := [Pods(Listing({Running}, true)), Scaled(0, true, true), blind, blind];
            var n := Night(stop, Returned(true), {Running}, work, [Scaled(1, true, true), Health(true)], Returned(()));
            IsNight(config, job, n, Code(1)) && Trained(Whole(n))
  {
    var work := BlockTrace(config, job, {Running});
    var first := Night([Pods(Listing({Running}, false))], Returned(false), {Running}, work, [], Returned(()));
    assert Whole(first)[2] == work[1];
    var blind := Pods(Listing({Running}, false));
    var stop := [Pods(Listing({Running}, true)), Scaled(0, true, true), blind, blind];
    var last := Night(stop, Returned(true), {Running}, work, [Scaled(1, true, true), Health(true)], Returned(()));
    assert Whole(last)[5] == work[1];
  }

  lemma DidAt(config: Config, job: Job, n: Night, exit: Exit, k: nat)
    requires IsNight(config, job, n, exit) && k < |Whole(n)| && Whole(n)[k].Did?
    ensures |n.stop| <= k < |n.stop| + |n.work| && n.stopEnd.Returned? && n.work == BlockTrace(config, job, n.began)
  {
    hide LastPods, BlockTrace, NoScales, ShutDown;
    WholeAt(n, k);
  }

  lemma ScaledAt(config: Config, job: Job, n: Night, exit: Exit, i: nat)
    requires IsNight(config, job, n, exit) && n.stopEnd.Returned?
    requires i < |Whole(n)| && Whole(n)[i].Scaled? && Whole(n)[i].to == 0
    ensures i == 1 && 1 < |n.stop| && StopTrace(n.stop, Returned(true))
  {
    hide LastPods, BlockTrace, BlockEnd, NoWork;
    WholeAt(n, i);
    WorkUnscaled(config, job, n.began);
    OnlyCommand(n.stop);
    if n.startEnd.Returned? || n.start != [] {
      assert forall k :: 1 <= k < |n.start| ==> n.start[k] == n.start[1..][k - 1];
    }
  }

  lemma WorkUnscaled(config: Config, job: Job, pods: set<PodState>)
    ensures NoScales(BlockTrace(config, job, pods))
  {
  }

  lemma StoppedMeans(t: Trace)
    requires StopTrace(t, Returned(true))
    ensures ReadsEmpty(LastPods(t)) && |t| >= 2 && t[0].Pods? && Running in t[0].list.Read() && t[1].Scaled?
    ensures forall k :: 0 <= k < |t| && t[k].Scaled? ==> k == 1
  {
    OnlyCommand(t);
  }

  lemma OnlyCommand(t: Trace)
    ensures ShutDown(t) ==> forall k :: 0 <= k < |t| && t[k].Scaled? ==> k == 1
  {
    if ShutDown(t) {
      assert forall k :: 2 <= k < |t| ==> t[k] == t[2..][k - 2];
    }
  }

  lemma WholeAt(n: Night, k: nat)
    requires k < |Whole(n)|
    ensures var a, b := |n.stop|, |n.stop| + |n.work|;
            Whole(n)[k] == if k < a then n.stop[k] else if k < b then n.work[k - a] else n.start[k - b]
  {
  }

  /** Once training has begun the deployment is started exactly as often as it was
      stopped; if training never began it is never started, even if it was stopped. */
  lemma RestartOncePerStop(config: Config, job: Job, n: Night, exit: Exit)
    requires IsNight(config, job, n, exit)
    ensures Scales(Whole(n), 0) <= 1
    ensures Scales(Whole(n), 1) == if Trained(Whole(n)) then Scales(Whole(n), 0) else 0
  {
    hide Scales, Trained;
    PartCounts(config, job, n, exit);
    ScalesConcat(n.stop + n.work, n.start, 0);
    ScalesConcat(n.stop + n.work, n.start, 1);
    ScalesConcat(n.stop, n.work, 0);
    ScalesConcat(n.stop, n.work, 1);
  }

  /** Only the command at position `k` can count. */
  lemma OneCommand(t: Trace, k: nat, to: nat, initial: nat)
    requires k < |t| && NoScales(t[..k]) && NoScales(t[k + 1..])
    ensures Scales(t, to) == if t[k].Scaled? && t[k].to == to then 1 else 0
    ensures Replicas(t, initial) == if t[k].Scaled? && (t[k].ok || t[k].applied) then t[k].to else initial
  {
    var head, command, tail := t[..k], [t[k]], t[k + 1..];
    assert t == head + command + tail;
    assert command[..0] == [];
    ScalesConcat(head + command, tail, to);
    ScalesConcat(head, command, to);
    ReplicasConcat(head + command, tail, initial);
    ReplicasConcat(head, command, initial);
    UnscaledKeeps(head, to, initial);
    UnscaledKeeps(tail, to, Replicas(head + command, initial));
  }

  lemma StopCounts(t: Trace, end: Outcome<bool>, initial: nat)
    requires StopTrace(t, end)
    ensures Scales(t, 1) == 0
    ensures Scales(t, 0) <= 1
    ensures (end == Returned(true) ==> Scales(t, 0) == 1) && (end == Returned(false) ==> Scales(t, 0) == 0)
    ensures end == Returned(true) || end.TimedOut? ==> Scales(t, 0) == 1 && Replicas(t, initial) == 0
    ensures end == Returned(false) ==> Replicas(t, initial) == initial
  {
    hide Scales, Replicas, LastPods, NoWork;
    if NoScales(t) {
      UnscaledKeeps(t, 0, initial);
      UnscaledKeeps(t, 1, initial);
    } else {
      OneCommand(t, 1, 0, initial);
      OneCommand(t, 1, 1, initial);
    }
  }

  lemma StartCounts(t: Trace, end: Outcome<()>, initial: nat)
    requires StartTrace(t, end)
    ensures Scales(t, 0) == 0 && Scales(t, 1) == 1
    ensures Replicas(t, initial) == if t[0].applied then 1 else initial
  {
    hide Scales, Replicas;
    OneCommand(t, 0, 0, initial);
    OneCommand(t, 0, 1, initial);
  }

  lemma WorkCounts(config: Config, job: Job, pods: set<PodState>, initial: nat)
    ensures var work := BlockTrace(config, job, pods);
            Scales(work, 0) == 0 && Scales(work, 1) == 0 && Replicas(work, initial) == initial
  {
    UnscaledKeeps(BlockTrace(config, job, pods), 0, initial);
    UnscaledKeeps(BlockTrace(config, job, pods), 1, initial);
  }

  lemma TrainedIff(config: Config, job: Job, n: Night, exit: Exit)
    requires IsNight(config, job, n, exit)
    ensures Trained(Whole(n)) <==> Skips(config, job).None? && n.stopEnd.Returned?
  {
    var t := Whole(n);
    if Skips(config, job).None? {
      if n.stopEnd.Returned? {
        assert t[|n.stop| + 1] == n.work[1];
      } else {
        assert t == n.stop;
      }
    }
  }

  /** How often each part scales. */
  lemma PartCounts(config: Config, job: Job, n: Night, exit: Exit)
    requires IsNight(config, job, n, exit)
    ensures Scales(n.stop, 0) <= 1 && Scales(n.stop, 1) == 0
    ensures Scales(n.work, 0) == 0 && Scales(n.work, 1) == 0 && Scales(n.start, 0) == 0
    ensures Scales(n.start, 1) == if Trained(Whole(n)) then Scales(n.stop, 0) else 0
  {
    hide StopTrace, StartTrace, BlockTrace, Trained, BlockEnd;
    TrainedIff(config, job, n, exit);
    if Skips(config, job).Some? {
      assert n.stop == [] && n.work == [] && n.start == [];
    } else {
      if config.stopNim { StopCounts(n.stop, n.stopEnd, 0); }
      if n.stopEnd.Returned? {
        WorkCounts(config, job, n.began, 0);
        if n.stopEnd.value { StartCounts(n.start, n.startEnd, 0); }
      }
    }
  }

  // Which nights do nothing, which train, and what they exit with, from the inputs.

  /** The base model is staged, the export did not fail if one was needed, and the data is there. */
  predicate Ready(job: Job) {
    job.staged && (job.skipExport || job.exported) && job.loaded
  }

  /** A dry run, or too few examples: fewer than five, or than the configured minimum. */
  predicate NotWorthIt(config: Config, job: Job) {
    job.dryRun || job.records < 5 || job.records < config.minExamples
  }

  /** The nights that stop, train and start nothing, with their exits. */
  lemma IdleNights(config: Config, job: Job, n: Night, exit: Exit)
    requires IsNight(config, job, n, exit)
    ensures !job.staged ==> Whole(n) == [] && exit == Code(1)
    ensures job.staged && !Ready(job) ==> Whole(n) == [] && exit == Raised
    ensures Ready(job) && NotWorthIt(config, job) ==> Whole(n) == [] && exit == Code(0)
    ensures Ready(job) && !NotWorthIt(config, job) && !job.deps ==> Whole(n) == [] && exit == Raised
    ensures Skips(config, job).None? <==> Ready(job) && !NotWorthIt(config, job) && job.deps
    ensures Skips(config, job) == Some(Code(0)) <==> Ready(job) && NotWorthIt(config, job)
  {
  }

  /** The training block begins. */
  predicate Begins(t: Trace) {
    exists k :: 0 <= k < |t| && t[k].Began?
  }

  predicate Happened(t: Trace, stage: Stage, work: Work) {
    exists k :: 0 <= k < |t| && t[k] == Did(stage, work)
  }

  /** The block begins exactly on a night with data, deps and, if the deployment is to be
      stopped, a stop that returned; and each stage runs exactly if those before succeeded. */
  lemma WhatRuns(config: Config, job: Job, n: Night, exit: Exit)
    requires IsNight(config, job, n, exit)
    ensures var t := Whole(n);
            && (Begins(t) <==> Ready(job) && !NotWorthIt(config, job) && job.deps
                               && (config.stopNim ==> n.stopEnd.Returned?))
            && (forall w :: Happened(t, Train, w) <==> Begins(t) && w == job.work(Train))
            && (forall w :: Happened(t, Evaluate, w) <==>
                 Begins(t) && job.work(Train) == Succeeds && w == job.work(Evaluate))
            && (forall w :: Happened(t, Push, w) <==>
                 Begins(t) && config.push && job.work(Train) == Succeeds && job.work(Evaluate) == Succeeds
                 && w == job.work(Push))
  {
    hide Skips, Scales, Replicas, LastPods, StopTrace, StartTrace, BlockEnd;
    IdleNights(config, job, n, exit);
    if Skips(config, job).None? && n.stopEnd.Returned? {
      var a, work := |n.stop|, BlockTrace(config, job, n.began);
      BlockIs(config, job, n.began);
      WholeAt(n, a);
      forall k | 0 <= k < |Whole(n)| ensures Whole(n)[k].Did? || Whole(n)[k].Began? ==> Whole(n)[k] in work {
        WorkAt(config, job, n, exit, k);
      }
      forall i | 0 <= i < |work| ensures work[i] in Whole(n) {
        WholeAt(n, a + i);
      }
      forall e | e in work ensures e in Whole(n) {
      }
      forall stage, w ensures Happened(Whole(n), stage, w) <==> Did(stage, w) in work {
        if Did(stage, w) in work {
          assert Did(stage, w) in Whole(n);
        }
      }
    } else {
      NothingRuns(config, job, n, exit);
    }
  }

  lemma NothingRuns(config: Config, job: Job, n: Night, exit: Exit)
    requires IsNight(config, job, n, exit) && !(Skips(config, job).None? && n.stopEnd.Returned?)
    ensures forall k :: 0 <= k < |Whole(n)| ==> !Whole(n)[k].Did? && !Whole(n)[k].Began?
  {
    hide Skips, Scales, Replicas, LastPods, ShutDown;
    assert Skips(config, job).None? ==> Whole(n) == n.stop;
  }

  lemma WorkAt(config: Config, job: Job, n: Night, exit: Exit, k: nat)
    requires IsNight(config, job, n, exit) && Skips(config, job).None? && n.stopEnd.Returned? && k < |Whole(n)|
    ensures Whole(n)[k].Did? || Whole(n)[k].Began? ==> Whole(n)[k] in BlockTrace(config, job, n.began)
  {
    hide Skips, Scales, Replicas, LastPods, BlockTrace, ShutDown;
    WholeAt(n, k);
  }

  lemma BlockIs(config: Config, job: Job, pods: set<PodState>)
    ensures var t := BlockTrace(config, job, pods);
            && t[0] == Began(pods)
            && (forall w :: Did(Train, w) in t <==> w == job.work(Train))
            && (forall w :: Did(Evaluate, w) in t <==> job.work(Train) == Succeeds && w == job.work(Evaluate))
            && (forall w :: Did(Push, w) in t <==>
                 config.push && job.work(Train) == Succeeds && job.work(Evaluate) == Succeeds && w == job.work(Push))
  {
    var t := BlockTrace(config, job, pods);
    assert t[1] == Did(Train, job.work(Train));
    assert job.work(Train) == Succeeds ==> t[2] == Did(Evaluate, job.work(Evaluate));
    assert config.push && job.work(Train) == Succeeds && job.work(Evaluate) == Succeeds ==>
      t[3] == Did(Push, job.work(Push));
  }

  /** Exit code 0 means exactly: the night was skipped for lack of data or as a dry run,
      or every step succeeded and, if the deployment was stopped, it is up and healthy again. */
  lemma ZeroMeansDone(config: Config, job: Job, n: Night, exit: Exit)
    requires IsNight(config, job, n, exit)
    ensures var t := Whole(n);
            exit == Code(0) <==>
              (Ready(job) && NotWorthIt(config, job))
              || (Trained(t) && AllSucceeded(t) && (Scales(t, 0) == 1 ==> t[|t| - 1] == Health(true)))
  {
    hide Scales, Trained, StopTrace, Replicas, LastPods, Skips, Ready, NotWorthIt;
    var t := Whole(n);
    IdleNights(config, job, n, exit);
    TrainedIff(config, job, n, exit);
    if Skips(config, job).None? && n.stopEnd.Returned? {
      RestartOncePerStop(config, job, n, exit);
      StopValue(config, job, n, exit);
      BlockSucceeds(config, job, n, exit);
      if n.stopEnd.value {
        assert t[|t| - 1] == n.start[|n.start| - 1];
      }
    }
  }

  /** The night ends in an exception exactly if an export, the data or the deps fail before
      anything happens, the stop fails other than by its timeout (or its note cannot be
      written), a stage is interrupted, or the restart's command is refused. */
  lemma RaisedMeans(config: Config, job: Job, n: Night, exit: Exit)
    requires IsNight(config, job, n, exit)
    ensures exit == Raised <==>
      || (job.staged && !Ready(job))
      || (Ready(job) && !NotWorthIt(config, job)
          && (|| !job.deps
              || (config.stopNim && (n.stopEnd.Crashed? || (n.stopEnd.TimedOut? && !job.noteWritten)))
              || (Begins(Whole(n)) && (Interrupts(Whole(n)) || n.startEnd.Crashed?))))
    ensures exit != Raised ==> exit == Code(0) || exit == Code(1)
  {
    hide Scales, Replicas, LastPods, StopTrace, StartTrace, Begins, Interrupts, NotWorthIt, BlockTrace, BlockEnd;
    WhatRuns(config, job, n, exit);
    IdleNights(config, job, n, exit);
    if Skips(config, job).None? && n.stopEnd.Returned? {
      InterruptsIff(config, job, n, exit);
    }
  }

  predicate Interrupts(t: Trace) {
    Happened(t, Train, Interrupted) || Happened(t, Evaluate, Interrupted) || Happened(t, Push, Interrupted)
  }

  lemma InterruptsIff(config: Config, job: Job, n: Night, exit: Exit)
    requires IsNight(config, job, n, exit) && Skips(config, job).None? && n.stopEnd.Returned?
    ensures Interrupts(Whole(n)) <==> BlockEnd(config, job) == Interrupted
  {
    hide IsNight, Begins, Happened;
    WhatRuns(config, job, n, exit);
    IdleNights(config, job, n, exit);
  }

  lemma StopValue(config: Config, job: Job, n: Night, exit: Exit)
    requires IsNight(config, job, n, exit) && Skips(config, job).None? && n.stopEnd.Returned?
    ensures n.stopEnd.value <==> Scales(Whole(n), 0) == 1
  {
    hide Scales, StopTrace, StartTrace, BlockTrace, Trained, BlockEnd;
    PartCounts(config, job, n, exit);
    if config.stopNim { StopCounts(n.stop, n.stopEnd, 0); }
    ScalesConcat(n.stop + n.work, n.start, 0);
    ScalesConcat(n.stop, n.work, 0);
  }

  lemma BlockSucceeds(config: Config, job: Job, n: Night, exit: Exit)
    requires IsNight(config, job, n, exit) && Skips(config, job).None? && n.stopEnd.Returned?
    ensures AllSucceeded(Whole(n)) <==> BlockEnd(config, job) == Succeeds
  {
    hide LastPods, Replicas, Scales, NoScales;
    var t, a, b := Whole(n), |n.stop|, |n.stop| + |n.work|;
    forall k | 0 <= k < |t| && t[k].Did? ensures a <= k < b && t[k] == n.work[k - a] {
      WholeAt(n, k);
    }
    assert t[b - 1] == n.work[|n.work| - 1];
  }

  /** The replicas the night leaves. A stop that times out leaves the deployment down;
      so does a restart whose command is refused. */
  lemma ReplicasLeft(config: Config, job: Job, n: Night, exit: Exit, initial: nat)
    requires IsNight(config, job, n, exit)
    ensures Scales(Whole(n), 0) == 0 ==> Replicas(Whole(n), initial) == initial
    ensures Scales(Whole(n), 0) == 1 && Trained(Whole(n)) ==>
              n.start != [] && n.start[0].Scaled? && Replicas(Whole(n), initial) == if n.start[0].applied then 1 else 0
    ensures Skips(config, job).None? && n.stopEnd.TimedOut? ==>
              Scales(Whole(n), 0) == 1 && Replicas(Whole(n), initial) == 0 && exit != Code(0)
    ensures exit == Code(0) && Scales(Whole(n), 0) == 1 ==> Replicas(Whole(n), initial) == 1
  {
    hide Scales, Replicas, StartTrace, BlockTrace, Trained, LastPods, NoWork, BlockEnd;
    RestartOncePerStop(config, job, n, exit);
    TrainedIff(config, job, n, exit);
    PartsReplicas(n, initial);
    PartCounts(config, job, n, exit);
    ScalesConcat(n.stop + n.work, n.start, 0);
    ScalesConcat(n.stop, n.work, 0);
    if Skips(config, job).Some? {
      UnscaledKeeps(Whole(n), 0, initial);
    } else {
      if config.stopNim { StopCounts(n.stop, n.stopEnd, initial); StopIdle(n.stop, n.stopEnd, initial); }
      if n.stopEnd.Returned? {
        WorkCounts(config, job, n.began, Replicas(n.stop, initial));
        StopValue(config, job, n, exit);
        if n.stopEnd.value {
          StartCounts(n.start, n.startEnd, 0);
          StartApplied(n.start, n.startEnd);
        } else {
          UnscaledKeeps(n.stop, 0, initial);
          UnscaledKeeps(n.start, 0, initial);
        }
      } else {
        UnscaledKeeps(n.work, 0, 0);
        UnscaledKeeps(n.start, 0, 0);
        UnscaledKeeps([], 0, Replicas(n.stop, initial));
      }
    }
  }

  lemma PartsReplicas(n: Night, initial: nat)
    ensures Replicas(Whole(n), initial) == Replicas(n.start, Replicas(n.work, Replicas(n.stop, initial)))
  {
    ReplicasConcat(n.stop + n.work, n.start, initial);
    ReplicasConcat(n.stop, n.work, initial);
  }

  /** Without an accepted command the stop changed nothing. */
  lemma StopIdle(t: Trace, end: Outcome<bool>, initial: nat)
    requires StopTrace(t, end)
    ensures Scales(t, 0) == 0 ==> Replicas(t, initial) == initial
  {
    hide Replicas, Scales, LastPods, NoWork;
    if NoScales(t) {
      UnscaledKeeps(t, 0, initial);
    } else {
      OneCommand(t, 1, 0, initial);
    }
  }

  lemma StartApplied(t: Trace, end: Outcome<()>)
    requires StartTrace(t, end)
    ensures t != [] && t[0].Scaled? && (!end.Crashed? ==> t[0].applied)
  {
  }

  // ---- The program ------------------------------------------------------------------------

  /** The readings that end the wait for the memory: the card reports no figure at
      once and the dwell is slept, stops reporting one, or gains a gigabyte between two polls. */
  predicate Released(t: Trace, dwell: nat) {
    var n := |t|;
    || (n >= 2 && t[n - 2] == Free(None) && t[n - 1] == Slept(dwell))
    || (n >= 1 && t[n - 1] == Free(None))
    || (n >= 3 && t[n - 3].Free? && t[n - 2] == Slept(5_000) && t[n - 1].Free?
        && t[n - 3].mib.Some? && t[n - 1].mib.Some? && t[n - 1].mib.value >= t[n - 3].mib.value + 1024)
  }

  /** Neither a command nor work. */
  predicate Still(e: Event) {
    !e.Scaled? && !e.Did? && !e.Began?
  }

  predicate Quiet(t: Trace) {
    forall k :: 0 <= k < |t| ==> Still(t[k])
  }

  /** Neither a listing nor a command. */
  predicate Unlisted(t: Trace) {
    forall k :: 0 <= k < |t| ==> t[k].Free? || t[k].Slept?
  }

  lemma {:induction false} UnlistedKeeps(a: Trace, b: Trace)
    requires Unlisted(b)
    ensures LastPods(a + b) == LastPods(a)
  {
    if b == [] {
      assert a + b == a;
    } else {
      var c, e := b[..|b| - 1], b[|b| - 1];
      assert a + b == (a + c) + [e];
      LastPodsAppend(a + c, e);
      UnlistedKeeps(a, c);
    }
  }

  lemma ReleasedConcat(a: Trace, b: Trace, dwell: nat)
    requires Released(b, dwell)
    ensures Released(a + b, dwell)
  {
  }

  lemma QuietAppend(a: Trace, b: Trace)
    ensures Quiet([])
    ensures |b| == 1 && Still(b[0]) ==> Quiet(b)
    ensures Quiet(a) && Quiet(b) ==> Quiet(a + b)
    ensures Quiet(a) && |b| == 1 && Still(b[0]) ==> Quiet(a + b)
  {
  }

  lemma LastPodsEmpty()
    ensures LastPods([]) == None
  {
  }

  lemma LastPodsAppend(t: Trace, e: Event)
    ensures LastPods(t + [e]) ==
      match e
      case Pods(list) => Some(list)
      case Scaled(_, _, _) => None
      case PodsUnknown => None
      case _ => LastPods(t)
  {
    assert (t + [e])[..|t|] == t;
  }

  lemma {:induction false} LastPodsConcat(a: Trace, b: Trace)
    requires LastPods(b).Some?
    ensures LastPods(a + b) == LastPods(b)
  {
    var c, e := b[..|b| - 1], b[|b| - 1];
    assert a + b == (a + c) + [e] && b == c + [e];
    LastPodsAppend(a + c, e);
    if !e.Pods? {
      LastPodsConcat(a, c);
    }
  }

  lemma {:induction false} LastPodsAfterStop(first: Listing, rest: Trace)
    requires Quiet(rest)
    ensures LastPods([Pods(first), Scaled(0, true, true)] + rest) == LastPods(rest)
  {
    var head: Trace := [Pods(first), Scaled(0, true, true)];
    if rest == [] {
      assert head + rest == head;
    } else {
      var c, e := rest[..|rest| - 1], rest[|rest| - 1];
      assert head + rest == (head + c) + [e] && rest == c + [e];
      LastPodsAppend(head + c, e);
      LastPodsAfterStop(first, c);
    }
  }

  /** How the wait after the accepted scale-down decides the end of the stop. */
  lemma StopEnds(first: Listing, rest: Trace, end: Outcome<bool>, initial: nat)
    requires Running in first.Read() && Quiet(rest)
    requires match end
             case Returned(stopped) => stopped && ReadsEmpty(LastPods(rest))
             case TimedOut => !ReadsEmpty(LastPods(rest))
             case Crashed => rest != [] && rest[|rest| - 1] == PodsUnknown
    ensures var t := [Pods(first), Scaled(0, true, true)] + rest;
            StopTrace(t, end) && Replicas(t, initial) == 0 && LastPods(t) == LastPods(rest)
  {
    hide LastPods, Replicas, Scales;
    var t := [Pods(first), Scaled(0, true, true)] + rest;
    LastPodsAfterStop(first, rest);
    assert t[2..] == rest;
    OneCommand(t, 1, 0, initial);
  }

  /** The stops that end before anything was stopped. */
  lemma StopEndsEarly(e: Event, applied: bool, initial: nat)
    ensures e == PodsUnknown ==> StopTrace([e], Crashed) && Replicas([e], initial) == initial
    ensures e.Pods? && Running !in e.list.Read() ==>
      StopTrace([e], Returned(false)) && Replicas([e], initial) == initial
    ensures e.Pods? ==>
      var t := [e, Scaled(0, false, applied)];
      StopTrace(t, Crashed) && Replicas(t, initial) == if applied then 0 else initial
  {
    hide Replicas, Scales;
    if e == PodsUnknown || e.Pods? {
      UnscaledKeeps([e], 0, initial);
      OneCommand([e, Scaled(0, false, applied)], 1, 0, initial);
    }
  }

  // ---- Listings that fail ---------------------------------------------------------------

  /** The outside world in which the first listing, made as call `c`, exits non-zero. */
  predicate BlindFirst(env: nat -> Answer, c: nat) {
    env(c).call == NonZero
  }

  /** The outside world in which the deployment runs and its scale-down is accepted, and
      the two listings after that exit non-zero. */
  predicate BlindLast(env: nat -> Answer, c: nat) {
    && env(c).call == Answers && Running in env(c).states && env(c + 1).call == Answers
    && env(c + 2).call == NonZero && env(c + 3).call == NonZero
  }

  class Handover {
    const config: Config
    const env: nat -> Answer
    var calls: nat
    var clock: int
    var replicas: nat
    /** The pods there are, which the program knows only through listings. */
    ghost var pods: set<PodState>
    ghost var trace: Trace

    constructor (config: Config, env: nat -> Answer, clock: int, replicas: nat)
      ensures this.config == config && this.env == env && this.clock == clock && this.replicas == replicas
      ensures trace == [] && calls == 0
    {
      this.config, this.env, this.clock, this.replicas := config, env, clock, replicas;
      calls, trace := 0, [];
    }

    /** One call to the outside: takes the answer and its time. */
    method Ask() returns (a: Answer)
      modifies `calls, `clock, `pods
      ensures a == env(old(calls)) && calls == old(calls) + 1 && clock >= old(clock) && pods == a.states
    {
      a := env(calls);
      calls, clock, pods := calls + 1, clock + a.took, a.states;
    }

    method Sleep(ms: nat)
      modifies `calls, `clock, `pods, `trace
      ensures clock >= old(clock) + ms && trace == old(trace) + [Slept(ms)]
    {
      var a := Ask();
      clock, trace := clock + ms, trace + [Slept(ms)];
    }

    /** What the program takes the pods to be, or `None` when the command raises: a
        command that exits non-zero is read as no pods. */
    method ListPods() returns (read: Option<set<PodState>>, ghost e: Event)
      modifies `calls, `clock, `pods, `trace
      ensures clock >= old(clock) && calls == old(calls) + 1 && pods == env(old(calls)).states
      ensures trace == old(trace) + [e]
      ensures read.None? <==> env(old(calls)).call == Raises
      ensures read.None? ==> e == PodsUnknown
      ensures read.Some? ==> e == Pods(Listing(pods, env(old(calls)).call == Answers)) && read.value == e.list.Read()
    {
      var a := Ask();
      match a.call {
        case Raises => read, e := None, PodsUnknown;
        case NonZero => read, e := Some({}), Pods(Listing(pods, false));
        case Answers => read, e := Some(a.states), Pods(Listing(pods, true));
      }
      trace := trace + [e];
    }

    method Scale(to: nat) returns (ok: bool, ghost applied: bool)
      modifies this
      ensures clock >= old(clock) && calls == old(calls) + 1 && trace == old(trace) + [Scaled(to, ok, applied)]
      ensures ok <==> env(old(calls)).call == Answers
      ensures (ok ==> applied) && replicas == if applied then to else old(replicas)
    {
      var a := Ask();
      ok := a.call == Answers;
      applied := ok || a.applied;
      if ok || a.applied { replicas := to; }
      trace := trace + [Scaled(to, ok, applied)];
    }

    /** The free memory, or `None` for a card without figures and for any failure. */
    method ReadFree() returns (mib: Option<int>)
      modifies `calls, `clock, `pods, `trace
      ensures clock >= old(clock) && trace == old(trace) + [Free(mib)]
    {
      var a := Ask();
      mib := if a.call == Answers then a.mib else None;
      trace := trace + [Free(mib)];
    }

    method CheckHealth() returns (healthy: bool)
      modifies `calls, `clock, `pods, `trace
      ensures clock >= old(clock) && trace == old(trace) + [Health(healthy)]
    {
      var a := Ask();
      healthy := a.call == Answers && a.healthy;
      trace := trace + [Health(healthy)];
    }

    /** Waits until a listing reads as no pods in any state, then for the memory. Times out
        only if the last listing still names a pod; the memory wait may give up at the ceiling. */
    method WaitForGpuReleased() returns (end: Outcome<()>, ghost t: Trace)
      modifies `calls, `clock, `pods, `trace
      ensures trace == old(trace) + t && Quiet(t)
      ensures end.Returned? ==>
        ReadsEmpty(LastPods(t)) && (Released(t, config.dwell) || clock >= old(clock) + 120_000)
      ensures end.TimedOut? ==>
        LastPods(t).Some? && !ReadsEmpty(LastPods(t)) && clock >= old(clock) + 120_000
      ensures end.Crashed? ==> t != [] && t[|t| - 1] == PodsUnknown
      ensures env(old(calls)).call == NonZero ==>
        end.Returned? && LastPods(t) == Some(Listing(env(old(calls)).states, false))
    {
      ghost var c := calls;
      var deadline := clock + RELEASE_TIMEOUT;
      var wait: Outcome<()>;
      wait, t := WaitForPodsGone(deadline);
      if !wait.Returned? { return wait, t; }
      ghost var rest: Trace;
      rest := WaitForMemory(deadline);
      UnlistedKeeps(t, rest);
      if Released(rest, config.dwell) { ReleasedConcat(t, rest, config.dwell); }
      return wait, t + rest;
    }

    /** The first phase: no pod in any state. */
    method WaitForPodsGone(deadline: int) returns (end: Outcome<()>, ghost t: Trace)
      requires deadline > clock
      modifies `calls, `clock, `pods, `trace
      ensures trace == old(trace) + t && Quiet(t) && clock >= old(clock)
      ensures end.Returned? ==> ReadsEmpty(LastPods(t))
      ensures end.TimedOut? ==> LastPods(t).Some? && !ReadsEmpty(LastPods(t)) && clock >= deadline
      ensures end.Crashed? ==> t != [] && t[|t| - 1] == PodsUnknown
      ensures env(old(calls)).call == NonZero ==>
        end.Returned? && LastPods(t) == Some(Listing(env(old(calls)).states, false))
    {
      hide LastPods;
      t := [];
      ghost var e: Event;
      while clock < deadline
        invariant trace == old(trace) + t && Quiet(t) && clock >= old(clock)
        invariant t == [] ==> clock == old(clock) && calls == old(calls)
        invariant t != [] ==> LastPods(t).Some? && !ReadsEmpty(LastPods(t)) && env(old(calls)).call != NonZero
        decreases deadline - clock
      {
        var read;
        read, e := ListPods();
        LastPodsAppend(t, e);
        t := t + [e];
        if read.None? { return Crashed, t; }
        if read.value == {} { return Returned(()), t; }
        Sleep(3_000);
        LastPodsAppend(t, Slept(3_000));
        t := t + [Slept(3_000)];
      }
      end := TimedOut;
    }

    /** The second phase: the memory, until the ceiling. */
    method WaitForMemory(deadline: int) returns (ghost t: Trace)
      modifies `calls, `clock, `pods, `trace
      ensures trace == old(trace) + t && Unlisted(t)
      ensures Released(t, config.dwell) || clock >= deadline
    {
      var free := ReadFree();
      t := [Free(free)];
      if free.None? {
        Sleep(config.dwell);
        t := t + [Slept(config.dwell)];
        return;
      }
      var prev := free.value;
      while clock < deadline
        invariant trace == old(trace) + t && Unlisted(t)
        invariant t != [] && t[|t| - 1] == Free(Some(prev))
        decreases deadline - clock
      {
        Sleep(5_000);
        var curr := ReadFree();
        t := t + [Slept(5_000), Free(curr)];
        if curr.None? || curr.value >= prev + GIB { return; }
        prev := curr.value;
      }
    }

    /** Stops the deployment if it runs. `true` only after a listing that read as no pods. */
    method StopVllm() returns (end: Outcome<bool>, ghost t: Trace)
      modifies this
      ensures trace == old(trace) + t && StopTrace(t, end)
      ensures replicas == Replicas(t, old(replicas))
      ensures BlindFirst(env, old(calls)) ==>
        end == Returned(false) && t == [Pods(Listing(env(old(calls)).states, false))] && pods == env(old(calls)).states
      ensures BlindLast(env, old(calls)) && config.stopTimeout > 0 ==>
        end == Returned(true) && LastPods(t) == Some(Listing(env(old(calls) + 3).states, false))
    {
      hide LastPods, Replicas, Released, StopTrace, Quiet;
      ghost var c := calls;
      ghost var e: Event;
      var read;
      read, e := ListPods();
      t := [e];
      StopEndsEarly(e, false, replicas);
      if read.None? { return Crashed, t; }
      ghost var first := e.list;
      if Running !in read.value { return Returned(false), t; }
      ghost var applied;
      var ok;
      ok, applied := Scale(0);
      t := [e, Scaled(0, ok, applied)];
      StopEndsEarly(e, applied, old(replicas));
      if !ok { return Crashed, t; }
      ghost var rest: Trace;
      end, rest := PollUntilStopped();
      StopEnds(first, rest, end, old(replicas));
      t := t + rest;
    }

    /** Polls the accepted scale-down until no pod is Running and the GPU is released. */
    method PollUntilStopped() returns (end: Outcome<bool>, ghost t: Trace)
      modifies `calls, `clock, `pods, `trace
      ensures trace == old(trace) + t && Quiet(t)
      ensures match end
              case Returned(stopped) => stopped && ReadsEmpty(LastPods(t))
              case TimedOut => !ReadsEmpty(LastPods(t))
              case Crashed => t != [] && t[|t| - 1] == PodsUnknown
      ensures env(old(calls)).call == NonZero && env(old(calls) + 1).call == NonZero && config.stopTimeout > 0 ==>
        end == Returned(true) && LastPods(t) == Some(Listing(env(old(calls) + 1).states, false))
    {
      hide LastPods, Released, Quiet;
      t := [];
      var deadline := clock + config.stopTimeout;
      LastPodsEmpty();
      QuietAppend([], []);
      while clock < deadline
        invariant trace == old(trace) + t && Quiet(t) && !ReadsEmpty(LastPods(t))
        invariant t == [] ==> calls == old(calls) && clock == deadline - config.stopTimeout
        invariant t != [] ==> env(old(calls)).call != NonZero
        decreases deadline - clock
      {
        var read;
        ghost var e: Event;
        read, e := ListPods();
        LastPodsAppend(t, e);
        QuietAppend(t, [e]);
        t := t + [e];
        if read.None? { return Crashed, t; }
        if Running !in read.value {
          ghost var w;
          var wait;
          wait, w := WaitForGpuReleased();
          if !wait.Crashed? { LastPodsConcat(t, w); }
          QuietAppend(t, w);
          end := match wait case Returned(_) => Returned(true) case TimedOut => TimedOut case Crashed => Crashed;
          t := t + w;
          return;
        }
        Sleep(5_000);
        LastPodsAppend(t, Slept(5_000));
        QuietAppend(t, [Slept(5_000)]);
        t := t + [Slept(5_000)];
      }
      end := TimedOut;
    }

    /** Starts the deployment and waits for its health endpoint. */
    method StartVllm() returns (end: Outcome<()>, ghost t: Trace)
      modifies this
      ensures trace == old(trace) + t && StartTrace(t, end)
      ensures replicas == Replicas(t, old(replicas))
    {
      hide Replicas;
      ghost var applied;
      var ok;
      ok, applied := Scale(1);
      t := [Scaled(1, ok, applied)];
      OneCommand(t, 0, 1, old(replicas));
      if !ok { return Crashed, t; }
      var deadline := clock + config.startTimeout;
      while clock < deadline
        invariant t != [] && t[0] == Scaled(1, true, true) && replicas == 1
        invariant trace == old(trace) + t && Quiet(t[1..])
        invariant t[|t| - 1] != Health(true)
        decreases deadline - clock
      {
        var healthy := CheckHealth();
        t := t + [Health(healthy)];
        if healthy {
          OneCommand(t, 0, 1, old(replicas));
          return Returned(()), t;
        }
        Sleep(10_000);
        t := t + [Slept(10_000)];
      }
      OneCommand(t, 0, 1, old(replicas));
      return TimedOut, t;
    }

    /** The training block: stops at the first step that does not succeed. */
    method RunBlock(job: Job) returns (end: Work)
      modifies `trace
      ensures trace == old(trace) + BlockTrace(config, job, pods) && end == BlockEnd(config, job)
    {
      trace := trace + [Began(pods)];
      end := job.work(Train);
      trace := trace + [Did(Train, end)];
      if end == Succeeds {
        end := job.work(Evaluate);
        trace := trace + [Did(Evaluate, end)];
        if end == Succeeds && config.push {
          end := job.work(Push);
          trace := trace + [Did(Push, end)];
        }
      }
    }

    /** The steps before anything is stopped: how the night ends in them, if it does. */
    method Prepare(job: Job) returns (skip: Option<Exit>)
      ensures skip == Skips(config, job)
    {
      if !job.staged { return Some(Code(1)); }
      if !job.skipExport && !job.exported { return Some(Raised); }
      if !job.loaded { return Some(Raised); }
      if job.records < HARD_MIN { return Some(Code(0)); }
      if job.dryRun { return Some(Code(0)); }
      if job.records < config.minExamples { return Some(Code(0)); }
      if !job.deps { return Some(Raised); }
      skip := None;
    }

    /** One night. The restart stands in the `finally` of the block: it is tried however
        the block ends, and its own failure is reported unless it is not the timeout. */
    method RunNight(job: Job) returns (exit: Exit, ghost n: Night)
      requires trace == []
      modifies this
      ensures trace == Whole(n) && IsNight(config, job, n, exit)
      ensures replicas == Replicas(trace, old(replicas))
      ensures config.stopNim && Skips(config, job).None? && BlindFirst(env, old(calls)) ==>
        Trained(trace) && n.began == env(old(calls)).states
      ensures config.stopNim && Skips(config, job).None? && BlindLast(env, old(calls)) && config.stopTimeout > 0 ==>
        Trained(trace) && LastPods(n.stop) == Some(Listing(env(old(calls) + 3).states, false))
    {
      hide StopTrace, StartTrace, Replicas, BlockTrace, BlockEnd, Trained, LastPods, BlindFirst, BlindLast, Scales,
           Skips;
      n := Night([], Returned(false), {}, [], [], Returned(()));
      UnscaledKeeps([], 0, replicas);
      var skip := Prepare(job);
      if skip.Some? { return skip.value, n; }

      var wasRunning := false;
      if config.stopNim {
        var stopEnd;
        ghost var t;
        stopEnd, t := StopVllm();
        n := n.(stop := t, stopEnd := stopEnd);
        assert Whole(n) == t;
        match stopEnd
        case TimedOut => return if job.noteWritten then Code(1) else Raised, n;
        case Crashed => return Raised, n;
        case Returned(stopped) => wasRunning := stopped;
      }
      assert replicas == Replicas(n.stop, old(replicas));

      var code := 0;
      var block := RunBlock(job);
      n := n.(work := BlockTrace(config, job, pods), began := pods);
      WorkCounts(config, job, pods, replicas);
      if block == Fails { code := 1; }
      var escapes := block == Interrupted;
      if wasRunning {
        var startEnd;
        ghost var t;
        startEnd, t := StartVllm();
        n := n.(start := t, startEnd := startEnd);
        match startEnd
        case Returned(_) =>
        case TimedOut => code := Max(code, 1);
        case Crashed => escapes := true;
      }
      PartsReplicas(n, old(replicas));
      UnscaledKeeps([], 0, replicas);
      exit := if escapes then Raised else Code(code);
      TrainedIff(config, job, n, exit);
    }
  }
}
