/**
 The crash-resumable reindex: a cursor-paged copy of an id-ordered source
 collection into a target collection, in windows of concurrently processed
 batches, with a checkpoint saved at every window boundary.

 A run is scripted by one `Step` per window: the window finishes (and the halt
 flag is then read), or the process dies: with any part of the window's upserts
 missing and the checkpoint unsaved, or while it overwrites the checkpoint file.
 */
module Reindex {
  import opened Common

  // ---- Data -----------------------------------------------------------------

  datatype Value = Str(text: string) | Other(json: string)
  datatype Point = Point(id: nat, payload: Option<map<string, Value>>)
  type Vector = seq<real>
  datatype Stored = Stored(vector: Vector, payload: map<string, Value>)

  /** What a run copies: the source in scroll (id) order, the payload field that
      holds the text, and the embedder, one vector per text. */
  datatype Job = Job(source: seq<Point>, field: string, embed: string -> Vector)

  datatype Checkpoint = Checkpoint(nextOffset: Option<nat>, processed: nat, errors: nat)

  /** The page size: scroll requests refuse 0. */
  type PageSize = n: nat | n >= 1 witness 1

  /** `targetOk` is whether the target collection has the expected dimension and metric. */
  datatype Args = Args(batchSize: PageSize, inflight: int, dryRun: bool, targetOk: bool)

  datatype Step = Finish(halt: bool) | Crash(lost: set<nat>) | DieSaving

  /** `Torn`: died inside the save. `Refused`: raised before doing anything. */
  datatype Outcome = Completed | Halted | Crashed | Torn | Refused

  /** The durable state. The checkpoint file is overwritten in place, so a death inside
      the save leaves it `torn`: `saved` is then the last checkpoint that could be read.
      History variables: the passes completed since the file was created, and whether
      any copying run ever completed. */
  datatype World = World(saved: Option<Checkpoint>, torn: bool, target: map<nat, Stored>, passes: nat, done: bool)

  ghost predicate ValidJob(job: Job) {
    forall i, j :: 0 <= i < j < |job.source| ==> job.source[i].id < job.source[j].id
  }

  function WindowSize(args: Args): nat {
    Max(1, args.inflight)
  }

  // ---- Eligibility of a point --------------------------------------------------

  predicate Blank(s: string) {
    forall i :: 0 <= i < |s| ==> IsSpace(s[i])
  }

  predicate Eligible(job: Job, p: Point) {
    && p.payload.Some?
    && job.field in p.payload.value
    && p.payload.value[job.field].Str?
    && !Blank(p.payload.value[job.field].text)
  }

  function Image(job: Job, p: Point): Stored
    requires Eligible(job, p)
  {
    Stored(job.embed(p.payload.value[job.field].text), p.payload.value)
  }

  function CountEligible(job: Job, pts: seq<Point>): (n: nat)
    ensures n <= |pts|
  {
    if pts == [] then 0
    else CountEligible(job, pts[..|pts| - 1]) + if Eligible(job, pts[|pts| - 1]) then 1 else 0
  }

  lemma {:induction false} CountEligibleConcat(job: Job, a: seq<Point>, b: seq<Point>)
    ensures CountEligible(job, a + b) == CountEligible(job, a) + CountEligible(job, b)
  {
    if b == [] {
      assert a + b == a;
    } else {
      assert (a + b)[..|a + b| - 1] == a + b[..|b| - 1];
      CountEligibleConcat(job, a, b[..|b| - 1]);
    }
  }

  function EligibleIds(job: Job, pts: seq<Point>): set<nat> {
    set k | 0 <= k < |pts| && Eligible(job, pts[k]) :: pts[k].id
  }

  // ---- The target as an overlay of source images ------------------------------

  /** The image of the eligible source point with this id. */
  ghost function ImageOf(job: Job, id: nat): Stored
    requires id in EligibleIds(job, job.source)
  {
    var k :| 0 <= k < |job.source| && Eligible(job, job.source[k]) && job.source[k].id == id;
    Image(job, job.source[k])
  }

  lemma ImageOfAt(job: Job, k: nat)
    requires ValidJob(job) && k < |job.source| && Eligible(job, job.source[k])
    ensures job.source[k].id in EligibleIds(job, job.source)
    ensures ImageOf(job, job.source[k].id) == Image(job, job.source[k])
  {
  }

  /** The target after the points with these ids have been upserted. */
  ghost function Overlay(job: Job, base: map<nat, Stored>, ids: set<nat>): map<nat, Stored>
    requires ids <= EligibleIds(job, job.source)
  {
    map id | id in base.Keys + ids :: if id in ids then ImageOf(job, id) else base[id]
  }

  /** Upserts commute and are idempotent: only the set of written ids matters. */
  lemma OverlayCompose(job: Job, base: map<nat, Stored>, a: set<nat>, b: set<nat>)
    requires a <= EligibleIds(job, job.source) && b <= EligibleIds(job, job.source)
    ensures Overlay(job, Overlay(job, base, a), b) == Overlay(job, base, a + b)
  {
  }

  lemma OverlayNothing(job: Job, base: map<nat, Stored>)
    ensures Overlay(job, base, {}) == base
  {
  }

  lemma OverlayOne(job: Job, base: map<nat, Stored>, ids: set<nat>, k: nat)
    requires ValidJob(job) && k < |job.source| && Eligible(job, job.source[k])
    requires ids <= EligibleIds(job, job.source)
    ensures job.source[k].id in EligibleIds(job, job.source)
    ensures Overlay(job, base, ids)[job.source[k].id := Image(job, job.source[k])]
         == Overlay(job, base, ids + {job.source[k].id})
  {
    hide Eligible, ImageOf, Image;
    ImageOfAt(job, k);
    var one := job.source[k].id;
    var left, right := Overlay(job, base, ids)[one := Image(job, job.source[k])], Overlay(job, base, ids + {one});
    assert left.Keys == right.Keys;
    forall id | id in left.Keys ensures left[id] == right[id] {
      assert id != one ==> (id in ids <==> id in ids + {one});
    }
  }

  /** What a finished copy must leave in an empty target. */
  ghost function FullImage(job: Job): map<nat, Stored> {
    Overlay(job, map[], EligibleIds(job, job.source))
  }

  // ---- Cursors --------------------------------------------------------------

  /** Index of the first point whose id is not below `x`. */
  function LowerBound(src: seq<Point>, x: nat): (n: nat)
    ensures n <= |src|
    ensures forall i :: 0 <= i < n ==> src[i].id < x
    ensures n < |src| ==> src[n].id >= x
  {
    if src == [] || src[0].id >= x then 0 else 1 + LowerBound(src[1..], x)
  }

  function Pos(src: seq<Point>, offset: Option<nat>): (n: nat)
    ensures n <= |src|
  {
    if offset.None? then 0 else LowerBound(src, offset.value)
  }

  function CursorAt(src: seq<Point>, n: nat): Option<nat> {
    if n < |src| then Some(src[n].id) else None
  }

  lemma PosOfCursor(job: Job, n: nat)
    requires ValidJob(job) && n < |job.source|
    ensures Pos(job.source, CursorAt(job.source, n)) == n
  {
    var m := LowerBound(job.source, job.source[n].id);
    assert m <= n;
    assert m >= n;
  }

  /** One scroll request: at most `limit` points from the cursor on, and the id
      of the first point not returned. */
  function Scroll(src: seq<Point>, limit: nat, offset: Option<nat>): (seq<Point>, Option<nat>) {
    var a := Pos(src, offset);
    var b := Min(a + limit, |src|);
    (src[a..b], CursorAt(src, b))
  }

  /** Where the source has been read up to after `pages` pages from `pos`. */
  function PageEnd(src: seq<Point>, size: nat, pos: nat, pages: nat): (n: nat)
    requires pos <= |src|
    ensures pos <= n <= |src|
  {
    if pages == 0 then pos else Min(PageEnd(src, size, pos, pages - 1) + size, |src|)
  }

  function WindowEnd(src: seq<Point>, args: Args, pos: nat): nat
    requires pos <= |src|
  {
    PageEnd(src, args.batchSize, pos, WindowSize(args))
  }

  /** A window covers at most `inflight * batchSize` points, and exactly that many
      unless the source ends. */
  lemma {:induction false} PageEndClosed(src: seq<Point>, size: nat, pos: nat, pages: nat)
    requires pos <= |src|
    ensures PageEnd(src, size, pos, pages) == Min(pos + pages * size, |src|)
  {
    if pages != 0 {
      PageEndClosed(src, size, pos, pages - 1);
      assert pages * size == (pages - 1) * size + size;
    }
  }

  /** In the command's terms: `inflight` batches, but at least one. */
  lemma WindowExtent(src: seq<Point>, args: Args, pos: nat)
    requires pos <= |src|
    ensures var batches := if args.inflight >= 1 then args.inflight else 1;
            WindowEnd(src, args, pos) == if pos + batches * args.batchSize <= |src|
                                         then pos + batches * args.batchSize else |src|
  {
    PageEndClosed(src, args.batchSize, pos, WindowSize(args));
  }

  lemma {:induction false} PageEndStays(src: seq<Point>, size: nat, pos: nat, i: nat, j: nat)
    requires pos <= |src| && i <= j
    ensures PageEnd(src, size, pos, i) <= PageEnd(src, size, pos, j)
    decreases j
  {
    if i < j {
      PageEndStays(src, size, pos, i, j - 1);
    }
  }

  /** The first `n` pages from `pos` on. */
  function Pages(src: seq<Point>, size: nat, pos: nat, n: nat): (r: seq<seq<Point>>)
    requires pos <= |src|
    ensures |r| == n
  {
    if n == 0 then []
    else Pages(src, size, pos, n - 1) + [src[PageEnd(src, size, pos, n - 1)..PageEnd(src, size, pos, n)]]
  }

  lemma PageStart(src: seq<Point>, size: nat, pos: nat)
    requires pos <= |src|
    ensures PageEnd(src, size, pos, 0) == pos && Pages(src, size, pos, 0) == []
  {
  }

  lemma PageStep(src: seq<Point>, size: nat, pos: nat, n: nat)
    requires pos <= |src|
    ensures var a := PageEnd(src, size, pos, n); var b := Min(a + size, |src|);
      PageEnd(src, size, pos, n + 1) == b && Pages(src, size, pos, n + 1) == Pages(src, size, pos, n) + [src[a..b]]
  {
  }

  /** What one pass of the scroll loop collects: pages up to the window size,
      stopping with the page that reaches the end of the source. */
  ghost predicate IsWindow(src: seq<Point>, args: Args, pos: nat, window: seq<seq<Point>>)
    requires pos <= |src|
  {
    && |window| <= WindowSize(args)
    && window == Pages(src, args.batchSize, pos, |window|)
    && PageEnd(src, args.batchSize, pos, |window|) == WindowEnd(src, args, pos)
    && (|window| > 0 ==> PageEnd(src, args.batchSize, pos, |window| - 1) < |src|)
  }

  /** The batches of a window tile the source: non-empty, at most `batchSize`
      points each, concatenating to the slice from the cursor to the window's end. */
  lemma WindowTiles(src: seq<Point>, args: Args, pos: nat, window: seq<seq<Point>>)
    requires pos <= |src| && IsWindow(src, args, pos, window)
    ensures Flatten(window) == src[pos..WindowEnd(src, args, pos)]
    ensures forall b :: b in window ==> 1 <= |b| <= args.batchSize
    ensures window == [] <==> pos == |src|
    ensures |Flatten(window)| <= WindowSize(args) * args.batchSize
  {
    PagesTile(src, args.batchSize, pos, |window|);
    PageEndClosed(src, args.batchSize, pos, WindowSize(args));
    if pos < |src| {
      WindowEndAdvances(src, args, pos);
    }
  }

  lemma {:induction false} PagesTile(src: seq<Point>, size: nat, pos: nat, n: nat)
    requires pos <= |src| && size >= 1
    requires n > 0 ==> PageEnd(src, size, pos, n - 1) < |src|
    ensures Flatten(Pages(src, size, pos, n)) == src[pos..PageEnd(src, size, pos, n)]
    ensures forall b :: b in Pages(src, size, pos, n) ==> 1 <= |b| <= size
  {
    if n > 0 {
      hide PageEnd, Pages, Flatten;
      if n > 1 {
        PageEndStays(src, size, pos, n - 2, n - 1);
      }
      PagesTile(src, size, pos, n - 1);
      PageStep(src, size, pos, n - 1);
      PageAppends(src, pos, PageEnd(src, size, pos, n - 1), PageEnd(src, size, pos, n), Pages(src, size, pos, n - 1));
    }
  }

  /** A page put behind pages that tile a slice extends the slice. */
  lemma PageAppends(src: seq<Point>, pos: nat, a: nat, b: nat, pages: seq<seq<Point>>)
    requires pos <= a <= b <= |src| && Flatten(pages) == src[pos..a]
    ensures Flatten(pages + [src[a..b]]) == src[pos..b]
  {
    FlattenSnoc(pages, src[a..b]);
    assert src[pos..a] + src[a..b] == src[pos..b];
  }

  lemma WindowEndAdvances(src: seq<Point>, args: Args, pos: nat)
    requires pos < |src|
    ensures pos < WindowEnd(src, args, pos) <= |src|
  {
    assert PageEnd(src, args.batchSize, pos, 0) == pos;
    PageEndStays(src, args.batchSize, pos, 1, WindowSize(args));
  }

  // ---- What a run does ------------------------------------------------------

  function Load(w: World): Checkpoint {
    if w.saved.Some? then w.saved.value else Checkpoint(None, 0, 0)
  }

  /** The target when the process dies inside a window. */
  ghost function CrashTarget(job: Job, args: Args, target: map<nat, Stored>, slice: seq<Point>, lost: set<nat>)
      : map<nat, Stored>
    requires EligibleIds(job, slice) <= EligibleIds(job, job.source)
  {
    if args.dryRun then target else Overlay(job, target, EligibleIds(job, slice) - lost)
  }

  /** The state after a window has finished and its checkpoint is saved. */
  ghost function FinishWindow(job: Job, args: Args, w: World, pos: nat, end: nat): World
    requires pos <= end <= |job.source|
  {
    var slice := job.source[pos..end];
    SliceIds(job, pos, end);
    var cp := Load(w);
    var next := CursorAt(job.source, end);
    if args.dryRun then
      w.(saved := Some(cp.(nextOffset := next)))
    else
      var n := CountEligible(job, slice);
      World(Some(Checkpoint(next, cp.processed + n, cp.errors + |slice| - n)), w.torn,
            Overlay(job, w.target, EligibleIds(job, slice)),
            if end == |job.source| then w.passes + 1 else w.passes,
            w.done || end == |job.source|)
  }

  lemma SliceIds(job: Job, a: nat, b: nat)
    requires a <= b <= |job.source|
    ensures EligibleIds(job, job.source[a..b]) <= EligibleIds(job, job.source)
  {
    forall id | id in EligibleIds(job, job.source[a..b]) ensures id in EligibleIds(job, job.source) {
      var k :| 0 <= k < b - a && Eligible(job, job.source[a..b][k]) && job.source[a..b][k].id == id;
      assert job.source[a..b][k] == job.source[a + k];
    }
  }

  /** The windows of a run, from window number `k` at source index `pos`. */
  ghost function RunFrom(job: Job, args: Args, script: nat -> Step, k: nat, pos: nat, w: World): (World, Outcome)
    requires pos <= |job.source|
    decreases |job.source| - pos
  {
    if pos == |job.source| then
      (w.(done := w.done || !args.dryRun), Completed)
    else
      WindowEndAdvances(job.source, args, pos);
      var end := WindowEnd(job.source, args, pos);
      match script(k)
      case Crash(lost) =>
        SliceIds(job, pos, end);
        (w.(target := CrashTarget(job, args, w.target, job.source[pos..end], lost)), Crashed)
      case DieSaving =>
        SliceIds(job, pos, end);
        (w.(torn := true, target := CrashTarget(job, args, w.target, job.source[pos..end], {})), Torn)
      case Finish(halt) =>
        var w' := FinishWindow(job, args, w, pos, end);
        if end == |job.source| then (w', Completed)
        else if halt then (w', Halted)
        else RunFrom(job, args, script, k + 1, end, w')
  }

  /** One invocation: it refuses a file it cannot parse and a target it does not expect. */
  ghost function Run(job: Job, args: Args, script: nat -> Step, w: World): (World, Outcome)
  {
    if w.torn || !args.targetOk then (w, Refused)
    else RunFrom(job, args, script, 0, Pos(job.source, Load(w).nextOffset), w)
  }

  // ---- The embedding call -----------------------------------------------------

  datatype Reply = Http(status: int, vectors: seq<Vector>) | RequestError
  datatype EmbedResult = Embedded(vectors: seq<Vector>) | ContractViolated | GaveUp

  /** Neither an answer nor the caller's fault: worth another attempt. */
  predicate Transient(r: Reply) {
    r.RequestError? || (r.status != 200 && r.status != 400)
  }

  /** Posts one batch of texts, retrying transient failures twice and never
      retrying a rejected request. `replies(i)` is what the i-th post gets back. */
  method EmbedBatch(replies: nat -> Reply) returns (result: EmbedResult, posts: nat)
    ensures 1 <= posts <= 3
    ensures forall i :: 0 <= i < posts - 1 ==> Transient(replies(i))
    ensures result.GaveUp? <==> posts == 3 && Transient(replies(2))
    ensures result.ContractViolated? <==> replies(posts - 1).Http? && replies(posts - 1).status == 400
    ensures forall v :: result == Embedded(v) <==> replies(posts - 1) == Http(200, v)
  {
    posts := 0;
    while posts < 3
      invariant 0 <= posts <= 3
      invariant forall i :: 0 <= i < posts ==> Transient(replies(i))
    {
      var r := replies(posts);
      posts := posts + 1;
      if r.Http? {
        if r.status == 200 {
          return Embedded(r.vectors), posts;
        }
        if r.status == 400 {
          return ContractViolated, posts;
        }
      }
    }
    result := GaveUp;
  }

  // ---- The program ------------------------------------------------------------

  class Reindexer {
    const job: Job
    var saved: Option<Checkpoint>
    var torn: bool
    var target: map<nat, Stored>
    ghost var passes: nat
    ghost var done: bool

    ghost function State(): World
      reads this
    {
      World(saved, torn, target, passes, done)
    }

    constructor (job: Job, initial: map<nat, Stored>)
      ensures this.job == job && State() == World(None, false, initial, 0, false)
    {
      this.job := job;
      saved, torn, target := None, false, initial;
      passes, done := 0, false;
    }

    /** Filters one batch, embeds what is left and upserts it. */
    method ProcessBatch(points: seq<Point>) returns (nOut: nat, skipped: nat)
      requires ValidJob(job) && forall p :: p in points ==> p in job.source
      modifies this`target
      ensures EligibleIds(job, points) <= EligibleIds(job, job.source)
      ensures target == Overlay(job, old(target), EligibleIds(job, points))
      ensures nOut == CountEligible(job, points) && nOut + skipped == |points|
    {
      hide Overlay, ImageOf, Image, Blank, LowerBound;
      var keep: seq<Point> := [];
      skipped := 0;
      for i := 0 to |points|
        invariant target == old(target)
        invariant |keep| + skipped == i && |keep| == CountEligible(job, points[..i])
        invariant forall p :: p in keep ==> Eligible(job, p) && p in points
        invariant EligibleIds(job, keep) == EligibleIds(job, points[..i])
      {
        assert points[..i + 1][..i] == points[..i];
        EligibleIdsSnoc(job, points[..i], points[i]);
        assert points[..i + 1] == points[..i] + [points[i]];
        if Eligible(job, points[i]) {
          EligibleIdsSnoc(job, keep, points[i]);
          keep := keep + [points[i]];
        } else {
          skipped := skipped + 1;
        }
      }
      assert points[..|points|] == points;
      nOut := |keep|;
      IdsFromSource(job, keep);
      OverlayNothing(job, target);
      assert EligibleIds(job, keep[..0]) == {};
      for i := 0 to |keep|
        invariant EligibleIds(job, keep[..i]) <= EligibleIds(job, keep)
        invariant target == Overlay(job, old(target), EligibleIds(job, keep[..i]))
      {
        var q := keep[i];
        assert keep[..i + 1] == keep[..i] + [q];
        EligibleIdsSnoc(job, keep[..i], q);
        assert q in job.source;
        var k :| 0 <= k < |job.source| && job.source[k] == q;
        OverlayOne(job, old(target), EligibleIds(job, keep[..i]), k);
        target := target[q.id := Image(job, q)];
      }
      assert keep[..|keep|] == keep;
    }

    /** One scroll request against the source. */
    method ScrollPage(limit: nat, cur: Option<nat>) returns (page: seq<Point>, next: Option<nat>)
      requires limit >= 1
      ensures var at := Pos(job.source, cur); var to := Min(at + limit, |job.source|);
        page == job.source[at..to] && next == CursorAt(job.source, to)
      ensures |page| <= limit && (page == [] <==> Pos(job.source, cur) == |job.source|)
    {
      var reply := Scroll(job.source, limit, cur);
      page, next := reply.0, reply.1;
    }

    /** Sequentially scrolls up to a window of batches. */
    method CollectWindow(args: Args, start: Option<nat>) returns (window: seq<seq<Point>>, end: Option<nat>)
      requires ValidJob(job)
      ensures IsWindow(job.source, args, Pos(job.source, start), window)
      ensures window != [] ==> end == CursorAt(job.source, WindowEnd(job.source, args, Pos(job.source, start)))
    {
      hide PageEnd, Pages, LowerBound;
      ghost var src, size, pos := job.source, args.batchSize, Pos(job.source, start);
      PageStart(src, size, pos);
      window, end := [], start;
      var n := 0;
      while n < WindowSize(args)
        invariant 0 <= n <= WindowSize(args) && window == Pages(src, size, pos, n)
        invariant Pos(src, end) == PageEnd(src, size, pos, n)
        invariant n > 0 ==> Pos(src, end) < |src| && end == CursorAt(src, Pos(src, end))
      {
        var page, next := ScrollPage(args.batchSize, end);
        if page == [] {
          break;
        }
        PageStep(src, size, pos, n);
        window, end, n := window + [page], next, n + 1;
        if next.None? {
          PageEndStays(src, size, pos, n, WindowSize(args));
          return;
        }
        PosOfCursor(job, PageEnd(src, size, pos, n));
      }
      if n > 0 {
        PageEndStays(src, size, pos, n - 1, n);
      }
    }

    /** Runs the window's batches concurrently: they complete in any order. */
    method GatherWindow(window: seq<seq<Point>>) returns (nOut: nat, skipped: nat)
      requires ValidJob(job) && forall p :: p in Flatten(window) ==> p in job.source
      modifies this`target
      ensures EligibleIds(job, Flatten(window)) <= EligibleIds(job, job.source)
      ensures target == Overlay(job, old(target), EligibleIds(job, Flatten(window)))
      ensures nOut == CountEligible(job, Flatten(window)) && nOut + skipped == |Flatten(window)|
    {
      hide Overlay, ImageOf, Image, Eligible, LowerBound, DoneIds;
      IdsFromSource(job, Flatten(window));
      DoneNone(job, window);
      var pending := Indices(|window|);
      OverlayNothing(job, target);
      var outs := seq(|window|, i => 0);
      while pending != {}
        invariant forall i :: i in pending ==> 0 <= i < |window|
        invariant |outs| == |window|
        invariant forall i :: 0 <= i < |window| && i !in pending ==> outs[i] == CountEligible(job, window[i])
        invariant DoneIds(job, window, pending) <= EligibleIds(job, job.source)
        invariant target == Overlay(job, old(target), DoneIds(job, window, pending))
        decreases pending
      {
        var i :| i in pending;
        BatchInFlatten(window, i);
        var o, _ := ProcessBatch(window[i]);
        OverlayCompose(job, old(target), DoneIds(job, window, pending), EligibleIds(job, window[i]));
        DoneOneMore(job, window, pending, i);
        outs := outs[i := o];
        pending := pending - {i};
      }
      DoneAll(job, window);
      nOut, skipped := 0, 0;
      for i := 0 to |window|
        invariant target == Overlay(job, old(target), EligibleIds(job, Flatten(window)))
        invariant nOut == CountEligible(job, Flatten(window[..i]))
        invariant nOut + skipped == |Flatten(window[..i])|
      {
        assert window[..i + 1][..i] == window[..i];
        CountEligibleConcat(job, Flatten(window[..i]), window[i]);
        nOut, skipped := nOut + outs[i], skipped + (|window[i]| - outs[i]);
      }
      assert window[..|window|] == window;
    }

    /** Processes a collected window and saves the checkpoint behind it. */
    method DoWindow(args: Args, window: seq<seq<Point>>, end: Option<nat>, total: nat, errors: nat,
                    ghost pos: nat, ghost to: nat) returns (total': nat, errors': nat)
      requires ValidJob(job) && pos < to <= |job.source|
      requires Flatten(window) == job.source[pos..to] && end == CursorAt(job.source, to)
      requires total == Load(State()).processed && errors == Load(State()).errors
      modifies this
      ensures State() == FinishWindow(job, args, old(State()), pos, to)
      ensures total' == Load(State()).processed && errors' == Load(State()).errors
    {
      total', errors' := total, errors;
      if !args.dryRun {
        var nOut, skipped := GatherWindow(window);
        total', errors' := total + nOut, errors + skipped;
        if end.None? {
          passes, done := passes + 1, true;
        }
      }
      saved := Some(Checkpoint(end, total', errors'));
    }

    /** The process dies inside a window: only the points that are not lost were
        written, and nothing is saved. */
    method DieInWindow(args: Args, window: seq<seq<Point>>, lost: set<nat>, ghost pos: nat, ghost to: nat)
      requires ValidJob(job) && pos < to <= |job.source| && Flatten(window) == job.source[pos..to]
      requires EligibleIds(job, job.source[pos..to]) <= EligibleIds(job, job.source)
      modifies this`target
      ensures target == CrashTarget(job, args, old(target), job.source[pos..to], lost)
    {
      if !args.dryRun {
        SurvivorIds(job, Flatten(window), lost);
        var _, _ := ProcessBatch(Survivors(Flatten(window), lost));
      }
    }

    /** One invocation of the tool. */
    method RunReindex(args: Args, script: nat -> Step) returns (outcome: Outcome)
      requires ValidJob(job)
      modifies this
      ensures (State(), outcome) == Run(job, args, script, old(State()))
    {
      if torn || !args.targetOk {
        return Refused;
      }
      var state := if saved.Some? then saved.value else Checkpoint(None, 0, 0);
      var total, errors := state.processed, state.errors;
      var cur := state.nextOffset;
      var k: nat := 0;
      hide PageEnd, LowerBound, FinishWindow, CrashTarget, IsWindow;
      ghost var pos := Pos(job.source, cur);
      ghost var result := Run(job, args, script, State());
      while true
        invariant pos == Pos(job.source, cur) && pos <= |job.source|
        invariant total == Load(State()).processed && errors == Load(State()).errors
        invariant RunFrom(job, args, script, k, pos, State()) == result
        decreases |job.source| - pos
      {
        var window, end := CollectWindow(args, cur);
        WindowTiles(job.source, args, pos, window);
        if window == [] {
          done := done || !args.dryRun;
          return Completed;
        }
        WindowEndAdvances(job.source, args, pos);
        ghost var to := WindowEnd(job.source, args, pos);
        SliceIds(job, pos, to);
        if script(k).Crash? {
          DieInWindow(args, window, script(k).lost, pos, to);
          return Crashed;
        }
        if script(k).DieSaving? {
          DieInWindow(args, window, {}, pos, to);
          torn := true;
          return Torn;
        }
        total, errors := DoWindow(args, window, end, total, errors, pos, to);
        cur := end;
        if end.None? {
          return Completed;
        }
        if script(k).halt {
          return Halted;
        }
        PosOfCursor(job, to);
        pos, k := to, k + 1;
      }
    }
  }

  function Survivors(pts: seq<Point>, lost: set<nat>): seq<Point> {
    if pts == [] then []
    else
      var q := pts[|pts| - 1];
      Survivors(pts[..|pts| - 1], lost) + if q.id in lost then [] else [q]
  }

  // ---- Helpers of the methods ----------------------------------------------------

  function Indices(n: nat): (r: set<int>)
    ensures forall i :: i in r <==> 0 <= i < n
  {
    if n == 0 then {} else Indices(n - 1) + {n - 1}
  }

  lemma FlattenSnoc<T>(ss: seq<seq<T>>, last: seq<T>)
    ensures Flatten(ss + [last]) == Flatten(ss) + last
  {
    assert (ss + [last])[..|ss|] == ss;
  }

  lemma {:induction false} SurvivorIds(job: Job, pts: seq<Point>, lost: set<nat>)
    ensures forall p :: p in Survivors(pts, lost) ==> p in pts
    ensures EligibleIds(job, Survivors(pts, lost)) == EligibleIds(job, pts) - lost
  {
    if pts != [] {
      var front, q := pts[..|pts| - 1], pts[|pts| - 1];
      SurvivorIds(job, front, lost);
      assert pts == front + [q];
      EligibleIdsSnoc(job, front, q);
      if q.id in lost {
        assert Survivors(pts, lost) == Survivors(front, lost);
      } else {
        EligibleIdsSnoc(job, Survivors(front, lost), q);
      }
    }
  }

  lemma EligibleIdsSnoc(job: Job, pts: seq<Point>, q: Point)
    ensures EligibleIds(job, pts + [q]) == EligibleIds(job, pts) + if Eligible(job, q) then {q.id} else {}
  {
    var all := pts + [q];
    forall id | id in EligibleIds(job, pts) ensures id in EligibleIds(job, all) {
      var k :| 0 <= k < |pts| && Eligible(job, pts[k]) && pts[k].id == id;
      assert all[k] == pts[k];
    }
    if Eligible(job, q) {
      assert all[|pts|] == q;
    }
  }

  lemma IdsFromSource(job: Job, pts: seq<Point>)
    requires forall p :: p in pts ==> p in job.source
    ensures EligibleIds(job, pts) <= EligibleIds(job, job.source)
  {
    forall id | id in EligibleIds(job, pts) ensures id in EligibleIds(job, job.source) {
      var k :| 0 <= k < |pts| && Eligible(job, pts[k]) && pts[k].id == id;
      assert pts[k] in job.source;
    }
  }

  ghost function DoneIds(job: Job, window: seq<seq<Point>>, pending: set<int>): set<nat> {
    set i, k | 0 <= i < |window| && i !in pending && 0 <= k < |window[i]| && Eligible(job, window[i][k])
      :: window[i][k].id
  }

  lemma DoneNone(job: Job, window: seq<seq<Point>>)
    ensures DoneIds(job, window, Indices(|window|)) == {}
  {
  }

  lemma DoneOneMore(job: Job, window: seq<seq<Point>>, pending: set<int>, i: nat)
    requires i in pending && i < |window|
    ensures DoneIds(job, window, pending - {i}) == DoneIds(job, window, pending) + EligibleIds(job, window[i])
  {
  }

  lemma {:induction false} BatchInFlatten<T>(ss: seq<seq<T>>, i: nat)
    requires i < |ss|
    ensures forall x :: x in ss[i] ==> x in Flatten(ss)
  {
    if i < |ss| - 1 {
      BatchInFlatten(ss[..|ss| - 1], i);
    }
  }

  lemma {:induction false} FlattenInBatch<T>(ss: seq<seq<T>>, x: T) returns (i: nat)
    requires x in Flatten(ss)
    ensures i < |ss| && x in ss[i]
  {
    if x in ss[|ss| - 1] {
      i := |ss| - 1;
    } else {
      i := FlattenInBatch(ss[..|ss| - 1], x);
    }
  }

  lemma DoneAll(job: Job, window: seq<seq<Point>>)
    ensures DoneIds(job, window, {}) == EligibleIds(job, Flatten(window))
  {
    forall id | id in DoneIds(job, window, {}) ensures id in EligibleIds(job, Flatten(window)) {
      var i, k :| 0 <= i < |window| && 0 <= k < |window[i]| && Eligible(job, window[i][k]) && window[i][k].id == id;
      BatchInFlatten(window, i);
      assert window[i][k] in Flatten(window);
    }
    forall id | id in EligibleIds(job, Flatten(window)) ensures id in DoneIds(job, window, {}) {
      var k :| 0 <= k < |Flatten(window)| && Eligible(job, Flatten(window)[k]) && Flatten(window)[k].id == id;
      var i := FlattenInBatch(window, Flatten(window)[k]);
      assert exists m :: 0 <= m < |window[i]| && window[i][m] == Flatten(window)[k];
    }
  }
}
