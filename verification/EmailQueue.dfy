/**
 The mail archive both miners drain: the query for the oldest unmined messages
 and the outcomes of marking one as mined.
 */
module EmailQueue {
  import opened Common

  datatype Email = Email(sentAt: Option<int>, content: Option<string>)

  /** The order of the query; a message without a date comes last. */
  predicate NotAfter(a: Email, b: Email) {
    b.sentAt.None? || (a.sentAt.Some? && a.sentAt.value <= b.sentAt.value)
  }

  /** How `mark_email_as_mined` ends. `InDoubt`: the commit took effect but its
      acknowledgement was lost, so the program sees a failure. */
  datatype Mark = Committed | Lost | InDoubt

  function Waiting(archive: map<nat, Email>, mined: set<nat>): set<nat> {
    set id | id in archive && id !in mined && archive[id].content.Some? && |archive[id].content.value| > 50
  }

  /** A result the query can return: the `limit` oldest waiting messages, oldest first. */
  ghost predicate IsFetch(archive: map<nat, Email>, mined: set<nat>, limit: nat, picked: seq<nat>) {
    var waiting := Waiting(archive, mined);
    && Distinct(picked)
    && (forall i :: 0 <= i < |picked| ==> picked[i] in waiting)
    && |picked| == Min(limit, |waiting|)
    && (forall i, j :: 0 <= i < j < |picked| ==> NotAfter(archive[picked[i]], archive[picked[j]]))
    && (forall i, id :: 0 <= i < |picked| && id in waiting && id !in picked ==>
         NotAfter(archive[picked[i]], archive[id]))
  }

  function Ids(picked: seq<nat>): set<nat> {
    set i | 0 <= i < |picked| :: picked[i]
  }

  lemma {:induction false} DistinctSize(picked: seq<nat>)
    requires Distinct(picked)
    ensures |Ids(picked)| == |picked|
  {
    if picked != [] {
      var front, last := picked[..|picked| - 1], picked[|picked| - 1];
      DistinctSize(front);
      assert Ids(picked) == Ids(front) + {last} by {
        assert forall i :: 0 <= i < |front| ==> front[i] == picked[i];
        forall id | id in Ids(picked) ensures id in Ids(front) + {last} {
          var i :| 0 <= i < |picked| && picked[i] == id;
          assert i < |front| ==> front[i] == id;
        }
      }
      assert last !in Ids(front) by {
        forall i | 0 <= i < |front| ensures front[i] != last {
          assert picked[i] != picked[|picked| - 1];
        }
      }
    }
  }

  /** When every fetched message ends up mined, the queue shrinks by the whole
      batch, so the drain loop reaches an empty queue. */
  lemma BatchShrinksQueue(archive: map<nat, Email>, mined: set<nat>, limit: nat, picked: seq<nat>)
    requires IsFetch(archive, mined, limit, picked)
    ensures |Waiting(archive, mined + Ids(picked))| == Max(0, |Waiting(archive, mined)| - limit)
  {
    DistinctSize(picked);
    var before, after := Waiting(archive, mined), Waiting(archive, mined + Ids(picked));
    assert Ids(picked) <= before;
    assert after == before - Ids(picked);
    assert |before - Ids(picked)| == |before| - |Ids(picked)|;
  }

  /** The waiting messages other than `id` that are not newer than it; a message without a
      date is newer than every other. */
  ghost function NotNewer(archive: map<nat, Email>, mined: set<nat>, id: nat): set<nat>
    requires id in archive
  {
    set other | other in Waiting(archive, mined) && other != id
      && match archive[id].sentAt
         case None => true
         case Some(at) => archive[other].sentAt.Some? && archive[other].sentAt.value <= at
  }

  /** A waiting message is in the next batch if fewer than `limit` others are not newer. */
  lemma OldestFetched(archive: map<nat, Email>, mined: set<nat>, limit: nat, picked: seq<nat>, id: nat)
    requires IsFetch(archive, mined, limit, picked) && id in Waiting(archive, mined)
    requires |NotNewer(archive, mined, id)| < limit
    ensures id in picked
  {
    if id !in picked {
      var waiting, older := Waiting(archive, mined), NotNewer(archive, mined, id);
      DistinctSize(picked);
      forall i | 0 <= i < |picked| ensures picked[i] in older {
        assert NotAfter(archive[picked[i]], archive[id]);
      }
      SubsetSize(Ids(picked), older);
      SubsetSize(Ids(picked), waiting - {id});
    }
  }

  lemma SubsetSize(a: set<nat>, b: set<nat>)
    requires a <= b
    ensures |a| <= |b|
  {
    assert b == a + (b - a);
  }

  // ---- Histories of a miner ------------------------------------------------------------

  /** A miner: the messages its tables mark, and what a batch does to the tables. */
  datatype Program<!T, !S> = Program(mined: T -> set<nat>, batch: (T, seq<nat>, nat -> S) -> T)

  datatype World<T> = World(archive: map<nat, Email>, tables: T)

  datatype Event<!S> = Arrive(id: nat, email: Email) | Batch(limit: nat, picked: seq<nat>, script: nat -> S)

  /** New mail gets a fresh id; a batch works on what its query returned. */
  ghost predicate Enabled<T, S>(p: Program<T, S>, w: World<T>, e: Event<S>) {
    match e
    case Arrive(id, _) => id !in w.archive
    case Batch(limit, picked, _) => IsFetch(w.archive, p.mined(w.tables), limit, picked)
  }

  function Apply<T, S>(p: Program<T, S>, w: World<T>, e: Event<S>): World<T> {
    match e
    case Arrive(id, email) => w.(archive := w.archive[id := email])
    case Batch(_, picked, script) => w.(tables := p.batch(w.tables, picked, script))
  }

  function After<T, S>(p: Program<T, S>, w: World<T>, history: seq<Event<S>>): World<T> {
    if history == [] then w else Apply(p, After(p, w, history[..|history| - 1]), history[|history| - 1])
  }

  ghost predicate ValidHistory<T, S>(p: Program<T, S>, w: World<T>, history: seq<Event<S>>) {
    forall i :: 0 <= i < |history| ==> Enabled(p, After(p, w, history[..i]), history[i])
  }

  /** A history is valid exactly if all but its last event is, and that event is enabled. */
  lemma ValidSnoc<T, S>(p: Program<T, S>, w: World<T>, before: seq<Event<S>>, e: Event<S>)
    ensures After(p, w, before + [e]) == Apply(p, After(p, w, before), e)
    ensures ValidHistory(p, w, before + [e]) <==> ValidHistory(p, w, before) && Enabled(p, After(p, w, before), e)
  {
    hide Apply, Enabled;
    var all := before + [e];
    assert all[..|before|] == before;
    assert forall i :: 0 <= i < |before| ==> all[..i] == before[..i] && all[i] == before[i];
    if ValidHistory(p, w, all) {
      forall i | 0 <= i < |before| ensures Enabled(p, After(p, w, before[..i]), before[i]) {
        assert Enabled(p, After(p, w, all[..i]), all[i]);
      }
      assert Enabled(p, After(p, w, all[..|before|]), all[|before|]);
    }
  }

  /** The rows that belong to a message. */
  function RowsFor<R>(rows: seq<R>, owner: R -> nat, id: nat): nat {
    if rows == [] then 0
    else RowsFor(rows[..|rows| - 1], owner, id) + if owner(rows[|rows| - 1]) == id then 1 else 0
  }

  lemma RowsForSnoc<R>(rows: seq<R>, owner: R -> nat, r: R, id: nat)
    ensures RowsFor(rows + [r], owner, id) == RowsFor(rows, owner, id) + if owner(r) == id then 1 else 0
  {
    assert (rows + [r])[..|rows|] == rows;
  }
}
