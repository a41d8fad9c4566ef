/**
 The nightly classification janitor. Each run scans for UNKNOWN vendors and for
 low-confidence notes, asks a model about each candidate, and corrects or flags
 it; the notes it writes are what the next night's scan reads.
 */
module Janitor {
  import opened Common
  import opened Notes

  datatype Class =
    | OwnerPrincipal | RealBusiness | Contractor | CrogInternal | FamilyInternal | FinancialService
    | ProfessionalService | LegalService | Insurance | OperationalExpense | Subscription | Marketing
    | TenantGuest | PersonalExpense | Government | LitigationRecovery | Noise | Unknown

  datatype Vendor = Vendor(category: Class, revenue: bool, expense: bool, classifiedBy: string, notes: Option<string>)

  const AUTO_CORRECT: real := 0.95
  const SCAN_BELOW: real := 0.65

  /** The flags of a class: (is_revenue, is_expense). */
  function ComputeFlags(c: Class): (bool, bool) {
    var revenue := c in {RealBusiness, CrogInternal, TenantGuest};
    var expense := c in {Contractor, OperationalExpense, ProfessionalService, LegalService, Insurance, Subscription,
                         Marketing, Government, CrogInternal, FinancialService};
    if c in {Noise, FamilyInternal, Unknown, PersonalExpense} then (false, false) else (revenue, expense)
  }

  // ---- The scan ------------------------------------------------------------------

  predicate Noted(v: Vendor) {
    v.notes.Some? && StartsWith(v.notes.value, KEY)
  }

  /** The scan's cast does not fail on this vendor's note. */
  predicate Readable(cast: Cast, v: Vendor) {
    Noted(v) ==> ScanConfidence(cast, v.notes.value).Some?
  }

  predicate Candidate(cast: Cast, v: Vendor) {
    || v.category == Unknown
    || (Noted(v) && ScanConfidence(cast, v.notes.value).Some?
        && ScanConfidence(cast, v.notes.value).value < SCAN_BELOW)
  }

  type Vendors = map<nat, Vendor>

  function Candidates(cast: Cast, vs: Vendors): set<nat> {
    set id | id in vs && Candidate(cast, vs[id])
  }

  /** The scan's order: UNKNOWN vendors first, then by id. */
  predicate Before(vs: Vendors, a: nat, b: nat)
    requires a in vs && b in vs
  {
    var x, y := if vs[a].category == Unknown then 0 else 1, if vs[b].category == Unknown then 0 else 1;
    x < y || (x == y && a < b)
  }

  /** All candidates in order, cut to `limit` vendors unless `limit` is 0. */
  ghost predicate IsFullScan(cast: Cast, vs: Vendors, limit: nat, picked: seq<nat>) {
    var all := Candidates(cast, vs);
    && Distinct(picked)
    && (forall i :: 0 <= i < |picked| ==> picked[i] in all)
    && |picked| == (if limit == 0 then |all| else Min(limit, |all|))
    && (forall i, j :: 0 <= i < j < |picked| && picked[i] in vs && picked[j] in vs ==> Before(vs, picked[i], picked[j]))
    && (forall i, id :: 0 <= i < |picked| && id in all && id !in picked && picked[i] in vs ==>
         Before(vs, picked[i], id))
  }

  /** What the scan returns. A note the cast cannot read makes the query fail, and the run
      ends before any vendor; on an UNKNOWN vendor the database may not evaluate the cast. */
  ghost predicate IsScan(cast: Cast, vs: Vendors, limit: nat, picked: seq<nat>) {
    || (picked == [] && exists id :: id in vs && !Readable(cast, vs[id]))
    || (IsFullScan(cast, vs, limit, picked)
        && forall id :: id in vs && !Readable(cast, vs[id]) ==> vs[id].category == Unknown)
  }

  // ---- Decisions -----------------------------------------------------------------

  datatype Answer = Error | Verdict(category: Class, confidence: real, reasoning: string)

  /** One vendor's turn; `dies` when the process or its database call fails before the update. */
  datatype Step = Step(answer: Answer, dies: bool)

  datatype Fate = Failed | Unchanged | Corrected | Flagged

  function FateOf(v: Vendor, a: Answer): Fate {
    if a.Error? then Failed
    else if a.category == v.category || a.category == Unknown then Unchanged
    else if a.confidence >= AUTO_CORRECT then Corrected
    else Flagged
  }

  function ClassName(c: Class): string {
    match c
    case OwnerPrincipal => "OWNER_PRINCIPAL" case RealBusiness => "REAL_BUSINESS" case Contractor => "CONTRACTOR"
    case CrogInternal => "CROG_INTERNAL" case FamilyInternal => "FAMILY_INTERNAL"
    case FinancialService => "FINANCIAL_SERVICE" case ProfessionalService => "PROFESSIONAL_SERVICE"
    case LegalService => "LEGAL_SERVICE" case Insurance => "INSURANCE"
    case OperationalExpense => "OPERATIONAL_EXPENSE" case Subscription => "SUBSCRIPTION"
    case Marketing => "MARKETING" case TenantGuest => "TENANT_GUEST" case PersonalExpense => "PERSONAL_EXPENSE"
    case Government => "GOVERNMENT" case LitigationRecovery => "LITIGATION_RECOVERY" case Noise => "NOISE"
    case Unknown => "UNKNOWN"
  }

  /** The vendor after its turn in a live run. */
  function Treat(v: Vendor, a: Answer): Vendor {
    match FateOf(v, a)
    case Failed => v
    case Unchanged => v
    case Corrected =>
      var (revenue, expense) := ComputeFlags(a.category);
      Vendor(a.category, revenue, expense, "JANITOR-AUTO",
             Some(Note(a.confidence, a.reasoning + " | was:" + ClassName(v.category))))
    case Flagged =>
      v.(notes := Some(Note(a.confidence, "JANITOR-FLAGGED: suggests " + ClassName(a.category) + " | " + a.reasoning)))
  }

  /** The durable state, with the corrections made so far, in order, as a history variable. */
  datatype World = World(vendors: Vendors, corrections: seq<nat>)

  function AfterVendor(w: World, dryRun: bool, id: nat, st: Step): World {
    if dryRun || st.dies || id !in w.vendors then w
    else
      World(w.vendors[id := Treat(w.vendors[id], st.answer)],
            if FateOf(w.vendors[id], st.answer) == Corrected then w.corrections + [id] else w.corrections)
  }

  function AfterRun(w: World, dryRun: bool, picked: seq<nat>, script: nat -> Step, k: nat): World
    decreases |picked| - k
  {
    if k >= |picked| then w
    else
      var w' := AfterVendor(w, dryRun, picked[k], script(k));
      if script(k).dies then w' else AfterRun(w', dryRun, picked, script, k + 1)
  }

  datatype Stats = Stats(reviewed: nat, corrected: nat, flagged: nat, kept: nat, errors: nat)

  function AddVendor(s: Stats, fate: Fate): Stats {
    var s := s.(reviewed := s.reviewed + 1);
    match fate
    case Failed => s.(errors := s.errors + 1)
    case Unchanged => s.(kept := s.kept + 1)
    case Corrected => s.(corrected := s.corrected + 1)
    case Flagged => s.(flagged := s.flagged + 1)
  }

  /** The statistics after the first `k` vendors, judged as they were scanned. */
  function StatsOf(vs: Vendors, picked: seq<nat>, script: nat -> Step, k: nat): Stats
    requires k <= |picked| && forall i :: 0 <= i < |picked| ==> picked[i] in vs
  {
    if k == 0 then Stats(0, 0, 0, 0, 0)
    else AddVendor(StatsOf(vs, picked, script, k - 1), FateOf(vs[picked[k - 1]], script(k - 1).answer))
  }

  // ---- The program ---------------------------------------------------------------

  class NightShift {
    var vendors: Vendors
    ghost var corrections: seq<nat>

    constructor (vendors: Vendors)
      ensures State() == World(vendors, [])
    {
      this.vendors, corrections := vendors, [];
    }

    ghost function State(): World
      reads this
    {
      World(vendors, corrections)
    }

    /** Reviews one scanned vendor; `scanned` is its row as the scan returned it. */
    method Review(dryRun: bool, id: nat, scanned: Vendor, st: Step, stats: Stats) returns (stats': Stats)
      requires id in vendors && vendors[id] == scanned
      modifies this
      ensures State() == AfterVendor(old(State()), dryRun, id, st)
      ensures !st.dies ==> stats' == AddVendor(stats, FateOf(scanned, st.answer))
    {
      stats' := stats.(reviewed := stats.reviewed + 1);
      if st.answer.Error? {
        stats' := stats'.(errors := stats'.errors + 1);
        return;
      }
      var Verdict(category, confidence, reasoning) := st.answer;
      if category == scanned.category || category == Unknown {
        stats' := stats'.(kept := stats'.kept + 1);
        return;
      }
      if confidence >= AUTO_CORRECT {
        if !dryRun && !st.dies {
          var flags := ComputeFlags(category);
          vendors := vendors[id := scanned.(category := category, revenue := flags.0, expense := flags.1,
            classifiedBy := "JANITOR-AUTO",
            notes := Some(Note(confidence, reasoning + " | was:" + ClassName(scanned.category))))];
          corrections := corrections + [id];
        }
        stats' := stats'.(corrected := stats'.corrected + 1);
      } else {
        stats' := stats'.(flagged := stats'.flagged + 1);
        if !dryRun && !st.dies {
          vendors := vendors[id := scanned.(
            notes := Some(Note(confidence, "JANITOR-FLAGGED: suggests " + ClassName(category) + " | " + reasoning)))];
        }
      }
    }

    /** One night's run over the scanned vendors. */
    method NightlyRun(dryRun: bool, picked: seq<nat>, script: nat -> Step) returns (reported: bool, stats: Stats)
      requires Distinct(picked) && forall i :: 0 <= i < |picked| ==> picked[i] in vendors
      modifies this
      ensures State() == AfterRun(old(State()), dryRun, picked, script, 0)
      ensures reported <==> forall k :: 0 <= k < |picked| ==> !script(k).dies
      ensures reported ==> stats == StatsOf(old(vendors), picked, script, |picked|)
    {
      hide AfterVendor, AddVendor, FateOf;
      stats := Stats(0, 0, 0, 0, 0);
      ghost var final := AfterRun(State(), dryRun, picked, script, 0);
      var k := 0;
      while k < |picked|
        invariant 0 <= k <= |picked|
        invariant forall i :: k <= i < |picked| ==>
          picked[i] in vendors && vendors[picked[i]] == old(vendors[picked[i]])
        invariant AfterRun(State(), dryRun, picked, script, k) == final
        invariant stats == StatsOf(old(vendors), picked, script, k)
        invariant forall i :: 0 <= i < k ==> !script(i).dies
      {
        OthersStay(State(), dryRun, picked[k], script(k));
        stats := Review(dryRun, picked[k], vendors[picked[k]], script(k), stats);
        if script(k).dies {
          return false, stats;
        }
        k := k + 1;
      }
      reported := true;
    }
  }

  lemma OthersStay(w: World, dryRun: bool, id: nat, st: Step)
    ensures var w' := AfterVendor(w, dryRun, id, st);
      w'.vendors.Keys == w.vendors.Keys && forall o :: o in w.vendors && o != id ==> w'.vendors[o] == w.vendors[o]
  {
  }

  /** Every reviewed vendor is counted once. */
  lemma {:induction false} StatsBalance(vs: Vendors, picked: seq<nat>, script: nat -> Step, k: nat)
    requires k <= |picked| && forall i :: 0 <= i < |picked| ==> picked[i] in vs
    ensures var s := StatsOf(vs, picked, script, k);
      s.reviewed == k && s.reviewed == s.corrected + s.flagged + s.kept + s.errors
  {
    if k > 0 {
      StatsBalance(vs, picked, script, k - 1);
    }
  }
}

/** Convergence over any number of nights with arbitrary answers and no outside edits. */
module JanitorHistory {
  import opened Common
  import opened Notes
  import opened Janitor

  datatype Night = Night(limit: nat, dryRun: bool, picked: seq<nat>, script: nat -> Step)

  /** The state after the nights, if every scan returned what it should. */
  ghost function After(cast: Cast, w: World, nights: seq<Night>): Option<World> {
    if nights == [] then Some(w)
    else
      var before, n := After(cast, w, nights[..|nights| - 1]), nights[|nights| - 1];
      if before.Some? && IsScan(cast, before.value.vendors, n.limit, n.picked)
      then Some(AfterRun(before.value, n.dryRun, n.picked, n.script, 0)) else None
  }

  function Start(vendors: Vendors): World {
    World(vendors, [])
  }

  lemma NoteThreshold(c: real)
    ensures c >= AUTO_CORRECT ==> Hundredths(c) >= 95
    ensures Hundredths(c) as real / 100.0 < SCAN_BELOW <==> Hundredths(c) < 65
  {
  }

  /** When a candidate stops being one: it is corrected, or it is flagged with a
      class already known and at least 65 hundredths after rounding. In particular
      an UNKNOWN vendor leaves the queue only by being corrected. */
  lemma TreatedCandidate(cast: Cast, v: Vendor, a: Answer)
    requires Candidate(cast, v)
    ensures var v' := Treat(v, a);
      !Candidate(cast, v')
      <==> FateOf(v, a) == Corrected
           || (FateOf(v, a) == Flagged && v.category != Unknown && Hundredths(a.confidence) >= 65)
    ensures Readable(cast, v) ==> Readable(cast, Treat(v, a))
  {
    hide Note, ScanConfidence, Hundredths, StartsWith, ClassName, ComputeFlags;
    if a.Verdict? {
      NoteThreshold(a.confidence);
      ScanReadsBack(cast, a.confidence, a.reasoning + " | was:" + ClassName(v.category));
      ScanReadsBack(cast, a.confidence, "JANITOR-FLAGGED: suggests " + ClassName(a.category) + " | " + a.reasoning);
    }
  }

  /** The classes that bring revenue. */
  const REVENUE: set<Class> := {RealBusiness, CrogInternal, TenantGuest}

  /** The classes that cost. */
  const EXPENSE: set<Class> := {Contractor, OperationalExpense, ProfessionalService, LegalService, Insurance,
                                Subscription, Marketing, Government, CrogInternal, FinancialService}

  /** A vendor the janitor corrected: settled, with the flags of its class. */
  predicate Settled(cast: Cast, v: Vendor) {
    && !Candidate(cast, v)
    && v.classifiedBy == "JANITOR-AUTO"
    && (v.revenue <==> v.category in REVENUE)
    && (v.expense <==> v.category in EXPENSE)
  }

  /** A verdict that differs from the vendor's class and is not UNKNOWN. */
  predicate Differs(v: Vendor, a: Answer) {
    a.Verdict? && a.category != v.category && a.category != Unknown
  }

  /** What a turn does, by the verdict and its confidence: at 0.95 or more the class, its
      flags and its author change, below only the note does. */
  lemma TreatIs(v: Vendor, a: Answer)
    ensures !Differs(v, a) ==> Treat(v, a) == v
    ensures Differs(v, a) && a.confidence < 0.95 ==>
      Treat(v, a) == v.(notes := Some(Note(a.confidence, "JANITOR-FLAGGED: suggests " + ClassName(a.category)
                                                         + " | " + a.reasoning)))
    ensures Differs(v, a) && a.confidence >= 0.95 ==>
      var v' := Treat(v, a);
      && v'.category == a.category && v'.classifiedBy == "JANITOR-AUTO"
      && (v'.revenue <==> a.category in REVENUE) && (v'.expense <==> a.category in EXPENSE)
      && v'.notes == Some(Note(a.confidence, a.reasoning + " | was:" + ClassName(v.category)))
    ensures FateOf(v, a) == Corrected <==> Differs(v, a) && a.confidence >= 0.95
    ensures FateOf(v, a) == Flagged <==> Differs(v, a) && a.confidence < 0.95
    ensures FateOf(v, a) == Failed <==> a.Error?
  {
    hide Note, ClassName;
    if Differs(v, a) && a.confidence < 0.95 {
      assert "JANITOR-FLAGGED: suggests " + ClassName(a.category) + " | " + a.reasoning
          == "JANITOR-FLAGGED: suggests " + (ClassName(a.category) + (" | " + a.reasoning));
    }
  }

  /** The verdicts of the first `k` vendors, as the night found them, that are of a kind. */
  function CountFirst(vs: Vendors, picked: seq<nat>, script: nat -> Step, what: (Vendor, Answer) -> bool, k: nat): nat
    requires k <= |picked| && forall i :: 0 <= i < |picked| ==> picked[i] in vs
  {
    if k == 0 then 0
    else CountFirst(vs, picked, script, what, k - 1) + if what(vs[picked[k - 1]], script(k - 1).answer) then 1 else 0
  }

  predicate Confident(v: Vendor, a: Answer) {
    Differs(v, a) && a.confidence >= 0.95
  }

  predicate Doubtful(v: Vendor, a: Answer) {
    Differs(v, a) && a.confidence < 0.95
  }

  /** `corrected` counts the confident verdicts that differ, `flagged` the others that do, and
      `errors` the answers that failed. */
  lemma {:induction false} StatsAre(vs: Vendors, picked: seq<nat>, script: nat -> Step, k: nat)
    requires k <= |picked| && forall i :: 0 <= i < |picked| ==> picked[i] in vs
    ensures var s := StatsOf(vs, picked, script, k);
            && s.corrected == CountFirst(vs, picked, script, Confident, k)
            && s.flagged == CountFirst(vs, picked, script, Doubtful, k)
            && s.errors == CountFirst(vs, picked, script, (v, a: Answer) => a.Error?, k)
  {
    if k > 0 {
      hide Treat, FateOf, Differs;
      StatsAre(vs, picked, script, k - 1);
      TreatIs(vs[picked[k - 1]], script(k - 1).answer);
    }
  }

  /** A scan cut short never leaves an UNKNOWN vendor behind for one with a class. */
  lemma UnknownFirst(cast: Cast, vs: Vendors, limit: nat, picked: seq<nat>, i: nat, id: nat)
    requires IsFullScan(cast, vs, limit, picked)
    requires i < |picked| && picked[i] in vs && vs[picked[i]].category != Unknown
    requires id in vs && vs[id].category == Unknown
    ensures id in picked
  {
    assert id in Candidates(cast, vs);
  }

  lemma CorrectedIsSettled(cast: Cast, v: Vendor, a: Answer)
    requires Candidate(cast, v) && FateOf(v, a) == Corrected
    ensures Settled(cast, Treat(v, a))
  {
    hide Candidate, Treat;
    TreatIs(v, a);
    TreatedCandidate(cast, v, a);
  }

  /** No vendor was corrected twice, and corrected vendors are settled. */
  ghost predicate Ledger(cast: Cast, w: World) {
    && Distinct(w.corrections)
    && forall i :: 0 <= i < |w.corrections| ==>
         w.corrections[i] in w.vendors && Settled(cast, w.vendors[w.corrections[i]])
  }

  lemma VendorStep(cast: Cast, w: World, dryRun: bool, id: nat, st: Step)
    requires Ledger(cast, w) && id in w.vendors && Candidate(cast, w.vendors[id])
    ensures Ledger(cast, AfterVendor(w, dryRun, id, st))
    ensures Candidates(cast, AfterVendor(w, dryRun, id, st).vendors) <= Candidates(cast, w.vendors)
    ensures var made := AfterVendor(w, dryRun, id, st).corrections;
      forall i :: 0 <= i < |made| ==> made[i] in w.corrections || made[i] == id
  {
    hide Candidate, Treat, FateOf, ComputeFlags;
    var w', v := AfterVendor(w, dryRun, id, st), w.vendors[id];
    OthersStay(w, dryRun, id, st);
    if !dryRun && !st.dies {
      forall i | 0 <= i < |w.corrections| ensures w.corrections[i] != id {
        assert Settled(cast, w.vendors[w.corrections[i]]);
      }
      if FateOf(v, st.answer) == Corrected {
        CorrectedIsSettled(cast, v, st.answer);
      }
    }
  }

  lemma {:induction false} RunStep(cast: Cast, w: World, dryRun: bool, picked: seq<nat>, script: nat -> Step, k: nat)
    requires Ledger(cast, w) && Distinct(picked)
    requires forall i :: k <= i < |picked| ==> picked[i] in w.vendors && Candidate(cast, w.vendors[picked[i]])
    ensures var w' := AfterRun(w, dryRun, picked, script, k);
      && Ledger(cast, w') && w'.vendors.Keys == w.vendors.Keys
      && Candidates(cast, w'.vendors) <= Candidates(cast, w.vendors)
      && (forall i :: 0 <= i < |w'.corrections| ==>
           w'.corrections[i] in w.corrections || w'.corrections[i] in Candidates(cast, w.vendors))
      && (forall id :: id in w.vendors && (forall i :: k <= i < |picked| ==> picked[i] != id) ==>
           w'.vendors[id] == w.vendors[id])
    decreases |picked| - k
  {
    hide Candidate, Ledger, AfterVendor;
    if k < |picked| {
      VendorStep(cast, w, dryRun, picked[k], script(k));
      OthersStay(w, dryRun, picked[k], script(k));
      if !script(k).dies {
        RunStep(cast, AfterVendor(w, dryRun, picked[k], script(k)), dryRun, picked, script, k + 1);
      }
    }
  }

  /** Over any nights the candidate set never gains a vendor, each vendor is
      corrected at most once, and a corrected vendor is settled for good. */
  lemma {:induction false} Convergence(cast: Cast, vendors: Vendors, nights: seq<Night>)
    requires After(cast, Start(vendors), nights).Some?
    ensures var w := After(cast, Start(vendors), nights).value;
      && Ledger(cast, w) && w.vendors.Keys == vendors.Keys
      && Candidates(cast, w.vendors) <= Candidates(cast, vendors)
      && forall i :: 0 <= i < |w.corrections| ==> w.corrections[i] in Candidates(cast, vendors)
  {
    if nights != [] {
      var before, n := nights[..|nights| - 1], nights[|nights| - 1];
      Convergence(cast, vendors, before);
      RunStep(cast, After(cast, Start(vendors), before).value, n.dryRun, n.picked, n.script, 0);
    }
  }

  /** Step `k` of the night is reached, live, and its verdict on vendor `id` corrects it to this class. */
  ghost predicate Corrects(n: Night, k: nat, id: nat, category: Class) {
    && !n.dryRun && k < |n.picked| && n.picked[k] == id
    && (forall i :: 0 <= i <= k ==> !n.script(i).dies)
    && n.script(k).answer.Verdict? && n.script(k).answer.category == category && category != Unknown
    && n.script(k).answer.confidence >= 0.95
  }

  ghost predicate CorrectedIn(n: Night, id: nat, category: Class) {
    exists k: nat :: Corrects(n, k, id, category)
  }

  /** Every class a run changes is the verdict of a reached step, at 0.95 or more, and recorded. */
  lemma {:induction false} ClassesChangeBy(w: World, n: Night, k: nat)
    requires forall i :: 0 <= i < k ==> !n.script(i).dies
    ensures var w' := AfterRun(w, n.dryRun, n.picked, n.script, k);
            && w'.vendors.Keys == w.vendors.Keys && w.corrections <= w'.corrections
            && forall id :: id in w.vendors && w'.vendors[id].category != w.vendors[id].category ==>
                 CorrectedIn(n, id, w'.vendors[id].category) && id in w'.corrections
    decreases if k < |n.picked| then |n.picked| - k else 0
  {
    if k < |n.picked| {
      hide Treat, FateOf, CorrectedIn;
      var id, st := n.picked[k], n.script(k);
      var w1 := AfterVendor(w, n.dryRun, id, st);
      OthersStay(w, n.dryRun, id, st);
      if id in w.vendors && w1.vendors[id].category != w.vendors[id].category {
        TreatIs(w.vendors[id], st.answer);
        CorrectedIntro(n, k, id, st.answer.category);
        assert w1.corrections[|w.corrections|] == id;
      }
      if !st.dies {
        ClassesChangeBy(w1, n, k + 1);
        assert |w1.corrections| > |w.corrections| ==>
          AfterRun(w, n.dryRun, n.picked, n.script, k).corrections[|w.corrections|] == w1.corrections[|w.corrections|];
      }
    }
  }

  lemma CorrectedIntro(n: Night, k: nat, id: nat, category: Class)
    requires Corrects(n, k, id, category)
    ensures CorrectedIn(n, id, category)
  {
  }

  /** Over any nights: a vendor whose class changed has the class of a confident verdict of
      one of them, the janitor as its author and the flags of that class, and is out of the queue. */
  lemma {:induction false} ChangedByVerdict(cast: Cast, vendors: Vendors, nights: seq<Night>, id: nat)
    requires After(cast, Start(vendors), nights).Some? && id in vendors
    ensures var w := After(cast, Start(vendors), nights).value;
            && id in w.vendors
            && (w.vendors[id].category != vendors[id].category ==>
                 && id in w.corrections && Settled(cast, w.vendors[id])
                 && exists j :: 0 <= j < |nights| && CorrectedIn(nights[j], id, w.vendors[id].category))
  {
    Convergence(cast, vendors, nights);
    if nights != [] {
      hide CorrectedIn, AfterRun, IsScan, Settled;
      var before, n := nights[..|nights| - 1], nights[|nights| - 1];
      ChangedByVerdict(cast, vendors, before, id);
      var w := After(cast, Start(vendors), before).value;
      ClassesChangeBy(w, n, 0);
      if w.vendors[id].category != vendors[id].category {
        var j :| 0 <= j < |before| && CorrectedIn(before[j], id, w.vendors[id].category);
        assert nights[j] == before[j];
      }
    }
  }

  lemma {:induction false} RunLeaves(w: World, n: Night, k: nat, id: nat)
    requires id in w.vendors && forall i :: k <= i < |n.picked| ==> n.picked[i] != id
    ensures var w' := AfterRun(w, n.dryRun, n.picked, n.script, k); id in w'.vendors && w'.vendors[id] == w.vendors[id]
    decreases if k < |n.picked| then |n.picked| - k else 0
  {
    if k < |n.picked| && !n.script(k).dies {
      RunLeaves(AfterVendor(w, n.dryRun, n.picked[k], n.script(k)), n, k + 1, id);
    }
  }

  /** A step that is reached on a live night treats its vendor as the night found it. */
  lemma {:induction false} ReachedTreats(w: World, n: Night, from: nat, k: nat, id: nat)
    requires from <= k < |n.picked| && n.picked[k] == id && id in w.vendors && Distinct(n.picked) && !n.dryRun
    requires forall i :: from <= i <= k ==> !n.script(i).dies
    ensures var w' := AfterRun(w, n.dryRun, n.picked, n.script, from);
            id in w'.vendors && w'.vendors[id] == Treat(w.vendors[id], n.script(k).answer)
    decreases k - from
  {
    hide Treat, FateOf;
    var w1 := AfterVendor(w, n.dryRun, n.picked[from], n.script(from));
    if from < k {
      ReachedTreats(w1, n, from + 1, k, id);
    } else {
      RunLeaves(w1, n, k + 1, id);
    }
  }

  lemma {:induction false} PrefixSome(cast: Cast, vendors: Vendors, nights: seq<Night>, i: nat)
    requires After(cast, Start(vendors), nights).Some? && i <= |nights|
    ensures After(cast, Start(vendors), nights[..i]).Some?
    decreases |nights|
  {
    if i == |nights| {
      assert nights[..i] == nights;
    } else {
      var before := nights[..|nights| - 1];
      assert before[..i] == nights[..i];
      PrefixSome(cast, vendors, before, i);
    }
  }

  lemma VerdictLands(cast: Cast, w: World, n: Night, k: nat, id: nat, category: Class)
    requires IsScan(cast, w.vendors, n.limit, n.picked) && Corrects(n, k, id, category)
    requires id in w.vendors && w.vendors[id].category != category
    ensures var vs := AfterRun(w, n.dryRun, n.picked, n.script, 0).vendors;
      id in vs && vs[id].category == category && Settled(cast, vs[id])
  {
    hide Candidate, Treat, FateOf, AfterRun, Settled;
    assert n.picked[k] in Candidates(cast, w.vendors) && Distinct(n.picked);
    ReachedTreats(w, n, 0, k, id);
    TreatIs(w.vendors[id], n.script(k).answer);
    CorrectedIsSettled(cast, w.vendors[id], n.script(k).answer);
  }

  /** Conversely, the class a reached verdict of 0.95 or more gives a vendor of another
      class is the vendor's class from that night on, with its flags. */
  lemma VerdictStays(cast: Cast, vendors: Vendors, nights: seq<Night>, i: nat, k: nat, id: nat, category: Class)
    requires After(cast, Start(vendors), nights).Some? && i < |nights| && Corrects(nights[i], k, id, category)
    requires var before := After(cast, Start(vendors), nights[..i]);
      before.Some? && id in before.value.vendors && before.value.vendors[id].category != category
    ensures var vs := After(cast, Start(vendors), nights).value.vendors;
      id in vs && vs[id].category == category && Settled(cast, vs[id])
  {
    hide Candidate, AfterRun, IsScan, Corrects;
    var w, n, through := After(cast, Start(vendors), nights[..i]).value, nights[i], nights[..i + 1];
    PrefixSome(cast, vendors, nights, i + 1);
    assert through[..i] == nights[..i] && through[i] == n;
    VerdictLands(cast, w, n, k, id, category);
    NonCandidateFrozen(cast, vendors, nights, i + 1, id);
  }

  lemma NightLeaves(cast: Cast, w: World, n: Night, id: nat)
    requires Ledger(cast, w) && IsScan(cast, w.vendors, n.limit, n.picked)
    requires id in w.vendors && !Candidate(cast, w.vendors[id])
    ensures id !in n.picked
    ensures var w' := AfterRun(w, n.dryRun, n.picked, n.script, 0); id in w'.vendors && w'.vendors[id] == w.vendors[id]
  {
    hide Candidate, Ledger;
    assert id !in Candidates(cast, w.vendors);
    RunStep(cast, w, n.dryRun, n.picked, n.script, 0);
  }

  /** A vendor that is no candidate is never touched again. */
  lemma {:induction false} NonCandidateFrozen(cast: Cast, vendors: Vendors, nights: seq<Night>, i: nat, id: nat)
    requires After(cast, Start(vendors), nights).Some?
    requires i <= |nights| && After(cast, Start(vendors), nights[..i]).Some?
    requires var vs := After(cast, Start(vendors), nights[..i]).value.vendors; id in vs && !Candidate(cast, vs[id])
    ensures var vs := After(cast, Start(vendors), nights[..i]).value.vendors;
      var vs' := After(cast, Start(vendors), nights).value.vendors;
      id in vs' && vs'[id] == vs[id]
    ensures forall j :: i <= j < |nights| ==> id !in nights[j].picked
    decreases |nights|
  {
    hide Candidate, Ledger, IsScan, AfterRun;
    if i == |nights| {
      assert nights[..i] == nights;
    } else {
      var before, n := nights[..|nights| - 1], nights[|nights| - 1];
      assert before[..i] == nights[..i];
      NonCandidateFrozen(cast, vendors, before, i, id);
      Convergence(cast, vendors, before);
      NightLeaves(cast, After(cast, Start(vendors), before).value, n, id);
      forall j | i <= j < |nights| ensures id !in nights[j].picked {
        assert j < |before| ==> before[j] == nights[j];
      }
    }
  }

  lemma {:induction false} DistinctBound(s: seq<nat>, bound: set<nat>)
    requires Distinct(s) && forall i :: 0 <= i < |s| ==> s[i] in bound
    ensures |s| <= |bound|
  {
    if s != [] {
      var front, last := s[..|s| - 1], s[|s| - 1];
      forall i | 0 <= i < |front| ensures front[i] in bound - {last} {
        assert s[i] != s[|s| - 1];
      }
      DistinctBound(front, bound - {last});
    }
  }

  /** So the total number of corrections, over any number of nights, is at most the
      number of candidates the first night could see. */
  lemma CorrectionsBounded(cast: Cast, vendors: Vendors, nights: seq<Night>)
    requires After(cast, Start(vendors), nights).Some?
    ensures |After(cast, Start(vendors), nights).value.corrections| <= |Candidates(cast, vendors)|
  {
    Convergence(cast, vendors, nights);
    DistinctBound(After(cast, Start(vendors), nights).value.corrections, Candidates(cast, vendors));
  }
}
