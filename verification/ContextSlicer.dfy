/**
 The slicer: from a cabin's data it keeps a header, an overview where the topic is
 vague, and the sections of the primary and a few secondary topics.
 */
module ContextSlicer {
  import opened Common

  /** A cabin: the header line, the general summary ("" if absent) and the text sections. */
  datatype Cabin = Cabin(header: string, summary: string, sections: map<string, string>)

  const TOPIC_SECTIONS: seq<string> := [
    "ev_charging", "pets", "hot_tub", "internet", "checkin", "checkout", "hvac", "kitchen", "parking",
    "activities", "accessibility", "policies", "amenities"]

  const MAX_SECONDARY := 2
  const SUMMARY := "general_summary"

  datatype SliceResult = SliceResult(context: string, topics: seq<string>, tokens: nat, fullTokens: nat)

  function Join(parts: seq<string>): string {
    if parts == [] then ""
    else if |parts| == 1 then parts[0]
    else Join(parts[..|parts| - 1]) + "\n" + parts[|parts| - 1]
  }

  predicate Available(c: Cabin, topic: string) {
    topic in TOPIC_SECTIONS && topic in c.sections
  }

  function SectionPart(c: Cabin, topic: string): string
    requires topic in c.sections
  {
    "\n" + Strip(c.sections[topic])
  }

  /** The overview part, if the slice has one. */
  function Overview(c: Cabin, primary: string, includeSummary: bool): Option<string> {
    var text := Strip(c.summary);
    var vague := primary in {"general", "amenities", "activities"};
    if text == "" then None
    else if includeSummary && vague then Some("\nOverview:\n" + text)
    else if Available(c, primary) then None
    else if primary == "general" then Some("\n" + text)
    else Some("\nOverview:\n" + text)
  }

  /** The secondary topics added to those chosen, from a list and while fewer than `limit` are added. */
  function Extend(c: Cabin, chosen: seq<string>, offered: seq<string>, added: nat, limit: int): seq<string>
    decreases |offered|
  {
    if offered == [] || added >= limit then chosen
    else if Available(c, offered[0]) && offered[0] !in chosen then
      Extend(c, chosen + [offered[0]], offered[1..], added + 1, limit)
    else Extend(c, chosen, offered[1..], added, limit)
  }

  /** The primary topic, if the cabin has its section. */
  function First(c: Cabin, primary: string): seq<string> {
    if Available(c, primary) then [primary] else []
  }

  /** The topics whose sections the slice holds. */
  function Chosen(c: Cabin, primary: string, secondary: seq<string>, maxSections: int): seq<string> {
    Extend(c, First(c, primary), secondary[..Min(MAX_SECONDARY, |secondary|)], 0, maxSections - 1)
  }

  ghost predicate AllAvailable(c: Cabin, topics: seq<string>) {
    forall k :: 0 <= k < |topics| ==> Available(c, topics[k])
  }

  function SectionParts(c: Cabin, topics: seq<string>): seq<string>
    requires AllAvailable(c, topics)
  {
    seq(|topics|, k requires 0 <= k < |topics| => SectionPart(c, topics[k]))
  }

  function Parts(c: Cabin, overview: Option<string>, topics: seq<string>): seq<string>
    requires AllAvailable(c, topics)
  {
    [c.header] + (if overview.Some? then [overview.value] else []) + SectionParts(c, topics)
  }

  function Listed(overview: Option<string>, topics: seq<string>): seq<string> {
    (if overview.Some? then [SUMMARY] else []) + topics
  }

  /** The sections a topic list has, unstripped, in that list's order. */
  function Present(c: Cabin, topics: seq<string>): seq<string> {
    if topics == [] then []
    else
      Present(c, topics[..|topics| - 1])
      + if topics[|topics| - 1] in c.sections then [c.sections[topics[|topics| - 1]]] else []
  }

  function FullText(c: Cabin): string {
    Join(Present(c, TOPIC_SECTIONS))
  }

  // ---- Lengths -------------------------------------------------------------------------

  function Total(parts: seq<string>): nat {
    if parts == [] then 0 else Total(parts[..|parts| - 1]) + |parts[|parts| - 1]|
  }

  lemma {:induction false} JoinLength(parts: seq<string>)
    ensures |Join(parts)| == Total(parts) + Max(|parts| - 1, 0)
  {
    if |parts| > 1 {
      JoinLength(parts[..|parts| - 1]);
    } else if |parts| == 1 {
      assert Total(parts[..0]) == 0;
    }
  }

  lemma {:induction false} TotalConcat(a: seq<string>, b: seq<string>)
    ensures Total(a + b) == Total(a) + Total(b)
  {
    if b == [] {
      assert a + b == a;
    } else {
      assert (a + b)[..|a + b| - 1] == a + b[..|b| - 1];
      TotalConcat(a, b[..|b| - 1]);
    }
  }

  lemma {:induction false} StripShortens(s: string)
    ensures |Strip(s)| <= |s|
  {
    LeftShortens(s);
    RightShortens(StripLeft(s));
  }

  lemma {:induction false} LeftShortens(s: string)
    ensures |StripLeft(s)| <= |s|
  {
    if s != [] && IsSpace(s[0]) { LeftShortens(s[1..]); }
  }

  lemma {:induction false} RightShortens(s: string)
    ensures |StripRight(s)| <= |s|
  {
    if s != [] && IsSpace(s[|s| - 1]) { RightShortens(s[..|s| - 1]); }
  }

  /** Stripped length of the sections together. */
  function Size(c: Cabin, topics: seq<string>): nat
    requires AllAvailable(c, topics)
  {
    if topics == [] then 0
    else Size(c, topics[..|topics| - 1]) + |Strip(c.sections[topics[|topics| - 1]])|
  }

  lemma {:induction false} SectionsTotal(c: Cabin, topics: seq<string>)
    requires AllAvailable(c, topics)
    ensures Total(SectionParts(c, topics)) == Size(c, topics) + |topics|
  {
    if topics != [] {
      var init := topics[..|topics| - 1];
      SectionsTotal(c, init);
      assert SectionParts(c, topics)[..|topics| - 1] == SectionParts(c, init);
    }
  }

  /** The exact length of a context. */
  lemma ContextLength(c: Cabin, overview: Option<string>, topics: seq<string>)
    requires AllAvailable(c, topics)
    ensures |Join(Parts(c, overview, topics))|
         == |c.header| + (if overview.Some? then |overview.value| + 1 else 0) + Size(c, topics) + 2 * |topics|
  {
    hide Join, Total, Size, SectionParts;
    var head := [c.header];
    var middle := if overview.Some? then [overview.value] else [];
    JoinLength(Parts(c, overview, topics));
    TotalConcat(head + middle, SectionParts(c, topics));
    TotalConcat(head, middle);
    TotalOne(c.header);
    if overview.Some? { TotalOne(overview.value); } else { TotalNone(); }
    SectionsTotal(c, topics);
    PartsCount(c, topics);
  }

  lemma TotalOne(s: string)
    ensures Total([s]) == |s|
  {
    assert [s][..0] == [];
  }

  lemma TotalNone()
    ensures Total([]) == 0
  {
  }

  lemma PartsCount(c: Cabin, topics: seq<string>)
    requires AllAvailable(c, topics)
    ensures |SectionParts(c, topics)| == |topics|
  {
  }

  /** Distinct topics of a list are no longer than all its present sections together. */
  lemma {:induction false} SubsetFits(c: Cabin, topics: seq<string>, all: seq<string>)
    requires AllAvailable(c, topics) && Distinct(topics)
    requires forall k :: 0 <= k < |topics| ==> topics[k] in all
    ensures Size(c, topics) + |topics| <= Total(Present(c, all)) + |Present(c, all)|
    decreases |all|
  {
    if all == [] {
      WithinNothing(topics, all);
    } else {
      var init, last := all[..|all| - 1], all[|all| - 1];
      assert all == init + [last];
      PresentStep(c, all);
      if last in topics {
        var i :| 0 <= i < |topics| && topics[i] == last;
        var rest := topics[..i] + topics[i + 1..];
        SubsetFits(c, rest, init);
        RemoveOne(c, topics, i);
        StripShortens(c.sections[last]);
      } else {
        SubsetFits(c, topics, init);
      }
    }
  }

  lemma WithinNothing(topics: seq<string>, all: seq<string>)
    requires forall k :: 0 <= k < |topics| ==> topics[k] in all
    ensures all == [] ==> topics == []
  {
    if topics != [] {
      assert topics[0] in all;
    }
  }

  lemma PresentStep(c: Cabin, all: seq<string>)
    requires all != []
    ensures var init, last := all[..|all| - 1], all[|all| - 1];
            var more := if last in c.sections then 1 + |c.sections[last]| else 0;
            Total(Present(c, all)) + |Present(c, all)| == Total(Present(c, init)) + |Present(c, init)| + more
  {
    var init, last := all[..|all| - 1], all[|all| - 1];
    if last in c.sections {
      TotalConcat(Present(c, init), [c.sections[last]]);
      TotalOne(c.sections[last]);
    } else {
      assert Present(c, all) == Present(c, init);
    }
  }

  lemma {:induction false} RemoveOne(c: Cabin, topics: seq<string>, i: nat)
    requires AllAvailable(c, topics) && i < |topics|
    ensures var rest := topics[..i] + topics[i + 1..];
            AllAvailable(c, rest) && Size(c, topics) == Size(c, rest) + |Strip(c.sections[topics[i]])|
  {
    hide Strip, Available;
    var rest := topics[..i] + topics[i + 1..];
    var init, last := topics[..|topics| - 1], topics[|topics| - 1];
    if i == |topics| - 1 {
      assert rest == init;
    } else {
      RemoveOne(c, init, i);
      var less := init[..i] + init[i + 1..];
      assert rest == less + [last];
      assert rest[..|rest| - 1] == less;
    }
  }

  // ---- What the slice holds --------------------------------------------------------------

  /** The chosen topics are available, each once, start with what was chosen before, come
      from the offer, and are limited; below the limit every available offer is in. */
  lemma {:induction false} ExtendLaw(c: Cabin, chosen: seq<string>, offered: seq<string>, added: nat, limit: int)
    requires AllAvailable(c, chosen) && Distinct(chosen)
    ensures var e := Extend(c, chosen, offered, added, limit);
            && AllAvailable(c, e) && Distinct(e) && chosen <= e
            && (forall k :: |chosen| <= k < |e| ==> e[k] in offered)
            && |e| - |chosen| <= Min(|offered|, Max(limit - added, 0))
            && (added + |e| - |chosen| < limit ==>
                 forall k :: 0 <= k < |offered| && Available(c, offered[k]) ==> offered[k] in e)
    decreases |offered|
  {
    if offered != [] && added < limit {
      var e := Extend(c, chosen, offered, added, limit);
      assert forall k :: 1 <= k < |offered| ==> offered[k] == offered[1..][k - 1];
      assert chosen <= e ==> forall t :: t in chosen ==> t in e;
      if Available(c, offered[0]) && offered[0] !in chosen {
        assert chosen + [offered[0]] <= e ==> e[|chosen|] == offered[0];
        ExtendLaw(c, chosen + [offered[0]], offered[1..], added + 1, limit);
      } else {
        ExtendLaw(c, chosen, offered[1..], added, limit);
      }
    }
  }

  /** The sections of a slice: none twice, all available, the primary first if the cabin has it. */
  lemma ChosenLaw(c: Cabin, primary: string, secondary: seq<string>, maxSections: int)
    ensures var e := Chosen(c, primary, secondary, maxSections);
            && AllAvailable(c, e) && Distinct(e)
            && |e| <= 1 + Min(MAX_SECONDARY, Max(maxSections - 1, 0))
            && (Available(c, primary) ==> e != [] && e[0] == primary)
            && (forall k :: 0 <= k < |e| ==> e[k] == primary || e[k] in secondary[..Min(MAX_SECONDARY, |secondary|)])
  {
    hide Extend;
    ExtendLaw(c, First(c, primary), secondary[..Min(MAX_SECONDARY, |secondary|)], 0, maxSections - 1);
  }

  lemma OverviewLength(c: Cabin, primary: string, includeSummary: bool)
    ensures var o := Overview(c, primary, includeSummary);
            o.Some? ==> |o.value| <= |Strip(c.summary)| + 11
  {
  }

  /** The context is longer than the header, the overview text and the cabin's full text
      by at most 16 characters of glue. */
  lemma SliceFits(c: Cabin, primary: string, secondary: seq<string>, includeSummary: bool, maxSections: int)
    ensures var e := Chosen(c, primary, secondary, maxSections);
            && AllAvailable(c, e)
            && |Join(Parts(c, Overview(c, primary, includeSummary), e))|
               <= |c.header| + |Strip(c.summary)| + |FullText(c)| + 16
  {
    hide Join, Total, Size, Present, Strip, Chosen, Overview, Parts;
    var e, o := Chosen(c, primary, secondary, maxSections), Overview(c, primary, includeSummary);
    ChosenLaw(c, primary, secondary, maxSections);
    ContextLength(c, o, e);
    OverviewLength(c, primary, includeSummary);
    SubsetFits(c, e, TOPIC_SECTIONS);
    JoinLength(Present(c, TOPIC_SECTIONS));
  }

  lemma ListedDistinct(overview: Option<string>, c: Cabin, topics: seq<string>)
    requires AllAvailable(c, topics) && Distinct(topics)
    ensures Distinct(Listed(overview, topics))
  {
    forall k | 0 <= k < |topics| ensures topics[k] != SUMMARY {
      assert Available(c, topics[k]);
    }
  }

  lemma PartsAppend(c: Cabin, overview: Option<string>, topics: seq<string>, topic: string)
    requires AllAvailable(c, topics) && Available(c, topic)
    ensures AllAvailable(c, topics + [topic])
    ensures Parts(c, overview, topics + [topic]) == Parts(c, overview, topics) + [SectionPart(c, topic)]
    ensures Listed(overview, topics + [topic]) == Listed(overview, topics) + [topic]
  {
    var t := topics + [topic];
    assert SectionParts(c, t) == SectionParts(c, topics) + [SectionPart(c, topic)];
  }

  // ---- What the text of a slice holds ----------------------------------------------------

  /** The topics a cabin's sections can serve. */
  const SERVED: set<string> := {
    "ev_charging", "pets", "hot_tub", "internet", "checkin", "checkout", "hvac", "kitchen", "parking",
    "activities", "accessibility", "policies", "amenities"}

  predicate Serves(c: Cabin, topic: string) {
    topic in SERVED && topic in c.sections
  }

  lemma ServesIsAvailable(c: Cabin, topic: string)
    ensures Serves(c, topic) <==> Available(c, topic)
    ensures SUMMARY !in SERVED && "general" !in SERVED
  {
    var t := TOPIC_SECTIONS;
    assert t[0] in SERVED && t[1] in SERVED && t[2] in SERVED && t[3] in SERVED && t[4] in SERVED && t[5] in SERVED
           && t[6] in SERVED && t[7] in SERVED && t[8] in SERVED && t[9] in SERVED && t[10] in SERVED
           && t[11] in SERVED && t[12] in SERVED;
    assert t[0] == "ev_charging" && t[1] == "pets" && t[2] == "hot_tub" && t[3] == "internet" && t[4] == "checkin"
           && t[5] == "checkout" && t[6] == "hvac" && t[7] == "kitchen" && t[8] == "parking" && t[9] == "activities"
           && t[10] == "accessibility" && t[11] == "policies" && t[12] == "amenities";
  }

  ghost predicate Contains(s: string, part: string) {
    exists i, j :: 0 <= i <= j <= |s| && s[i..j] == part
  }

  lemma ContainsIn(a: string, part: string, b: string)
    ensures Contains(a + part + b, part)
  {
    var s := a + part + b;
    assert s[|a|..|a| + |part|] == part;
  }

  lemma ContainsThrough(s: string, part: string, inner: string)
    requires Contains(s, part) && Contains(part, inner)
    ensures Contains(s, inner)
  {
    var i, j :| 0 <= i <= j <= |s| && s[i..j] == part;
    var k, l :| 0 <= k <= l <= |part| && part[k..l] == inner;
    var t, u := s[i..j], s[i + k..i + l];
    assert |u| == |inner|;
    forall m | 0 <= m < |u| ensures u[m] == inner[m] {
      assert t[k + m] == s[i + k + m];
    }
    assert u == inner;
  }

  lemma ContainsWithin(s: string, part: string, before: string, after: string)
    requires Contains(s, part)
    ensures Contains(before + s + after, part)
  {
    ContainsIn(before, s, after);
    ContainsThrough(before + s + after, s, part);
  }

  /** Every part is in the joined text, and the first one starts it. */
  lemma {:induction false} JoinHolds(parts: seq<string>, k: nat)
    requires k < |parts|
    ensures Contains(Join(parts), parts[k]) && parts[0] <= Join(parts)
  {
    if |parts| == 1 {
      ContainsIn("", parts[0], "");
      assert "" + parts[0] + "" == parts[0];
    } else {
      var init, last := parts[..|parts| - 1], parts[|parts| - 1];
      if k < |init| {
        JoinHolds(init, k);
        ContainsWithin(Join(init), parts[k], "", "\n" + last);
        assert "" + Join(init) + ("\n" + last) == Join(parts);
      } else {
        JoinHolds(init, 0);
        ContainsIn(Join(init) + "\n", last, "");
        assert Join(init) + "\n" + last + "" == Join(parts);
      }
    }
  }

  /** The header starts a slice's text, which holds the overview and every chosen section. */
  lemma TextHolds(c: Cabin, primary: string, includeSummary: bool, topics: seq<string>)
    requires AllAvailable(c, topics)
    ensures var o := Overview(c, primary, includeSummary);
            var text := Join(Parts(c, o, topics));
            && c.header <= text
            && (o.Some? ==> Contains(text, Strip(c.summary)))
            && (forall k :: 0 <= k < |topics| ==> Contains(text, Strip(c.sections[topics[k]])))
  {
    hide Join, Strip, Contains;
    var o := Overview(c, primary, includeSummary);
    var parts := Parts(c, o, topics);
    var text, n := Join(parts), if o.Some? then 2 else 1;
    JoinHolds(parts, 0);
    if o.Some? {
      JoinHolds(parts, 1);
      OverviewHolds(c, primary, includeSummary);
      ContainsThrough(text, o.value, Strip(c.summary));
    }
    forall k | 0 <= k < |topics| ensures Contains(text, Strip(c.sections[topics[k]])) {
      JoinHolds(parts, n + k);
      assert parts[n + k] == SectionPart(c, topics[k]);
      ContainsIn("\n", Strip(c.sections[topics[k]]), "");
      assert "\n" + Strip(c.sections[topics[k]]) + "" == SectionPart(c, topics[k]);
      ContainsThrough(text, SectionPart(c, topics[k]), Strip(c.sections[topics[k]]));
    }
  }

  lemma OverviewHolds(c: Cabin, primary: string, includeSummary: bool)
    ensures var o := Overview(c, primary, includeSummary); o.Some? ==> Contains(o.value, Strip(c.summary))
  {
    hide Strip, Contains;
    var text := Strip(c.summary);
    ContainsIn("\nOverview:\n", text, "");
    ContainsIn("\n", text, "");
    assert "\nOverview:\n" + text + "" == "\nOverview:\n" + text && "\n" + text + "" == "\n" + text;
  }

  /** The general summary is listed, and its text there, exactly if the cabin has one and the
      primary topic has no section, or is one of the vague ones and the summary is asked for. */
  lemma OverviewIff(c: Cabin, primary: string, includeSummary: bool)
    ensures Overview(c, primary, includeSummary).Some? <==>
      Strip(c.summary) != ""
      && (!Serves(c, primary) || (includeSummary && primary in {"general", "amenities", "activities"}))
  {
    hide Strip;
    ServesIsAvailable(c, primary);
  }

  lemma ListsSummary(c: Cabin, overview: Option<string>, topics: seq<string>)
    requires AllAvailable(c, topics)
    ensures SUMMARY in Listed(overview, topics) <==> overview.Some?
    ensures forall t :: t in Listed(overview, topics) && t != SUMMARY ==> t in topics && Serves(c, t)
  {
    forall k | 0 <= k < |topics| ensures topics[k] != SUMMARY && Serves(c, topics[k]) {
      ServesIsAvailable(c, topics[k]);
    }
  }

  /** A secondary topic the cabin serves is in the slice if the limit leaves room for as
      many as were offered up to it; only the first two are looked at. */
  lemma OffersTaken(c: Cabin, primary: string, secondary: seq<string>, maxSections: int, i: nat)
    requires i < 2 && i < |secondary| && i + 1 < maxSections && Serves(c, secondary[i])
    ensures secondary[i] in Chosen(c, primary, secondary, maxSections)
  {
    hide Extend;
    ServesIsAvailable(c, secondary[i]);
    var offered := secondary[..Min(MAX_SECONDARY, |secondary|)];
    var first, upTo := First(c, primary), offered[..i + 1];
    ExtendLaw(c, first, upTo, 0, maxSections - 1);
    ExtendSplit(c, first, upTo, offered[i + 1..], 0, maxSections - 1);
    assert upTo + offered[i + 1..] == offered;
    assert offered[i] == secondary[i] == upTo[i];
    TakenEarly(c, first, upTo, 0, maxSections - 1, i);
  }

  /** Extending by a longer offer starts like extending by the shorter one. */
  lemma {:induction false} ExtendSplit(c: Cabin, chosen: seq<string>, a: seq<string>, b: seq<string>,
                                       added: nat, limit: int)
    ensures Extend(c, chosen, a, added, limit) <= Extend(c, chosen, a + b, added, limit)
    decreases |a|
  {
    if a == [] {
      ExtendGrows(c, chosen, a + b, added, limit);
    } else if added < limit {
      assert (a + b)[1..] == a[1..] + b;
      if Available(c, a[0]) && a[0] !in chosen {
        ExtendSplit(c, chosen + [a[0]], a[1..], b, added + 1, limit);
      } else {
        ExtendSplit(c, chosen, a[1..], b, added, limit);
      }
    }
  }

  lemma {:induction false} ExtendGrows(c: Cabin, chosen: seq<string>, offered: seq<string>, added: nat, limit: int)
    ensures chosen <= Extend(c, chosen, offered, added, limit)
    decreases |offered|
  {
    if offered != [] && added < limit {
      if Available(c, offered[0]) && offered[0] !in chosen {
        ExtendGrows(c, chosen + [offered[0]], offered[1..], added + 1, limit);
      } else {
        ExtendGrows(c, chosen, offered[1..], added, limit);
      }
    }
  }

  lemma {:induction false} TakenEarly(c: Cabin, chosen: seq<string>, offered: seq<string>, added: nat, limit: int,
                                      i: nat)
    requires i < |offered| && added + i < limit && Available(c, offered[i])
    ensures offered[i] in Extend(c, chosen, offered, added, limit)
    decreases |offered|
  {
    var more := Available(c, offered[0]) && offered[0] !in chosen;
    var chosen' := if more then chosen + [offered[0]] else chosen;
    if i == 0 {
      assert offered[0] in chosen';
      ExtendGrows(c, chosen', offered[1..], if more then added + 1 else added, limit);
      var e := Extend(c, chosen', offered[1..], if more then added + 1 else added, limit);
      assert e == Extend(c, chosen, offered, added, limit);
      assert chosen' == e[..|chosen'|];
    } else {
      TakenEarly(c, chosen', offered[1..], if more then added + 1 else added, limit, i - 1);
    }
  }

  lemma NoSections(c: Cabin, overview: Option<string>)
    ensures Parts(c, overview, []) == [c.header] + (if overview.Some? then [overview.value] else [])
    ensures Listed(overview, []) == if overview.Some? then [SUMMARY] else []
  {
    assert SectionParts(c, []) == [];
  }

  /** The header, the overview and the primary topic's section. */
  method Open(c: Cabin, primary: string, includeSummary: bool)
    returns (parts: seq<string>, topics: seq<string>)
    ensures parts == Parts(c, Overview(c, primary, includeSummary), First(c, primary))
    ensures topics == Listed(Overview(c, primary, includeSummary), First(c, primary))
  {
    hide Strip, SectionParts, SectionPart, Parts, Listed;
    ghost var o := Overview(c, primary, includeSummary);
    NoSections(c, o);
    parts, topics := [c.header], [];
    var text := Strip(c.summary);
    if includeSummary && primary in {"general", "amenities", "activities"} {
      if text != "" {
        parts, topics := parts + ["\nOverview:\n" + text], topics + [SUMMARY];
      }
    }
    if primary in TOPIC_SECTIONS && primary in c.sections {
      PartsAppend(c, o, [], primary);
      assert [] + [primary] == First(c, primary);
      parts, topics := parts + [SectionPart(c, primary)], topics + [primary];
    } else if primary == "general" {
      if !includeSummary {
        if text != "" {
          parts, topics := parts + ["\n" + text], topics + [SUMMARY];
        }
      }
    } else {
      if text != "" && SUMMARY !in topics {
        parts, topics := parts + ["\nOverview:\n" + text], topics + [SUMMARY];
      }
    }
  }

  /** Builds the slice part by part. */
  method SliceContext(c: Cabin, primary: string, secondary: seq<string>, includeSummary: bool, maxSections: int)
    returns (r: SliceResult)
    ensures var o, e := Overview(c, primary, includeSummary), Chosen(c, primary, secondary, maxSections);
            && AllAvailable(c, e)
            && r.context == Join(Parts(c, o, e)) && r.topics == Listed(o, e)
            && r.tokens == |r.context| / 4 && r.fullTokens == |FullText(c)| / 4
    ensures Distinct(r.topics) && |r.topics| <= 2 + Min(2, Max(0, maxSections - 1))
    ensures |r.context| <= |c.header| + |Strip(c.summary)| + |FullText(c)| + 16
    ensures c.header <= r.context
    ensures SUMMARY in r.topics <==>
      Strip(c.summary) != ""
      && (!Serves(c, primary) || (includeSummary && primary in {"general", "amenities", "activities"}))
    ensures SUMMARY in r.topics ==> Contains(r.context, Strip(c.summary))
    ensures forall t :: t in r.topics && t != SUMMARY ==>
      && Serves(c, t) && Contains(r.context, Strip(c.sections[t]))
      && (t == primary || t in secondary[..Min(2, |secondary|)])
    ensures Serves(c, primary) ==> primary in r.topics
    ensures forall i :: 0 <= i < 2 && i < |secondary| && i + 1 < maxSections && Serves(c, secondary[i]) ==>
      secondary[i] in r.topics
  {
    hide Strip, Join, FullText, SectionPart, Parts, Overview, Listed, Extend, Contains, Serves;
    ghost var o, end := Overview(c, primary, includeSummary), Chosen(c, primary, secondary, maxSections);
    var parts, topics := Open(c, primary, includeSummary);
    ghost var chosen := First(c, primary);
    var offered := secondary[..Min(MAX_SECONDARY, |secondary|)];
    var k, added := 0, 0;
    while k < |offered|
      invariant k <= |offered| && AllAvailable(c, chosen)
      invariant parts == Parts(c, o, chosen) && topics == Listed(o, chosen)
      invariant end == Extend(c, chosen, offered[k..], added, maxSections - 1)
    {
      if added >= maxSections - 1 { break; }
      ExtendStep(c, chosen, offered, k, added, maxSections - 1);
      ListedMember(o, c, chosen, offered[k]);
      if offered[k] in TOPIC_SECTIONS && offered[k] in c.sections {
        if offered[k] !in topics {
          PartsAppend(c, o, chosen, offered[k]);
          parts, topics := parts + [SectionPart(c, offered[k])], topics + [offered[k]];
          chosen, added := chosen + [offered[k]], added + 1;
        }
      }
      k := k + 1;
    }
    ExtendEnds(c, chosen, offered, k, added, maxSections - 1);
    var context := Join(parts);
    r := SliceResult(context, topics, |context| / 4, |FullText(c)| / 4);
    ChosenLaw(c, primary, secondary, maxSections);
    ListedDistinct(o, c, end);
    ListedCount(o, end);
    SliceFits(c, primary, secondary, includeSummary, maxSections);
    SliceHolds(c, primary, secondary, includeSummary, maxSections);
  }

  /** What a slice lists, and that its text holds what it lists. */
  lemma SliceHolds(c: Cabin, primary: string, secondary: seq<string>, includeSummary: bool, maxSections: int)
    ensures var o, e := Overview(c, primary, includeSummary), Chosen(c, primary, secondary, maxSections);
            && AllAvailable(c, e)
            && var topics, text := Listed(o, e), Join(Parts(c, o, e));
            && c.header <= text
            && (SUMMARY in topics <==>
                 Strip(c.summary) != ""
                 && (!Serves(c, primary) || (includeSummary && primary in {"general", "amenities", "activities"})))
            && (SUMMARY in topics ==> Contains(text, Strip(c.summary)))
            && (forall t :: t in topics && t != SUMMARY ==>
                 && Serves(c, t) && Contains(text, Strip(c.sections[t]))
                 && (t == primary || t in secondary[..Min(2, |secondary|)]))
            && (Serves(c, primary) ==> primary in topics)
            && (forall i :: 0 <= i < 2 && i < |secondary| && i + 1 < maxSections && Serves(c, secondary[i]) ==>
                 secondary[i] in topics)
  {
    hide Strip, Join, Parts, Overview, Chosen, Contains, Serves, Available;
    var o, e := Overview(c, primary, includeSummary), Chosen(c, primary, secondary, maxSections);
    ChosenLaw(c, primary, secondary, maxSections);
    TextHolds(c, primary, includeSummary, e);
    OverviewIff(c, primary, includeSummary);
    ListsSummary(c, o, e);
    ServesIsAvailable(c, primary);
    forall i | 0 <= i < 2 && i < |secondary| && i + 1 < maxSections && Serves(c, secondary[i])
      ensures secondary[i] in e
    {
      OffersTaken(c, primary, secondary, maxSections, i);
    }
  }

  /** The text a slice is weighed against holds every section the cabin serves. */
  lemma FullTextHolds(c: Cabin, topic: string)
    requires Serves(c, topic)
    ensures Contains(FullText(c), c.sections[topic])
  {
    ServesIsAvailable(c, topic);
    var k := PresentHas(c, TOPIC_SECTIONS, topic);
    JoinHolds(Present(c, TOPIC_SECTIONS), k);
  }

  lemma {:induction false} PresentHas(c: Cabin, all: seq<string>, topic: string) returns (k: nat)
    requires topic in all && topic in c.sections
    ensures k < |Present(c, all)| && Present(c, all)[k] == c.sections[topic]
  {
    var init, last := all[..|all| - 1], all[|all| - 1];
    if last == topic {
      k := |Present(c, init)|;
    } else {
      assert topic in init;
      k := PresentHas(c, init, topic);
    }
  }

  lemma ExtendStep(c: Cabin, chosen: seq<string>, offered: seq<string>, k: nat, added: nat, limit: int)
    requires k < |offered| && added < limit
    ensures Extend(c, chosen, offered[k..], added, limit)
         == if Available(c, offered[k]) && offered[k] !in chosen
            then Extend(c, chosen + [offered[k]], offered[k + 1..], added + 1, limit)
            else Extend(c, chosen, offered[k + 1..], added, limit)
  {
    assert offered[k..][1..] == offered[k + 1..];
  }

  lemma ExtendEnds(c: Cabin, chosen: seq<string>, offered: seq<string>, k: nat, added: nat, limit: int)
    requires k <= |offered|
    ensures k == |offered| || added >= limit ==> Extend(c, chosen, offered[k..], added, limit) == chosen
  {
  }

  lemma ListedMember(overview: Option<string>, c: Cabin, topics: seq<string>, topic: string)
    ensures Available(c, topic) ==> (topic in Listed(overview, topics) <==> topic in topics)
  {
  }

  lemma ListedCount(overview: Option<string>, topics: seq<string>)
    ensures |Listed(overview, topics)| <= 1 + |topics|
  {
  }
}
