/** The fairness policy: a weighted selector with state, and the proportional share it guarantees over any run. */
module Fairness {
  import opened Schemas
  import opened Sorting
  import opened Policies

  datatype Weights = Weights(elevated: real, standard: real, background: real) {
    predicate Positive() {
      elevated > 0.0 && standard > 0.0 && background > 0.0
    }

    /** A class without a weight of its own weighs as much as the default class. */
    function Of(priorityClass: PriorityClass): real {
      match priorityClass
      case Elevated => elevated
      case Background => background
      case _ => standard
    }

    function Total(): real {
      elevated + standard + background
    }
  }

  type Counts = map<PriorityClass, nat>

  function FreshCounts(): Counts {
    map[Elevated := 0, Standard := 0, Background := 0]
  }

  function CountOf(counts: Counts, priorityClass: PriorityClass): nat {
    if priorityClass in counts then counts[priorityClass] else 0
  }

  function Ratio(w: Weights, counts: Counts, priorityClass: PriorityClass): real
    requires w.Positive()
  {
    CountOf(counts, priorityClass) as real / w.Of(priorityClass)
  }

  /** Least served per weight first; then the longest wait, the position and the time of entry. */
  function FairKey(w: Weights, counts: Counts): SchedulingCandidate -> seq<real>
    requires w.Positive()
  {
    (c: SchedulingCandidate) =>
      [Ratio(w, counts, c.priorityClass), -(c.queueWaitMs as real), c.queuePosition as real, c.enqueuedAt as real]
  }

  function Record(counts: Counts, selected: seq<SchedulingCandidate>): Counts {
    if selected == [] then counts
    else
      var before := Record(counts, selected[..|selected| - 1]);
      var priorityClass := selected[|selected| - 1].priorityClass;
      before[priorityClass := CountOf(before, priorityClass) + 1]
  }

  function Selected(w: Weights, counts: Counts, candidates: seq<SchedulingCandidate>, limit: nat)
    : seq<SchedulingCandidate>
    requires w.Positive()
  {
    var ordered := Ordered(FairKey(w, counts), candidates);
    ordered[..Min(limit, |ordered|)]
  }

  class FairnessPolicy {
    const weights: Weights
    var selectionCounts: Counts

    constructor (weights: Weights)
      requires weights.Positive()
      ensures this.weights == weights
      ensures selectionCounts == FreshCounts()
    {
      this.weights := weights;
      selectionCounts := map[Elevated := 0, Standard := 0, Background := 0];
    }

    method RecordSelections(selected: seq<SchedulingCandidate>)
      modifies this
      ensures selectionCounts == Record(old(selectionCounts), selected)
    {
      for i := 0 to |selected|
        invariant selectionCounts == Record(old(selectionCounts), selected[..i])
      {
        assert selected[..i + 1][..i] == selected[..i];
        var key := selected[i].priorityClass;
        selectionCounts := selectionCounts[key := CountOf(selectionCounts, key) + 1];
      }
      assert selected[..|selected|] == selected;
    }

    method Evaluate(candidates: seq<SchedulingCandidate>, limit: nat)
      returns (decisions: seq<SchedulingDecision>, selected: seq<RequestId>, skipped: seq<RequestId>)
      requires weights.Positive()
      modifies this
      ensures selected == SelectedIds(FairKey(weights, old(selectionCounts)), candidates, limit)
      ensures skipped == SkippedIds(FairKey(weights, old(selectionCounts)), candidates, limit)
      ensures DecidedAs(decisions, Ordered(FairKey(weights, old(selectionCounts)), candidates), limit,
                        "fairness_selected")
      ensures selectionCounts
           == Record(old(selectionCounts), Selected(weights, old(selectionCounts), candidates, limit))
    {
      var ordered := Ordered(FairKey(weights, selectionCounts), candidates);
      var chosen := ordered[..Min(limit, |ordered|)];
      RecordSelections(chosen);
      decisions, selected, skipped := BuildDecisions(ordered, limit, "fairness_selected", "max_candidates_reached");
    }
  }

  // ---- Counting by class ----

  function OfClass(cs: seq<SchedulingCandidate>, priorityClass: PriorityClass): nat {
    if cs == [] then 0
    else OfClass(cs[..|cs| - 1], priorityClass) + (if cs[|cs| - 1].priorityClass == priorityClass then 1 else 0)
  }

  lemma {:induction false} RecordCounts(counts: Counts, selected: seq<SchedulingCandidate>,
                                        priorityClass: PriorityClass)
    ensures CountOf(Record(counts, selected), priorityClass)
         == CountOf(counts, priorityClass) + OfClass(selected, priorityClass)
  {
    if selected != [] {
      RecordCounts(counts, selected[..|selected| - 1], priorityClass);
      RecordCounts(counts, selected[..|selected| - 1], selected[|selected| - 1].priorityClass);
    }
  }

  lemma {:induction false} OfClassBounds(cs: seq<SchedulingCandidate>, priorityClass: PriorityClass)
    ensures OfClass(cs, priorityClass) <= |cs|
    ensures OfClass(cs, priorityClass) == 0 <==> forall c :: c in cs ==> c.priorityClass != priorityClass
  {
    if cs != [] {
      var init, last := cs[..|cs| - 1], cs[|cs| - 1];
      assert cs == init + [last];
      OfClassBounds(init, priorityClass);
    }
  }

  lemma {:induction false} OfClassConcat(a: seq<SchedulingCandidate>, b: seq<SchedulingCandidate>,
                                         priorityClass: PriorityClass)
    ensures OfClass(a + b, priorityClass) == OfClass(a, priorityClass) + OfClass(b, priorityClass)
  {
    if b == [] {
      assert a + b == a;
    } else {
      var init, last := b[..|b| - 1], b[|b| - 1];
      assert (a + b)[..|a + b| - 1] == a + init;
      OfClassConcat(a, init, priorityClass);
    }
  }

  lemma {:induction false} OfClassInsert(leq: (SchedulingCandidate, SchedulingCandidate) -> bool,
                                         xs: seq<SchedulingCandidate>, x: SchedulingCandidate,
                                         priorityClass: PriorityClass)
    ensures OfClass(Insert(leq, xs, x), priorityClass) == OfClass(xs + [x], priorityClass)
  {
    assert (xs + [x])[..|xs|] == xs;
    if xs != [] && !leq(xs[|xs| - 1], x) {
      var init, last := xs[..|xs| - 1], xs[|xs| - 1];
      OfClassInsert(leq, init, x, priorityClass);
      assert (init + [x])[..|init|] == init;
      assert (Insert(leq, init, x) + [last])[..|Insert(leq, init, x)|] == Insert(leq, init, x);
    }
  }

  lemma {:induction false} OfClassSort(leq: (SchedulingCandidate, SchedulingCandidate) -> bool,
                                       xs: seq<SchedulingCandidate>, priorityClass: PriorityClass)
    ensures OfClass(Sort(leq, xs), priorityClass) == OfClass(xs, priorityClass)
  {
    if xs != [] {
      var init, last := xs[..|xs| - 1], xs[|xs| - 1];
      OfClassSort(leq, init, priorityClass);
      OfClassInsert(leq, Sort(leq, init), last, priorityClass);
      assert (Sort(leq, init) + [last])[..|Sort(leq, init)|] == Sort(leq, init);
    }
  }

  // ---- One call ----

  lemma KeyHead(w: Weights, counts: Counts, a: SchedulingCandidate, b: SchedulingCandidate)
    requires w.Positive() && KeyLeq(FairKey(w, counts)(a), FairKey(w, counts)(b))
    ensures Ratio(w, counts, a.priorityClass) <= Ratio(w, counts, b.priorityClass)
  {
  }

  /** In the order of the policy, no candidate of a less served class stands behind one that was served more. */
  lemma LessServedComeFirst(w: Weights, counts: Counts, ordered: seq<SchedulingCandidate>, p: nat, j: PriorityClass)
    requires w.Positive() && SortedBy(ByKey(FairKey(w, counts)), ordered) && p < |ordered|
    requires Ratio(w, counts, ordered[p].priorityClass) > Ratio(w, counts, j)
    ensures OfClass(ordered, j) <= p
  {
    forall q | p <= q < |ordered| ensures ordered[q].priorityClass != j {
      if p < q {
        assert ByKey(FairKey(w, counts))(ordered[p], ordered[q]);
        KeyHead(w, counts, ordered[p], ordered[q]);
      }
    }
    OfClassBounds(ordered[p..], j);
    OfClassBounds(ordered[..p], j);
    assert ordered == ordered[..p] + ordered[p..];
    OfClassConcat(ordered[..p], ordered[p..], j);
  }

  /** While class j offers at least `limit` candidates, a class served more per weight is not selected from. */
  lemma SelectedClassIsNotAhead(w: Weights, counts: Counts, candidates: seq<SchedulingCandidate>, limit: nat,
                                i: PriorityClass, j: PriorityClass)
    requires w.Positive() && OfClass(candidates, j) >= limit
    requires OfClass(Selected(w, counts, candidates, limit), i) > 0
    ensures Ratio(w, counts, i) <= Ratio(w, counts, j)
  {
    var leq := ByKey(FairKey(w, counts));
    var ordered, selected := Sort(leq, candidates), Selected(w, counts, candidates, limit);
    ByKeyIsPreorder(FairKey(w, counts));
    SortSpec(leq, candidates);
    OfClassSort(leq, candidates, j);
    OfClassBounds(selected, i);
    var p :| 0 <= p < |selected| && selected[p].priorityClass == i;
    if Ratio(w, counts, i) > Ratio(w, counts, j) {
      LessServedComeFirst(w, counts, ordered, p, j);
    }
  }

  lemma QuotientMonotone(a: real, b: real, weight: real)
    requires weight > 0.0 && a <= b
    ensures a / weight <= b / weight
  {
  }

  lemma QuotientSum(a: real, b: real, weight: real)
    requires weight > 0.0
    ensures (a + b) / weight == a / weight + b / weight
  {
  }

  /** The lead of class i over class j: the difference of what they were served per weight. */
  function Lead(w: Weights, counts: Counts, i: PriorityClass, j: PriorityClass): real
    requires w.Positive()
  {
    Ratio(w, counts, i) - Ratio(w, counts, j)
  }

  lemma LeadArithmetic(ci: real, cj: real, ni: real, nj: real, wi: real, wj: real, limit: real)
    requires wi > 0.0 && wj > 0.0 && 0.0 <= ni <= limit && 0.0 <= nj
    requires ni > 0.0 ==> ci / wi <= cj / wj
    ensures (ci + ni) / wi - (cj + nj) / wj <= ci / wi - cj / wj || (ci + ni) / wi - (cj + nj) / wj <= limit / wi
  {
    QuotientSum(ci, ni, wi);
    QuotientSum(cj, nj, wj);
    QuotientMonotone(0.0, nj, wj);
    QuotientMonotone(ni, limit, wi);
    if ni == 0.0 {
      assert ni / wi == 0.0;
    }
  }

  lemma CountsBoundLead(w: Weights, counts: Counts, after: Counts, i: PriorityClass, j: PriorityClass, ni: nat, nj: nat,
                        limit: nat)
    requires w.Positive() && ni <= limit
    requires CountOf(after, i) == CountOf(counts, i) + ni && CountOf(after, j) == CountOf(counts, j) + nj
    requires ni > 0 ==> Ratio(w, counts, i) <= Ratio(w, counts, j)
    ensures Lead(w, after, i, j) <= Lead(w, counts, i, j) || Lead(w, after, i, j) <= limit as real / w.Of(i)
  {
    LeadArithmetic(CountOf(counts, i) as real, CountOf(counts, j) as real, ni as real, nj as real,
                   w.Of(i), w.Of(j), limit as real);
  }

  /** One call never raises a lead above limit / weight, nor above what it was. */
  lemma CallBoundsLead(w: Weights, counts: Counts, candidates: seq<SchedulingCandidate>, limit: nat, after: Counts,
                       i: PriorityClass, j: PriorityClass)
    requires w.Positive() && OfClass(candidates, j) >= limit
    requires after == Record(counts, Selected(w, counts, candidates, limit))
    ensures Lead(w, after, i, j) <= Lead(w, counts, i, j) || Lead(w, after, i, j) <= limit as real / w.Of(i)
  {
    var selected := Selected(w, counts, candidates, limit);
    RecordCounts(counts, selected, i);
    RecordCounts(counts, selected, j);
    OfClassBounds(selected, i);
    if OfClass(selected, i) > 0 {
      SelectedClassIsNotAhead(w, counts, candidates, limit, i, j);
    }
    CountsBoundLead(w, counts, after, i, j, OfClass(selected, i), OfClass(selected, j), limit);
  }

  // ---- Runs ----

  datatype Call = Call(candidates: seq<SchedulingCandidate>, limit: nat)

  function CountsAfter(w: Weights, counts: Counts, calls: seq<Call>): Counts
    requires w.Positive()
  {
    if calls == [] then counts
    else
      var before, last := CountsAfter(w, counts, calls[..|calls| - 1]), calls[|calls| - 1];
      Record(before, Selected(w, before, last.candidates, last.limit))
  }

  /** In every call class j offers at least as many candidates as may be selected, which are at most `most`. */
  ghost predicate Backlogged(calls: seq<Call>, j: PriorityClass, most: nat) {
    forall t :: 0 <= t < |calls| ==> calls[t].limit <= most && OfClass(calls[t].candidates, j) >= calls[t].limit
  }

  function Larger(a: real, b: real): real {
    if a >= b then a else b
  }

  /** While class j is backlogged, no class leads it by more than it did at the start, or than one call's worth. */
  lemma {:induction false} BackloggedClassKeepsUp(w: Weights, counts: Counts, calls: seq<Call>, i: PriorityClass,
                                                  j: PriorityClass, most: nat)
    requires w.Positive() && Backlogged(calls, j, most)
    ensures Lead(w, CountsAfter(w, counts, calls), i, j) <= Larger(Lead(w, counts, i, j), most as real / w.Of(i))
  {
    if calls != [] {
      var init, last := calls[..|calls| - 1], calls[|calls| - 1];
      BackloggedClassKeepsUp(w, counts, init, i, j, most);
      CallBoundsLead(w, CountsAfter(w, counts, init), last.candidates, last.limit, CountsAfter(w, counts, calls), i, j);
      QuotientMonotone(last.limit as real, most as real, w.Of(i));
    }
  }

  // ---- Proportional share ----

  ghost predicate Known(calls: seq<Call>) {
    forall t, c :: 0 <= t < |calls| && c in calls[t].candidates ==> c.priorityClass in {Elevated, Standard, Background}
  }

  function TotalCount(counts: Counts): nat {
    CountOf(counts, Elevated) + CountOf(counts, Standard) + CountOf(counts, Background)
  }

  function TotalLimit(calls: seq<Call>): nat {
    if calls == [] then 0 else TotalLimit(calls[..|calls| - 1]) + calls[|calls| - 1].limit
  }

  lemma {:induction false} ClassesPartition(cs: seq<SchedulingCandidate>)
    requires forall c :: c in cs ==> c.priorityClass in {Elevated, Standard, Background}
    ensures OfClass(cs, Elevated) + OfClass(cs, Standard) + OfClass(cs, Background) == |cs|
  {
    if cs != [] {
      var init, last := cs[..|cs| - 1], cs[|cs| - 1];
      assert cs == init + [last];
      ClassesPartition(init);
    }
  }

  /** With a backlogged class every call selects its full limit, so the counts add up to the sum of the limits. */
  lemma {:induction false} EverySlotIsUsed(w: Weights, counts: Counts, calls: seq<Call>, j: PriorityClass, most: nat)
    requires w.Positive() && Backlogged(calls, j, most) && Known(calls)
    ensures TotalCount(CountsAfter(w, counts, calls)) == TotalCount(counts) + TotalLimit(calls)
  {
    if calls != [] {
      var init, last := calls[..|calls| - 1], calls[|calls| - 1];
      var before := CountsAfter(w, counts, init);
      EverySlotIsUsed(w, counts, init, j, most);
      var selected := Selected(w, before, last.candidates, last.limit);
      var leq := ByKey(FairKey(w, before));
      ByKeyIsPreorder(FairKey(w, before));
      SortSpec(leq, last.candidates);
      OfClassBounds(last.candidates, j);
      forall c | c in selected ensures c.priorityClass in {Elevated, Standard, Background} {
        assert c in Sort(leq, last.candidates);
        assert c in multiset(Sort(leq, last.candidates));
      }
      ClassesPartition(selected);
      RecordCounts(before, selected, Elevated);
      RecordCounts(before, selected, Standard);
      RecordCounts(before, selected, Background);
    }
  }

  lemma FreshLead(w: Weights, i: PriorityClass, j: PriorityClass, most: nat)
    requires w.Positive()
    ensures Lead(w, FreshCounts(), i, j) == 0.0 <= most as real / w.Of(i)
  {
    QuotientMonotone(0.0, most as real, w.Of(i));
  }

  /** From a fresh policy no class leads a backlogged class by more than one call's worth. */
  lemma FreshLeadBound(w: Weights, calls: seq<Call>, counts: Counts, i: PriorityClass, j: PriorityClass, most: nat)
    requires w.Positive() && Backlogged(calls, j, most) && counts == CountsAfter(w, FreshCounts(), calls)
    ensures Lead(w, counts, i, j) <= most as real / w.Of(i)
  {
    FreshLead(w, i, j, most);
    BackloggedClassKeepsUp(w, FreshCounts(), calls, i, j, most);
  }

  lemma ProductBound(a: real, b: real, weight: real)
    requires weight > 0.0 && a <= b
    ensures a * weight <= b * weight
  {
  }

  /** A bounded lead, with the divisions multiplied out. */
  lemma LeadMultipliedOut(ci: real, cj: real, wi: real, wj: real, k: real)
    requires wi > 0.0 && wj > 0.0 && ci / wi - cj / wj <= k / wi
    ensures ci * wj <= cj * wi + k * wj
  {
    var x, y, z := ci / wi, cj / wj, k / wi;
    assert ci == x * wi && cj == y * wj && k == z * wi;
    ProductBound(x, y + z, wi);
    ProductBound(x * wi, (y + z) * wi, wj);
    assert (y + z) * wi * wj == y * wj * wi + z * wi * wj;
  }

  /** What a class may be ahead of its share: nothing for class j itself, one call's worth for the others. */
  function Slack(i: PriorityClass, j: PriorityClass, most: nat): nat {
    if i == j then 0 else most
  }

  /** Class i got no more than its weighted share of what class j got, and the slack. */
  predicate WithinShare(w: Weights, counts: Counts, i: PriorityClass, j: PriorityClass, most: nat) {
    CountOf(counts, i) as real * w.Of(j)
    <= CountOf(counts, j) as real * w.Of(i) + Slack(i, j, most) as real * w.Of(j)
  }

  lemma ShareFromLead(w: Weights, counts: Counts, i: PriorityClass, j: PriorityClass, most: nat)
    requires w.Positive() && i != j && Lead(w, counts, i, j) <= most as real / w.Of(i)
    ensures WithinShare(w, counts, i, j, most)
  {
    LeadMultipliedOut(CountOf(counts, i) as real, CountOf(counts, j) as real, w.Of(i), w.Of(j), most as real);
  }

  lemma EqualProducts(ci: real, cj: real, wi: real, wj: real, slack: real)
    requires ci == cj && wi == wj && slack == 0.0
    ensures ci * wj <= cj * wi + slack * wj
  {
  }

  lemma OwnShare(w: Weights, counts: Counts, i: PriorityClass, j: PriorityClass, most: nat)
    requires i == j
    ensures WithinShare(w, counts, i, j, most)
  {
    EqualProducts(CountOf(counts, i) as real, CountOf(counts, j) as real, w.Of(i), w.Of(j), Slack(i, j, most) as real);
  }

  /** From a fresh policy, any class stays within its weighted share of what class j got, and one call's worth. */
  lemma ShareAgainst(w: Weights, calls: seq<Call>, counts: Counts, i: PriorityClass, j: PriorityClass, most: nat)
    requires w.Positive() && Backlogged(calls, j, most) && counts == CountsAfter(w, FreshCounts(), calls)
    ensures WithinShare(w, counts, i, j, most)
  {
    if i != j {
      FreshLeadBound(w, calls, counts, i, j, most);
      ShareFromLead(w, counts, i, j, most);
    } else {
      OwnShare(w, counts, i, j, most);
    }
  }

  lemma SumOfShares(we: real, wd: real, wb: real, wj: real, ce: real, cd: real, cb: real, cj: real,
                    se: real, sd: real, sb: real)
    requires ce * wj <= cj * we + se * wj && cd * wj <= cj * wd + sd * wj && cb * wj <= cj * wb + sb * wj
    ensures cj * (we + wd + wb) >= wj * ((ce + cd + cb) - (se + sd + sb))
  {
    assert cj * (we + wd + wb) == cj * we + cj * wd + cj * wb;
    assert wj * ((ce + cd + cb) - (se + sd + sb)) == ce * wj + cd * wj + cb * wj - se * wj - sd * wj - sb * wj;
  }

  lemma SumOfSharesIs(we: real, wd: real, wb: real, wj: real, ce: real, cd: real, cb: real, cj: real,
                      se: real, sd: real, sb: real, sum: real, all: real)
    requires ce * wj <= cj * we + se * wj && cd * wj <= cj * wd + sd * wj && cb * wj <= cj * wb + sb * wj
    requires sum == we + wd + wb && all == (ce + cd + cb) - (se + sd + sb)
    ensures cj * sum >= wj * all
  {
    SumOfShares(we, wd, wb, wj, ce, cd, cb, cj, se, sd, sb);
  }

  lemma CountsCover(w: Weights, counts: Counts, j: PriorityClass, most: nat, total: nat, all: real)
    requires j in {Elevated, Standard, Background} && TotalCount(counts) == total
    requires WithinShare(w, counts, Elevated, j, most) && WithinShare(w, counts, Standard, j, most)
    requires WithinShare(w, counts, Background, j, most)
    requires all == total as real - 2.0 * most as real
    ensures CountOf(counts, j) as real * w.Total() >= w.Of(j) * all
  {
    var ce, cd, cb := CountOf(counts, Elevated), CountOf(counts, Standard), CountOf(counts, Background);
    var se, sd, sb := Slack(Elevated, j, most), Slack(Standard, j, most), Slack(Background, j, most);
    assert ce as real + cd as real + cb as real == total as real;
    assert se as real + sd as real + sb as real == 2.0 * most as real;
    SumOfSharesIs(w.elevated, w.standard, w.background, w.Of(j), ce as real, cd as real, cb as real,
                  CountOf(counts, j) as real, se as real, sd as real, sb as real, w.Total(), all);
  }

  /** Class j has its weighted share of `all`, for each of the three classes with its own weight. */
  predicate ShareOfEach(w: Weights, counts: Counts, j: PriorityClass, all: real) {
    var sum := w.elevated + w.standard + w.background;
    && (j == Elevated ==> CountOf(counts, Elevated) as real * sum >= w.elevated * all)
    && (j == Standard ==> CountOf(counts, Standard) as real * sum >= w.standard * all)
    && (j == Background ==> CountOf(counts, Background) as real * sum >= w.background * all)
  }

  lemma ShareWrittenOut(w: Weights, counts: Counts, j: PriorityClass, all: real)
    requires CountOf(counts, j) as real * w.Total() >= w.Of(j) * all
    ensures ShareOfEach(w, counts, j, all)
  {
    assert w.Total() == w.elevated + w.standard + w.background;
    match j
    case Elevated => assert w.Of(j) == w.elevated;
    case Standard => assert w.Of(j) == w.standard;
    case Background => assert w.Of(j) == w.background;
    case Unlisted(_) =>
  }

  lemma WeightedShare(w: Weights, calls: seq<Call>, counts: Counts, total: nat, j: PriorityClass, most: nat, all: real)
    requires w.Positive() && j in {Elevated, Standard, Background}
    requires Backlogged(calls, j, most) && Known(calls)
    requires counts == CountsAfter(w, FreshCounts(), calls) && total == TotalLimit(calls)
    requires all == total as real - 2.0 * most as real
    ensures CountOf(counts, j) as real * w.Total() >= w.Of(j) * all
  {
    EverySlotIsUsed(w, FreshCounts(), calls, j, most);
    ShareAgainst(w, calls, counts, Elevated, j, most);
    ShareAgainst(w, calls, counts, Standard, j, most);
    ShareAgainst(w, calls, counts, Background, j, most);
    CountsCover(w, counts, j, most, total, all);
  }

  /**
   Weighted proportional share: from a fresh policy, a class that is backlogged in every call receives at least its
   weighted share of everything selected, less twice the largest limit.
   */
  lemma ProportionalShare(w: Weights, calls: seq<Call>, counts: Counts, total: nat, j: PriorityClass, most: nat,
                          all: real)
    requires w.Positive() && j in {Elevated, Standard, Background}
    requires Backlogged(calls, j, most) && Known(calls)
    requires counts == CountsAfter(w, FreshCounts(), calls) && total == TotalLimit(calls)
    requires all == total as real - 2.0 * most as real
    ensures CountOf(counts, j) as real * w.Total() >= w.Of(j) * all
    ensures ShareOfEach(w, counts, j, all)
  {
    WeightedShare(w, calls, counts, total, j, most, all);
    ShareWrittenOut(w, counts, j, all);
  }

  lemma {:induction false} EqualLimits(calls: seq<Call>, n: nat, limit: nat, total: nat)
    requires forall t :: 0 <= t < |calls| ==> calls[t].limit == limit
    requires n == |calls| && total == TotalLimit(calls)
    ensures total == limit * n
  {
    if calls != [] {
      EqualLimits(calls[..n - 1], n - 1, limit, total - limit);
    }
  }

  lemma LimitArithmetic(limit: nat, n: nat, total: nat)
    requires total == limit * n
    ensures total as real - 2.0 * limit as real == limit as real * (n as real - 2.0)
  {
    assert total as real == limit as real * n as real;
  }

  /** With the same limit k in N calls: a backlogged class j is selected at least w_j * k * (N - 2) / W times. */
  lemma NoBackloggedClassStarves(w: Weights, calls: seq<Call>, n: nat, counts: Counts, j: PriorityClass, limit: nat,
                                 all: real)
    requires w.Positive() && j in {Elevated, Standard, Background} && Known(calls) && |calls| == n
    requires forall t :: 0 <= t < |calls| ==> calls[t].limit == limit && OfClass(calls[t].candidates, j) >= limit
    requires counts == CountsAfter(w, FreshCounts(), calls) && all == limit as real * (n as real - 2.0)
    ensures CountOf(counts, j) as real * w.Total() >= w.Of(j) * all
    ensures ShareOfEach(w, counts, j, all)
  {
    var total := TotalLimit(calls);
    EqualLimits(calls, n, limit, total);
    LimitArithmetic(limit, n, total);
    ProportionalShare(w, calls, counts, total, j, limit, all);
  }
}
