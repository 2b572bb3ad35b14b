/** What the metrics, the constraints and the selection of the calibration are, said of positions,
    labels and counts alone. */
module CalibrationMeaning {
  import opened Domain
  import opened Ranking
  import opened Calibration

  // ---------------------------------------------------------------- one outcome's shares

  function TopCount(g: Graded): nat {
    if |g.outcome.returned| < 5 then |g.outcome.returned| else 5
  }

  ghost predicate RelevantAt(g: Graded, i: nat) {
    && i < |g.outcome.returned| && g.outcome.returned[i] in g.labels && g.labels[g.outcome.returned[i]] > 0
  }

  ghost predicate IntrusiveAt(g: Graded, i: nat) {
    && i < |g.outcome.returned| && g.outcome.returned[i] in g.labels && g.labels[g.outcome.returned[i]] == 0
  }

  /** The positions among the first `n`. */
  ghost function Relevant(g: Graded, n: nat): set<nat> {
    set i: nat | i < n && RelevantAt(g, i)
  }

  ghost function Intrusive(g: Graded, n: nat): set<nat> {
    set i: nat | i < n && IntrusiveAt(g, i)
  }

  lemma {:induction false} HitsRelevant(g: Graded, n: nat)
    requires n <= |g.outcome.returned|
    ensures Hits(g.outcome.returned[..n], set m | m in g.labels && g.labels[m] > 0) == |Relevant(g, n)|
  {
    if n > 0 {
      HitsRelevant(g, n - 1);
      assert g.outcome.returned[..n][..n - 1] == g.outcome.returned[..n - 1];
      if RelevantAt(g, n - 1) {
        assert Relevant(g, n) == Relevant(g, n - 1) + {n - 1};
      } else {
        assert Relevant(g, n) == Relevant(g, n - 1);
      }
    } else {
      assert Relevant(g, 0) == {};
    }
  }

  lemma {:induction false} HitsIntrusive(g: Graded, n: nat)
    requires n <= |g.outcome.returned|
    ensures Hits(g.outcome.returned[..n], set m | m in g.labels && g.labels[m] == 0) == |Intrusive(g, n)|
  {
    if n > 0 {
      HitsIntrusive(g, n - 1);
      assert g.outcome.returned[..n][..n - 1] == g.outcome.returned[..n - 1];
      if IntrusiveAt(g, n - 1) {
        assert Intrusive(g, n) == Intrusive(g, n - 1) + {n - 1};
      } else {
        assert Intrusive(g, n) == Intrusive(g, n - 1);
      }
    } else {
      assert Intrusive(g, 0) == {};
    }
  }

  ghost predicate Below(i: nat, n: nat) {
    i < n
  }

  ghost function Positions(n: nat): set<nat> {
    set i: nat | i < n && Below(i, n)
  }

  lemma {:induction false} PositionCount(n: nat)
    ensures |Positions(n)| == n
  {
    if n > 0 {
      PositionCount(n - 1);
      assert Positions(n) == Positions(n - 1) + {n - 1};
    } else {
      assert Positions(n) == {};
    }
  }

  lemma SubsetSize<T>(a: set<T>, b: set<T>)
    requires a <= b
    ensures |a| <= |b| && (|a| == |b| ==> a == b)
  {
    assert b == a + (b - a) && a !! (b - a);
    assert |b| == |a| + |b - a|;
  }

  lemma CountsMean(g: Graded, n: nat)
    ensures |Relevant(g, n)| + |Intrusive(g, n)| <= n
    ensures |Relevant(g, n)| == n <==> forall i: nat :: i < n ==> RelevantAt(g, i)
    ensures |Relevant(g, n)| == 0 <==> forall i: nat :: i < n ==> !RelevantAt(g, i)
  {
    var a, b, all := Relevant(g, n), Intrusive(g, n), Positions(n);
    PositionCount(n);
    forall i: nat | i in a || i in b ensures i in all {
      assert Below(i, n);
    }
    SubsetSize(a + b, all);
    SubsetSize(a, all);
    if a == all {
      forall i: nat | i < n ensures RelevantAt(g, i) {
        assert Below(i, n) && i in all;
      }
    }
    if a == {} {
      forall i: nat | i < n ensures !RelevantAt(g, i) {
        assert i !in a;
      }
    }
    assert (forall i: nat :: i < n ==> RelevantAt(g, i)) ==> a == all;
    assert (forall i: nat :: i < n ==> !RelevantAt(g, i)) ==> a == {};
  }

  lemma HitsMean(g: Graded)
    ensures
      var n := TopCount(g);
      && Precision(g) == (if n == 0 then 0.0 else |Relevant(g, n)| as real / n as real)
      && Intrusion(g) == (if n == 0 then 0.0 else |Intrusive(g, n)| as real / n as real)
  {
    HitsRelevant(g, TopCount(g));
    HitsIntrusive(g, TopCount(g));
    assert g.outcome.returned[..|g.outcome.returned|] == g.outcome.returned;
    hide Relevant, Intrusive, Hits;
  }

  /** Precision and intrusion are the shares of relevant and of intrusive positions among the first five
      returned, zero when nothing is returned. */
  lemma SharesMean(g: Graded)
    ensures Precision(g) * (TopCount(g) as real) == |Relevant(g, TopCount(g))| as real
    ensures Intrusion(g) * (TopCount(g) as real) == |Intrusive(g, TopCount(g))| as real
    ensures TopCount(g) == 0 ==> Precision(g) == 0.0 && Intrusion(g) == 0.0
    ensures 0.0 <= Precision(g) && 0.0 <= Intrusion(g) && Precision(g) + Intrusion(g) <= 1.0
    ensures Precision(g) == 1.0 <==> TopCount(g) > 0 && forall i: nat :: i < TopCount(g) ==> RelevantAt(g, i)
    ensures Precision(g) == 0.0 <==> forall i: nat :: i < TopCount(g) ==> !RelevantAt(g, i)
  {
    var n := TopCount(g);
    HitsMean(g);
    CountsMean(g, n);
    hide Relevant, Intrusive, Precision, Intrusion, TopCount, RelevantAt;
    Ratio(|Relevant(g, n)|, n);
    Ratio(|Intrusive(g, n)|, n);
    if n > 0 {
      SumOfRatios(|Relevant(g, n)|, |Intrusive(g, n)|, n);
    }
  }

  lemma SumOfRatios(a: nat, b: nat, n: nat)
    requires a + b <= n && n > 0
    ensures a as real / n as real + b as real / n as real <= 1.0
  {
    Ratio(a + b, n);
    assert a as real / n as real + b as real / n as real == (a + b) as real / n as real;
  }

  lemma Ratio(k: nat, n: nat)
    requires k <= n
    ensures n > 0 ==>
              var x := k as real / n as real;
              x * n as real == k as real && 0.0 <= x <= 1.0 && (x == 1.0 <==> k == n) && (x == 0.0 <==> k == 0)
  {
  }

  // ---------------------------------------------------------------- averages and rates

  /** The positions whose outcome has the property. */
  ghost function Those(items: seq<Graded>, p: Graded -> bool): set<nat> {
    set i: nat | i < |items| && p(items[i])
  }

  lemma ThoseMore(items: seq<Graded>, g: Graded, p: Graded -> bool)
    ensures |Those(items + [g], p)| == |Those(items, p)| + if p(g) then 1 else 0
  {
    var n, more := |items|, Those(items + [g], p);
    if p(g) {
      assert more == Those(items, p) + {n};
    } else {
      assert more == Those(items, p);
    }
  }

  lemma SelectMore(items: seq<Graded>, g: Graded, p: Graded -> bool)
    ensures Select(items + [g], p) == if p(g) then Select(items, p) + [g] else Select(items, p)
  {
    assert (items + [g])[..|items|] == items;
  }

  lemma SumMore(items: seq<Graded>, g: Graded, f: Graded -> real)
    ensures Sum(items + [g], f) == Sum(items, f) + f(g)
  {
    assert (items + [g])[..|items|] == items;
  }

  lemma {:induction false} SelectCount(items: seq<Graded>, p: Graded -> bool)
    ensures |Select(items, p)| == |Those(items, p)|
    ensures forall x :: x in Select(items, p) <==> x in items && p(x)
    decreases |items|
  {
    if items == [] {
      assert Those(items, p) == {};
    } else {
      var rest, g := items[..|items| - 1], items[|items| - 1];
      assert items == rest + [g];
      SelectCount(rest, p);
      SelectMore(rest, g, p);
      ThoseMore(rest, g, p);
    }
  }

  lemma {:induction false} CountIfMeans(items: seq<Graded>, p: Graded -> bool)
    ensures CountIf(items, p) == |Those(items, p)|
    decreases |items|
  {
    if items == [] {
      assert Those(items, p) == {};
    } else {
      CountIfMeans(items[..|items| - 1], p);
      ThoseMore(items[..|items| - 1], items[|items| - 1], p);
      assert items == items[..|items| - 1] + [items[|items| - 1]];
    }
  }

  lemma MeanTimes(items: seq<Graded>, f: Graded -> real)
    ensures Mean(items, f) * (|items| as real) == Sum(items, f)
  {
  }

  /** Precision over positive queries is their average: adding one weighs it like each before, adding
      another query changes nothing, and nothing averages to zero. */
  lemma PrecisionAverages(items: seq<Graded>, g: Graded)
    ensures PositivePrecision([]) == 0.0
    ensures g.outcome.expected != "retrieve" ==> PositivePrecision(items + [g]) == PositivePrecision(items)
    ensures
      var k := |Those(items, Positive)|;
      g.outcome.expected == "retrieve" ==>
        PositivePrecision(items + [g]) * ((k + 1) as real) == PositivePrecision(items) * (k as real) + Precision(g)
  {
    EmptyPrecision();
    hide *;
    SelectMore(items, g, Positive);
    PositiveMeans(g);
    if Positive(g) {
      PrecisionTimes(items);
      PrecisionTimes(items + [g]);
      ThoseMore(items, g, Positive);
      SumMore(Select(items, Positive), g, Precision);
      assert |Those(items + [g], Positive)| == |Those(items, Positive)| + 1;
    } else {
      SameSelection(items, items + [g]);
    }
  }

  lemma EmptyPrecision()
    ensures PositivePrecision([]) == 0.0
  {
  }

  lemma PositiveMeans(g: Graded)
    ensures Positive(g) <==> g.outcome.expected == "retrieve"
  {
  }

  lemma PrecisionTimes(items: seq<Graded>)
    ensures PositivePrecision(items) * (|Those(items, Positive)| as real) == Sum(Select(items, Positive), Precision)
  {
    var chosen := Select(items, Positive);
    PrecisionIsMean(items);
    hide *;
    MeanTimes(chosen, Precision);
    SelectSize(items, Positive);
    var n := |chosen|;
    assert PositivePrecision(items) * (n as real) == Sum(chosen, Precision);
    assert |Those(items, Positive)| == n;
  }

  lemma PrecisionIsMean(items: seq<Graded>)
    ensures PositivePrecision(items) == Mean(Select(items, Positive), Precision)
  {
    hide Mean, Select;
  }

  lemma SelectSize(items: seq<Graded>, p: Graded -> bool)
    ensures |Select(items, p)| == |Those(items, p)|
  {
    SelectCount(items, p);
  }

  lemma SameSelection(a: seq<Graded>, b: seq<Graded>)
    requires Select(a, Positive) == Select(b, Positive)
    ensures PositivePrecision(a) == PositivePrecision(b)
  {
  }

  /** Intrusion over all queries is an average in the same way. */
  lemma IntrusionAverages(items: seq<Graded>, g: Graded)
    ensures Mean([], Intrusion) == 0.0
    ensures Mean(items + [g], Intrusion) * ((|items| + 1) as real) == Mean(items, Intrusion) * (|items| as real)
        + Intrusion(g)
  {
    hide Intrusion;
    SumMore(items, g, Intrusion);
    MeanTimes(items, Intrusion);
    MeanTimes(items + [g], Intrusion);
  }

  lemma {:induction false} SumBounds(items: seq<Graded>)
    ensures 0.0 <= Sum(items, Precision) <= |items| as real
    ensures Sum(items, Precision) == |items| as real <==> forall x :: x in items ==> Precision(x) == 1.0
    ensures Sum(items, Precision) == 0.0 <==> forall x :: x in items ==> Precision(x) == 0.0
    decreases |items|
  {
    if items != [] {
      var rest, g := items[..|items| - 1], items[|items| - 1];
      SumBounds(rest);
      SharesMean(g);
      hide Precision, TopCount, RelevantAt;
      assert items == rest + [g];
      assert forall x :: x in items <==> x in rest || x == g;
    }
  }

  /** Among positive queries, precision is 1 exactly when each returns something and only relevant ids
      among its first five, and 0 exactly when none returns a relevant one there. */
  lemma PrecisionExtremes(items: seq<Graded>)
    requires exists x :: x in items && Positive(x)
    ensures 0.0 <= PositivePrecision(items) <= 1.0
    ensures PositivePrecision(items) == 1.0 <==>
              forall x :: x in items && Positive(x) ==> TopCount(x) > 0 && forall i: nat :: i < TopCount(x) ==>
                  RelevantAt(x, i)
    ensures PositivePrecision(items) == 0.0 <==>
              forall x :: x in items && Positive(x) ==> forall i: nat :: i < TopCount(x) ==> !RelevantAt(x, i)
  {
    var chosen := Select(items, Positive);
    SelectCount(items, Positive);
    SumBounds(chosen);
    var x :| x in items && Positive(x);
    assert x in chosen;
    Average(Sum(chosen, Precision), |chosen|);
    assert PositivePrecision(items) == Sum(chosen, Precision) / |chosen| as real;
    forall x ensures Precision(x) == 1.0 <==> TopCount(x) > 0 && forall i: nat :: i < TopCount(x) ==> RelevantAt(x, i) {
      SharesMean(x);
    }
    forall x ensures Precision(x) == 0.0 <==> forall i: nat :: i < TopCount(x) ==> !RelevantAt(x, i) {
      SharesMean(x);
    }
    hide Precision, PositivePrecision, TopCount, RelevantAt, Sum, Select;
  }

  lemma Average(total: real, n: nat)
    requires n > 0 && 0.0 <= total <= n as real
    ensures 0.0 <= total / n as real <= 1.0
    ensures total / n as real == 1.0 <==> total == n as real
    ensures total / n as real == 0.0 <==> total == 0.0
  {
  }

  predicate Abstains(g: Graded) {
    g.outcome.expected == "abstain" && g.outcome.returned == []
  }

  /** The share of silent outcomes among the negative ones, zero when there is no negative one. */
  lemma AbstentionMeans(items: seq<Graded>)
    ensures AbstentionRate(items) * (|Those(items, Negative)| as real) == |Those(items, Abstains)| as real
    ensures |Those(items, Negative)| == 0 ==> AbstentionRate(items) == 0.0
  {
    SelectCount(items, Negative);
    SilentAmong(items);
    CountIfMeans(Select(items, Negative), Silent);
  }

  lemma {:induction false} SilentAmong(items: seq<Graded>)
    ensures |Those(Select(items, Negative), Silent)| == |Those(items, Abstains)|
    decreases |items|
  {
    var both := Abstains;
    if items == [] {
      assert Those(Select(items, Negative), Silent) == {} && Those(items, both) == {};
    } else {
      var rest, g := items[..|items| - 1], items[|items| - 1];
      assert items == rest + [g];
      SilentAmong(rest);
      SelectMore(rest, g, Negative);
      ThoseMore(rest, g, both);
      if Negative(g) {
        ThoseMore(Select(rest, Negative), g, Silent);
      }
    }
  }

  /** Isolation is full exactly when there is an outcome and none fails a check. */
  lemma IsolationMeans(items: seq<Graded>)
    ensures IsolationRate(items) == 1.0 <==>
        items != [] && forall i :: 0 <= i < |items| ==> items[i].outcome.failures == {}
  {
    CountIfMeans(items, Clean);
    var clean, all := Those(items, Clean), Positions(|items|);
    PositionCount(|items|);
    forall i: nat | i in clean ensures i in all {
      assert Below(i, |items|);
    }
    SubsetSize(clean, all);
    if items != [] {
      Ratio(|clean|, |items|);
      if clean == all {
        forall i: nat | i < |items| ensures items[i].outcome.failures == {} {
          assert Below(i, |items|) && i in all && Clean(items[i]);
        }
      }
      if forall i :: 0 <= i < |items| ==> items[i].outcome.failures == {} {
        assert forall i: nat :: i < |items| ==> Clean(items[i]);
        assert clean == all;
      }
    }
  }

  // ---------------------------------------------------------------- the constraints

  /** The outcomes of one kind, in order: a new one of the kind joins them, another does not. */
  lemma SliceMeans(items: seq<Graded>, g: Graded, kind: string)
    ensures SliceOf([], kind) == []
    ensures SliceOf(items + [g], kind) == if g.outcome.kind == kind then SliceOf(items, kind) + [g]
        else SliceOf(items, kind)
  {
    assert (items + [g])[..|items|] == items;
  }

  ghost predicate SlicePasses(items: seq<Graded>, kind: string) {
    |Those(SliceOf(items, kind), Positive)| >= 5 ==> PositivePrecision(SliceOf(items, kind)) >= 0.6
  }

  lemma SlicePassing(items: seq<Graded>, kind: string)
    ensures SliceFloor(items, kind) <==> SlicePasses(items, kind)
  {
    SelectSize(SliceOf(items, kind), Positive);
    hide Select, Those, SliceOf, PositivePrecision;
  }

  lemma MeetsParts(items: seq<Graded>)
    ensures Meets(items) <==>
              && AbstentionRate(items) >= 0.9 && Mean(items, Intrusion) <= 0.1 && IsolationRate(items) == 1.0
              && forall i :: 0 <= i < |items| ==> SliceFloor(items, items[i].outcome.kind)
  {
    hide AbstentionRate, Mean, IsolationRate, SliceFloor;
  }

  lemma RatesMean(items: seq<Graded>)
    ensures AbstentionRate(items) >= 0.9 <==>
              |Those(items, Negative)| > 0 && 10 * |Those(items, Abstains)| >= 9 * |Those(items, Negative)|
    ensures |Those(items, Negative)| > 0 ==>
              (IsolationRate(items) == 1.0 <==> forall i :: 0 <= i < |items| ==> items[i].outcome.failures == {})
  {
    AbstentionMeans(items);
    IsolationMeans(items);
    NineTenths(AbstentionRate(items), |Those(items, Abstains)|, |Those(items, Negative)|);
    NegativeThere(items);
    hide AbstentionRate, IsolationRate, Those;
  }

  /** A threshold passes exactly when at least nine tenths of the negative queries, of which there is
      one, are silent; intrusion averages to at most a tenth; no outcome fails a check; and each kind with
      five positive queries or more has precision 0.6 at least. */
  lemma ConstraintsMean(items: seq<Graded>)
    ensures Meets(items) <==>
              && |Those(items, Negative)| > 0 && 10 * |Those(items, Abstains)| >= 9 * |Those(items, Negative)|
              && Mean(items, Intrusion) <= 0.1
              && (forall i :: 0 <= i < |items| ==> items[i].outcome.failures == {})
              && forall i :: 0 <= i < |items| ==> SlicePasses(items, items[i].outcome.kind)
  {
    hide *;
    RatesMean(items);
    forall i | 0 <= i < |items| ensures SliceFloor(items, items[i].outcome.kind) <==>
        SlicePasses(items, items[i].outcome.kind) {
      SlicePassing(items, items[i].outcome.kind);
    }
    MeetsParts(items);
  }

  lemma NegativeThere(items: seq<Graded>)
    ensures |Those(items, Negative)| > 0 ==> items != []
  {
    if items == [] {
      assert Those(items, Negative) == {};
    }
  }

  lemma NineTenths(rate: real, silent: nat, negative: nat)
    requires rate * (negative as real) == silent as real && (negative == 0 ==> rate == 0.0)
    ensures rate >= 0.9 <==> negative > 0 && 10 * silent >= 9 * negative
  {
    if negative > 0 {
      assert rate == silent as real / negative as real;
    }
  }

  // ---------------------------------------------------------------- the selection

  /** The grid runs from 0.50 to 0.90 in steps of 0.01. */
  lemma GridMeans(k: nat)
    ensures GRID == 41 && Threshold(0) == 0.5 && Threshold(40) == 0.9 && Threshold(k + 1) - Threshold(k) == 0.01
  {
  }

  /** Episodes take turns: fold `f` has episodes f + 1, f + 6, f + 11 and so on. */
  lemma FoldMeans(q: Query)
    requires q.episode.Some?
    ensures 0 <= FoldOf(q) < 5 && exists n: int :: q.episode.value == 5 * n + FoldOf(q) + 1
  {
    var n := (q.episode.value as int - 1) / 5;
    assert q.episode.value == 5 * n + FoldOf(q) + 1;
  }

  /** Every positive query returns something, and only relevant ids among its first five. */
  ghost predicate AllRelevant(items: seq<Graded>) {
    forall x :: x in items && x.outcome.expected == "retrieve" ==>
      TopCount(x) > 0 && forall i: nat :: i < TopCount(x) ==> RelevantAt(x, i)
  }

  /** No positive query returns a relevant id among its first five. */
  ghost predicate NoneRelevant(items: seq<Graded>) {
    forall x :: x in items && x.outcome.expected == "retrieve" ==> forall i: nat :: i < TopCount(x) ==>
        !RelevantAt(x, i)
  }

  ghost predicate SomePositive(items: seq<Graded>) {
    exists x :: x in items && x.outcome.expected == "retrieve"
  }

  lemma ExtremesMean(items: seq<Graded>)
    requires SomePositive(items)
    ensures 0.0 <= PositivePrecision(items) <= 1.0
    ensures PositivePrecision(items) == 1.0 <==> AllRelevant(items)
    ensures PositivePrecision(items) == 0.0 <==> NoneRelevant(items)
  {
    var x :| x in items && x.outcome.expected == "retrieve";
    assert Positive(x);
    PrecisionExtremes(items);
    hide PositivePrecision, TopCount, RelevantAt;
  }

  /** The selected threshold passes; none passes when none is selected. No passing threshold has higher
      precision, and none above it has the same. So where some passing threshold returns relevant ids only,
      the selected one does, too, and it is the highest such; and when the selected one returns no relevant
      id, no passing one does. */
  lemma SelectionMeans(d: Data, qs: seq<Query>, k: nat)
    requires k < 41 && Meets(Grade(d, qs, Threshold(k))) && SomePositive(Grade(d, qs, Threshold(k)))
    ensures Selected(d, qs).Some? && Selected(d, qs).value < 41
    ensures
      var b := Selected(d, qs).value;
      var best, other := Grade(d, qs, Threshold(b)), Grade(d, qs, Threshold(k));
      && Meets(best) && PositivePrecision(best) >= PositivePrecision(other)
      && (PositivePrecision(best) == PositivePrecision(other) ==> k <= b)
      && (SomePositive(best) && AllRelevant(other) ==> AllRelevant(best) && k <= b)
      && (SomePositive(best) && NoneRelevant(best) ==> NoneRelevant(other))
  {
    BestIsBest(d, qs, 41);
    var b := Selected(d, qs).value;
    hide Meets, Grade, Threshold, PositivePrecision, AllRelevant, NoneRelevant, BestOf;
    ExtremesMean(Grade(d, qs, Threshold(k)));
    if SomePositive(Grade(d, qs, Threshold(b))) {
      ExtremesMean(Grade(d, qs, Threshold(b)));
    }
  }

  // ---------------------------------------------------------------- what is returned at a threshold

  lemma {:induction false} TextBeforeTotal(a: string, b: string)
    ensures a != b ==> TextBefore(a, b) || TextBefore(b, a)
    ensures !TextBefore(a, a)
    decreases |a|
  {
    if a != "" {
      TextBeforeTotal(a[1..], if b == "" then b else b[1..]);
      assert b != "" && a[0] == b[0] && a[1..] == b[1..] ==> a == b by {
        assert a == [a[0]] + a[1..];
        assert b != "" ==> b == [b[0]] + b[1..];
      }
    }
  }

  lemma {:induction false} TextBeforeTransitive(a: string, b: string, c: string)
    requires TextBefore(a, b) && TextBefore(b, c)
    ensures TextBefore(a, c)
    decreases |a|
  {
    if a != "" && a[0] == b[0] && b[0] == c[0] {
      TextBeforeTransitive(a[1..], b[1..], c[1..]);
    }
  }

  /** Every candidate is there once. */
  ghost predicate OnceEach(ranked: seq<Scored>) {
    forall i, j :: 0 <= i < j < |ranked| ==> ranked[i].entry.id != ranked[j].entry.id
  }

  /** Candidates with their similarity cut to 0..1. */
  ghost predicate CutOf(c: Scored, raw: Scored) {
    && c.entry == raw.entry && 0.0 <= c.similarity <= 1.0
    && (0.0 <= raw.similarity <= 1.0 ==> c.similarity == raw.similarity)
    && (raw.similarity < 0.0 ==> c.similarity == 0.0) && (raw.similarity > 1.0 ==> c.similarity == 1.0)
  }

  lemma {:induction false} AboveMeans(ranked: seq<Scored>, threshold: real)
    requires OnceEach(ranked)
    ensures OnceEach(Above(ranked, threshold))
    ensures forall c :: c in Above(ranked, threshold) <==>
              c.similarity >= threshold && exists i :: 0 <= i < |ranked| && CutOf(c, ranked[i])
    decreases |ranked|
  {
    if ranked != [] {
      var rest, n := ranked[..|ranked| - 1], |ranked| - 1;
      AboveMeans(rest, threshold);
      var kept := Above(rest, threshold);
      var last := Scored(Clamp(ranked[n].similarity), ranked[n].entry);
      forall i | 0 <= i < |kept| ensures kept[i].entry.id != last.entry.id {
        assert kept[i] in kept;
        var j :| 0 <= j < |rest| && CutOf(kept[i], rest[j]);
        assert ranked[j] == rest[j];
      }
      assert CutOf(last, ranked[n]);
      forall c ensures c in Above(ranked, threshold) <==>
          c.similarity >= threshold && exists i :: 0 <= i < |ranked| && CutOf(c, ranked[i])
      {
        if c in kept {
          var j :| 0 <= j < |rest| && CutOf(c, rest[j]);
          assert CutOf(c, ranked[j]);
        }
        if i :| 0 <= i < |ranked| && CutOf(c, ranked[i]) {
          if i < n {
            assert CutOf(c, rest[i]);
          } else {
            assert c == last;
          }
        }
      }
    }
  }

  function Weighted(c: Scored): real {
    0.75 * c.similarity + 0.15 * c.entry.importance + 0.10 * c.entry.confidence
  }

  /** Higher weighted score first, then higher similarity, then the id earlier in text order. */
  ghost predicate InServingOrder(items: seq<Scored>) {
    forall i, j :: 0 <= i < j < |items| ==>
      && Weighted(items[i]) >= Weighted(items[j])
      && (Weighted(items[i]) == Weighted(items[j]) ==> items[i].similarity >= items[j].similarity)
      && (Weighted(items[i]) == Weighted(items[j]) && items[i].similarity == items[j].similarity ==>
            TextBefore(items[i].entry.id, items[j].entry.id))
  }

  lemma AheadIsStrict(all: set<Scored>)
    requires forall x, y :: x in all && y in all && x != y ==> x.entry.id != y.entry.id
    ensures StrictOrder(Ahead, all)
  {
    hide ServingScore, TextBefore;
    forall x, y | x in all && y in all && x != y ensures Ahead(x, y) || Ahead(y, x) {
      TextBeforeTotal(x.entry.id, y.entry.id);
    }
    forall x | x in all ensures !Ahead(x, x) {
      TextBeforeTotal(x.entry.id, x.entry.id);
    }
    forall x, y, z | x in all && y in all && z in all && Ahead(x, y) && Ahead(y, z) ensures Ahead(x, z) {
      if TextBefore(x.entry.id, y.entry.id) && TextBefore(y.entry.id, z.entry.id) {
        TextBeforeTransitive(x.entry.id, y.entry.id, z.entry.id);
      }
    }
  }

  /** What is returned at a threshold: candidates at or above it, in serving order, at most `limit`, and
      when one is left out, then for the limit alone and with no higher score. */
  lemma ServedMeans(ranked: seq<Scored>, threshold: real, limit: nat, c: Scored)
    requires OnceEach(ranked)
    ensures
      var served := Served(ranked, threshold, limit);
      var candidate := c.similarity >= threshold && exists i :: 0 <= i < |ranked| && CutOf(c, ranked[i]);
      && InServingOrder(served) && |served| <= limit && (c in served ==> candidate)
      && (candidate && c !in served ==> |served| == limit && forall i :: 0 <= i < |served| ==>
           Weighted(c) <= Weighted(served[i]))
  {
    hide *;
    var kept, served := Above(ranked, threshold), Served(ranked, threshold, limit);
    AboveMeans(ranked, threshold);
    ServedIsTop(kept, ranked, threshold, limit);
    TopInOrder(served, Elements(kept), limit);
    ElementsMean(kept, c);
    TopLeavesLess(served, Elements(kept), limit, c);
  }

  lemma ServedIsTop(kept: seq<Scored>, ranked: seq<Scored>, threshold: real, limit: nat)
    requires kept == Above(ranked, threshold) && OnceEach(kept)
    ensures IsTop(Ahead, Served(ranked, threshold, limit), Elements(kept), limit)
  {
    hide Above, Ahead, Sort, IsTop;
    forall x, y | x in Elements(kept) && y in Elements(kept) && x != y ensures x.entry.id != y.entry.id {
      var i :| 0 <= i < |kept| && kept[i] == x;
      var j :| 0 <= j < |kept| && kept[j] == y;
    }
    AheadIsStrict(Elements(kept));
    SortedTop(Ahead, kept, limit);
  }

  lemma ElementsMean(kept: seq<Scored>, c: Scored)
    ensures c in Elements(kept) <==> c in kept
  {
  }

  lemma TopInOrder(served: seq<Scored>, all: set<Scored>, limit: nat)
    requires IsTop(Ahead, served, all, limit)
    ensures InServingOrder(served) && |served| <= limit
  {
    hide TextBefore;
  }

  lemma TopLeavesLess(served: seq<Scored>, all: set<Scored>, limit: nat, c: Scored)
    requires IsTop(Ahead, served, all, limit)
    ensures c in served ==> c in all
    ensures c in all && c !in served ==> |served| == limit && forall i :: 0 <= i < |served| ==>
        Weighted(c) <= Weighted(served[i])
  {
    hide TextBefore;
  }

  /** The outcome lists the ids that are served, in their order, and a failed check exactly when a served
      memory is of another owner, of another state, or, where the query filters by it, of another space
      or type. */
  lemma OutcomeMeans(q: Query, ranked: seq<Scored>, threshold: real, limit: nat)
    ensures
      var o, served := OutcomeAt(q, ranked, threshold, limit), Served(ranked, threshold, limit);
      && o.kind == q.kind && o.expected == q.expected && |o.returned| == |served|
      && (forall i :: 0 <= i < |served| ==> o.returned[i] == served[i].entry.id)
      && (OwnerCheck in o.failures <==> exists i :: 0 <= i < |served| && served[i].entry.owner != q.owner)
      && (StateCheck in o.failures <==> exists i :: 0 <= i < |served| && served[i].entry.state != q.filters.state)
      && (SpaceCheck in o.failures <==>
            && q.filters.space.Some? && q.filters.space.value != ""
            && exists i :: 0 <= i < |served| && served[i].entry.space != q.filters.space.value)
      && (TypeCheck in o.failures <==>
            && q.filters.kind.Some? && q.filters.kind.value != ""
            && exists i :: 0 <= i < |served| && served[i].entry.kind != q.filters.kind.value)
  {
    hide Served;
    var served := Served(ranked, threshold, limit);
    assert forall i :: 0 <= i < |served| ==>
        && (Violates(q, served[i].entry, OwnerCheck) <==> served[i].entry.owner != q.owner)
        && (Violates(q, served[i].entry, StateCheck) <==> served[i].entry.state != q.filters.state);
  }

  /** A query is graded by its own ranking against its own labels. */
  lemma {:induction false} GradesMean(d: Data, qs: seq<Query>, threshold: real, i: nat)
    requires i < |qs|
    ensures |Grade(d, qs, threshold)| == |qs|
    ensures
      var g := Grade(d, qs, threshold)[i];
      && g.outcome == OutcomeAt(qs[i], RankingOf(d, qs[i].id), threshold, d.resultLimit)
           && g.labels == LabelsOf(d, qs[i].id)
    decreases |qs|
  {
    hide OutcomeAt;
    GradeLength(d, qs, threshold);
    if i < |qs| - 1 {
      GradesMean(d, qs[..|qs| - 1], threshold, i);
    }
    GradeLength(d, qs[..|qs| - 1], threshold);
  }
}
