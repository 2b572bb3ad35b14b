/** The five-fold threshold calibration of src/omp/evals: what each fold selects, on what it
    depends, and when the out-of-fold set is complete. */
module Calibration {
  import opened Domain
  import opened Ranking

  // ---------------------------------------------------------------- data

  datatype Filters = Filters(state: string, space: Option<string>, kind: Option<string>)

  /** `episode` is the number in `episode-<n>`; `None` when the id has another form. */
  datatype Query =
    Query(id: string, episode: Option<nat>, owner: string, kind: string, expected: string, filters: Filters)

  datatype Entry =
    Entry(id: string, owner: string, state: string, space: string, kind: string, importance: real, confidence: real)

  datatype Scored = Scored(similarity: real, entry: Entry)

  type Labels = map<string, int>

  /** Rankings and relevance labels by query id, and the ids of the known memories. */
  datatype Data =
    Data(rankings: map<string, seq<Scored>>, relevance: map<string, Labels>, memories: set<string>, resultLimit: nat)

  /** Every query has a ranking and labels to look up, and its relevant memories are known. */
  predicate Covers(d: Data, qs: seq<Query>) {
    forall i :: 0 <= i < |qs| ==>
        qs[i].id in d.rankings && qs[i].id in d.relevance && RelevantKnown(d, d.relevance[qs[i].id])
  }

  predicate RelevantKnown(d: Data, labels: Labels) {
    forall m :: m in labels && labels[m] > 0 ==> m in d.memories
  }

  function RankingOf(d: Data, id: string): seq<Scored> {
    if id in d.rankings then d.rankings[id] else []
  }

  function LabelsOf(d: Data, id: string): Labels {
    if id in d.relevance then d.relevance[id] else map[]
  }

  // ---------------------------------------------------------------- one outcome

  function ServingScore(c: Scored): real {
    0.75 * c.similarity + 0.15 * c.entry.importance + 0.10 * c.entry.confidence
  }

  /** Text order, decided at the first difference. */
  predicate TextBefore(a: string, b: string) {
    b != "" && (a == "" || a[0] < b[0] || (a[0] == b[0] && TextBefore(a[1..], b[1..])))
  }

  predicate Ahead(a: Scored, b: Scored) {
    || ServingScore(a) > ServingScore(b)
    || (ServingScore(a) == ServingScore(b) && a.similarity > b.similarity)
    || (ServingScore(a) == ServingScore(b) && a.similarity == b.similarity && TextBefore(a.entry.id, b.entry.id))
  }

  function Above(ranked: seq<Scored>, threshold: real): seq<Scored>
    decreases |ranked|
  {
    if ranked == [] then []
    else
      var last := Scored(Clamp(ranked[|ranked| - 1].similarity), ranked[|ranked| - 1].entry);
      var rest := Above(ranked[..|ranked| - 1], threshold);
      if last.similarity >= threshold then rest + [last] else rest
  }

  function Served(ranked: seq<Scored>, threshold: real, limit: nat): seq<Scored> {
    var sorted := Sort(Ahead, Above(ranked, threshold));
    if |sorted| <= limit then sorted else sorted[..limit]
  }

  datatype Check = OwnerCheck | StateCheck | SpaceCheck | TypeCheck

  predicate Violates(q: Query, e: Entry, check: Check) {
    match check
    case OwnerCheck => e.owner != q.owner
    case StateCheck => e.state != q.filters.state
    case SpaceCheck => q.filters.space.Some? && q.filters.space.value != "" && e.space != q.filters.space.value
    case TypeCheck => q.filters.kind.Some? && q.filters.kind.value != "" && e.kind != q.filters.kind.value
  }

  predicate Violated(q: Query, served: seq<Scored>, check: Check) {
    exists i :: 0 <= i < |served| && Violates(q, served[i].entry, check)
  }

  datatype Outcome = Outcome(kind: string, expected: string, returned: seq<string>, failures: set<Check>)

  function Ids(items: seq<Scored>): seq<string> {
    seq(|items|, i requires 0 <= i < |items| => items[i].entry.id)
  }

  function OutcomeAt(q: Query, ranked: seq<Scored>, threshold: real, limit: nat): Outcome {
    var served := Served(ranked, threshold, limit);
    Outcome(q.kind, q.expected, Ids(served), set c: Check | Violated(q, served, c))
  }

  // ---------------------------------------------------------------- metrics

  /** An outcome together with the labels it is graded against. */
  datatype Graded = Graded(outcome: Outcome, labels: Labels)

  function CountIf(items: seq<Graded>, p: Graded -> bool): nat
    decreases |items|
  {
    if items == [] then 0 else CountIf(items[..|items| - 1], p) + if p(items[|items| - 1]) then 1 else 0
  }

  function Select(items: seq<Graded>, p: Graded -> bool): seq<Graded>
    decreases |items|
  {
    if items == [] then []
    else if p(items[|items| - 1]) then Select(items[..|items| - 1], p) + [items[|items| - 1]]
    else Select(items[..|items| - 1], p)
  }

  function Sum(items: seq<Graded>, f: Graded -> real): real
    decreases |items|
  {
    if items == [] then 0.0 else Sum(items[..|items| - 1], f) + f(items[|items| - 1])
  }

  function Mean(items: seq<Graded>, f: Graded -> real): real {
    if items == [] then 0.0 else Sum(items, f) / (|items| as real)
  }

  function Hits(ids: seq<string>, wanted: set<string>): nat
    decreases |ids|
  {
    if ids == [] then 0 else Hits(ids[..|ids| - 1], wanted) + if ids[|ids| - 1] in wanted then 1 else 0
  }

  const TOP := 5

  function ShareOfTop(ids: seq<string>, wanted: set<string>): real {
    var top := if |ids| <= TOP then ids else ids[..TOP];
    if top == [] then 0.0 else Hits(top, wanted) as real / (|top| as real)
  }

  function Precision(g: Graded): real {
    ShareOfTop(g.outcome.returned, set m | m in g.labels && g.labels[m] > 0)
  }

  function Intrusion(g: Graded): real {
    ShareOfTop(g.outcome.returned, set m | m in g.labels && g.labels[m] == 0)
  }

  predicate Positive(g: Graded) {
    g.outcome.expected == "retrieve"
  }

  predicate Negative(g: Graded) {
    g.outcome.expected == "abstain"
  }

  predicate Silent(g: Graded) {
    g.outcome.returned == []
  }

  predicate Clean(g: Graded) {
    g.outcome.failures == {}
  }

  function PositivePrecision(items: seq<Graded>): real {
    Mean(Select(items, Positive), Precision)
  }

  function Rate(items: seq<Graded>, p: Graded -> bool): real {
    if items == [] then 0.0 else CountIf(items, p) as real / (|items| as real)
  }

  function AbstentionRate(items: seq<Graded>): real {
    Rate(Select(items, Negative), Silent)
  }

  function IsolationRate(items: seq<Graded>): real {
    Rate(items, Clean)
  }

  /** The outcomes of one query kind. */
  function SliceOf(items: seq<Graded>, kind: string): seq<Graded>
    decreases |items|
  {
    if items == [] then []
    else
      var rest := SliceOf(items[..|items| - 1], kind);
      if items[|items| - 1].outcome.kind == kind then rest + [items[|items| - 1]] else rest
  }

  /** The floor on one slice. */
  predicate SliceFloor(items: seq<Graded>, kind: string) {
    var slice := SliceOf(items, kind);
    |Select(slice, Positive)| < 5 || PositivePrecision(slice) >= 0.60
  }

  /** The preregistered calibration constraints. */
  predicate Meets(items: seq<Graded>) {
    && AbstentionRate(items) >= 0.90 && Mean(items, Intrusion) <= 0.10 && IsolationRate(items) == 1.0
    && forall i :: 0 <= i < |items| ==> SliceFloor(items, items[i].outcome.kind)
  }

  // ---------------------------------------------------------------- folds

  const FOLDS := 5
  const GRID := 41

  function Threshold(k: nat): real {
    0.50 + 0.01 * (k as real)
  }

  /** Episodes 1, 2, 3, … go to folds 0, 1, 2, … in turn. */
  function FoldOf(q: Query): nat
    requires q.episode.Some?
  {
    (q.episode.value as int - 1) % FOLDS
  }

  ghost predicate Numbered(qs: seq<Query>) {
    forall i :: 0 <= i < |qs| ==> qs[i].episode.Some?
  }

  function InFold(qs: seq<Query>, fold: nat, inside: bool): seq<Query>
    requires forall i :: 0 <= i < |qs| ==> qs[i].episode.Some?
    decreases |qs|
  {
    if qs == [] then []
    else
      var rest := InFold(qs[..|qs| - 1], fold, inside);
      if (FoldOf(qs[|qs| - 1]) == fold) == inside then rest + [qs[|qs| - 1]] else rest
  }

  function Grade(d: Data, qs: seq<Query>, threshold: real): seq<Graded>
    decreases |qs|
  {
    if qs == [] then []
    else
      var q := qs[|qs| - 1];
      Grade(d, qs[..|qs| - 1], threshold)
          + [Graded(OutcomeAt(q, RankingOf(d, q.id), threshold, d.resultLimit), LabelsOf(d, q.id))]
  }

  /** The best of the first `n` thresholds that meets the constraints: highest precision, then
      highest threshold. */
  function BestOf(d: Data, qs: seq<Query>, n: nat): Option<nat> {
    if n == 0 then None
    else
      var before := BestOf(d, qs, n - 1);
      var items := Grade(d, qs, Threshold(n - 1));
      if !Meets(items) then before
      else if before.None? || PositivePrecision(items) >= PositivePrecision(Grade(d, qs, Threshold(before.value)))
      then Some(n - 1)
      else before
  }

  function Selected(d: Data, calibration: seq<Query>): Option<nat> {
    BestOf(d, calibration, GRID)
  }

  // ---------------------------------------------------------------- what a fold selects

  ghost predicate IsBest(d: Data, qs: seq<Query>, n: nat, best: Option<nat>) {
    match best
    case None => forall k :: 0 <= k < n ==> !Meets(Grade(d, qs, Threshold(k)))
    case Some(b) =>
      && b < n && Meets(Grade(d, qs, Threshold(b)))
      && forall k :: 0 <= k < n && Meets(Grade(d, qs, Threshold(k))) ==>
           var p, pb := PositivePrecision(Grade(d, qs, Threshold(k))), PositivePrecision(Grade(d, qs, Threshold(b)));
           p < pb || (p == pb && k <= b)
  }

  /** The selection is the passing threshold that is best by precision, ties to the higher one. */
  lemma {:induction false} BestIsBest(d: Data, qs: seq<Query>, n: nat)
    ensures IsBest(d, qs, n, BestOf(d, qs, n))
  {
    hide Meets, Grade, PositivePrecision, Threshold;
    if n > 0 {
      BestIsBest(d, qs, n - 1);
    }
  }

  /** Two data sets that say the same about these queries. */
  ghost predicate AgreeOn(a: Data, b: Data, qs: seq<Query>) {
    && a.resultLimit == b.resultLimit
    && forall i :: 0 <= i < |qs| ==>
         RankingOf(a, qs[i].id) == RankingOf(b, qs[i].id) && LabelsOf(a, qs[i].id) == LabelsOf(b, qs[i].id)
  }

  lemma {:induction false} SameGrades(a: Data, b: Data, qs: seq<Query>, threshold: real)
    requires AgreeOn(a, b, qs)
    ensures Grade(a, qs, threshold) == Grade(b, qs, threshold)
    decreases |qs|
  {
    hide OutcomeAt;
    if qs != [] {
      SameGrades(a, b, qs[..|qs| - 1], threshold);
    }
  }

  lemma {:induction false} SameBest(a: Data, b: Data, qs: seq<Query>, n: nat)
    requires AgreeOn(a, b, qs)
    ensures BestOf(a, qs, n) == BestOf(b, qs, n)
  {
    hide Meets, Grade, PositivePrecision, Threshold, AgreeOn;
    if n > 0 {
      SameBest(a, b, qs, n - 1);
      forall k | 0 <= k < n ensures Grade(a, qs, Threshold(k)) == Grade(b, qs, Threshold(k)) {
        SameGrades(a, b, qs, Threshold(k));
      }
      BestInRange(a, qs, n - 1);
    }
  }

  lemma {:induction false} BestInRange(d: Data, qs: seq<Query>, n: nat)
    ensures BestOf(d, qs, n).Some? ==> BestOf(d, qs, n).value < n
  {
    BestIsBest(d, qs, n);
  }

  lemma {:induction false} InFoldMembers(qs: seq<Query>, fold: nat, inside: bool, i: nat)
    requires Numbered(qs) && i < |InFold(qs, fold, inside)|
    ensures
      var q := InFold(qs, fold, inside)[i];
      q in qs && q.episode.Some? && (FoldOf(q) == fold) == inside
    decreases |qs|
  {
    var rest := InFold(qs[..|qs| - 1], fold, inside);
    assert qs == qs[..|qs| - 1] + [qs[|qs| - 1]];
    if i < |rest| {
      InFoldMembers(qs[..|qs| - 1], fold, inside, i);
    }
  }

  /** Calibration never selects on validation data. Any change to the rankings or the labels of
      the queries a fold validates on leaves that fold's selection as it was. */
  lemma SelectionIgnoresValidation(a: Data, b: Data, qs: seq<Query>, fold: nat)
    requires Numbered(qs) && a.resultLimit == b.resultLimit
    requires forall q :: q in qs && q.episode.Some? && FoldOf(q) != fold ==>
               RankingOf(a, q.id) == RankingOf(b, q.id) && LabelsOf(a, q.id) == LabelsOf(b, q.id)
    ensures Selected(a, InFold(qs, fold, false)) == Selected(b, InFold(qs, fold, false))
  {
    var calibration := InFold(qs, fold, false);
    forall i | 0 <= i < |calibration|
      ensures RankingOf(a, calibration[i].id) == RankingOf(b, calibration[i].id)
          && LabelsOf(a, calibration[i].id) == LabelsOf(b, calibration[i].id)
    {
      InFoldMembers(qs, fold, false, i);
    }
    hide BestOf;
    SameBest(a, b, calibration, GRID);
  }

  /** More: the validation queries themselves may be replaced, too. Two suites with the same
      calibration queries, about which the data agree, select the same threshold. */
  lemma SelectionSeesCalibrationOnly(a: Data, b: Data, qa: seq<Query>, qb: seq<Query>, fold: nat)
    requires Numbered(qa) && Numbered(qb) && InFold(qa, fold, false) == InFold(qb, fold, false)
    requires AgreeOn(a, b, InFold(qa, fold, false))
    ensures Selected(a, InFold(qa, fold, false)) == Selected(b, InFold(qb, fold, false))
  {
    SameBest(a, b, InFold(qa, fold, false), GRID);
  }

  // ---------------------------------------------------------------- completeness

  lemma FoldInRange(q: Query)
    requires q.episode.Some?
    ensures 0 <= FoldOf(q) < FOLDS
  {
  }

  function FoldSizes(qs: seq<Query>, n: nat): nat
    requires forall i :: 0 <= i < |qs| ==> qs[i].episode.Some?
  {
    if n == 0 then 0 else FoldSizes(qs, n - 1) + |InFold(qs, n - 1, true)|
  }

  lemma {:induction false} FoldSizesGrow(qs: seq<Query>, n: nat)
    requires Numbered(qs) && qs != []
    ensures FoldSizes(qs, n) == FoldSizes(qs[..|qs| - 1], n) + if FoldOf(qs[|qs| - 1]) < n then 1 else 0
  {
    if n > 0 {
      FoldSizesGrow(qs, n - 1);
    }
  }

  /** Every query is validated in exactly one fold, as often as it occurs, and calibrates in each
      of the others. */
  lemma {:induction false} FoldsPartition(qs: seq<Query>, q: Query, fold: nat, inside: bool)
    requires Numbered(qs)
    ensures multiset(InFold(qs, fold, inside))[q] ==
            if q.episode.Some? && (FoldOf(q) == fold) == inside then multiset(qs)[q] else 0
    decreases |qs|
  {
    hide FoldOf;
    if qs != [] {
      var rest, last := qs[..|qs| - 1], qs[|qs| - 1];
      FoldsPartition(rest, q, fold, inside);
      assert qs == rest + [last];
      assert multiset(qs)[q] == multiset(rest)[q] + multiset([last])[q];
    }
  }

  lemma {:induction false} FoldSizesAddUp(qs: seq<Query>)
    requires Numbered(qs)
    ensures FoldSizes(qs, FOLDS) == |qs|
    decreases |qs|
  {
    if qs != [] {
      FoldSizesAddUp(qs[..|qs| - 1]);
      FoldSizesGrow(qs, FOLDS);
      FoldInRange(qs[|qs| - 1]);
    } else {
      EmptySizes(FOLDS);
    }
  }

  lemma {:induction false} EmptySizes(n: nat)
    ensures FoldSizes([], n) == 0
  {
    if n > 0 {
      EmptySizes(n - 1);
    }
  }

  /** How many queries of the first `n` folds are validated out of fold. */
  function Validated(d: Data, qs: seq<Query>, n: nat): nat
    requires forall i :: 0 <= i < |qs| ==> qs[i].episode.Some?
  {
    if n == 0 then 0
    else Validated(d, qs, n - 1) + if Selected(d, InFold(qs, n - 1, false)).Some? then |InFold(qs, n - 1, true)| else 0
  }

  lemma {:induction false} ValidatedBound(d: Data, qs: seq<Query>, n: nat)
    requires Numbered(qs)
    ensures Validated(d, qs, n) <= FoldSizes(qs, n)
    ensures Validated(d, qs, n) == FoldSizes(qs, n) <==>
              forall f :: 0 <= f < n && InFold(qs, f, true) != [] ==> Selected(d, InFold(qs, f, false)).Some?
  {
    hide Selected, InFold;
    if n > 0 {
      ValidatedBound(d, qs, n - 1);
      assert (InFold(qs, n - 1, true) != [] ==> Selected(d, InFold(qs, n - 1, false)).Some?) <==>
             Validated(d, qs, n) - Validated(d, qs, n - 1) == FoldSizes(qs, n) - FoldSizes(qs, n - 1);
      assert (forall f :: 0 <= f < n && InFold(qs, f, true) != [] ==> Selected(d, InFold(qs, f, false)).Some?) <==>
             (forall f :: 0 <= f < n - 1 && InFold(qs, f, true) != [] ==> Selected(d, InFold(qs, f, false)).Some?)
             && (InFold(qs, n - 1, true) != [] ==> Selected(d, InFold(qs, n - 1, false)).Some?);
    }
  }

  /** The out-of-fold set is complete exactly when every fold that holds a query found a
      threshold. */
  lemma CompleteIffEveryFoldSelects(d: Data, qs: seq<Query>)
    requires Numbered(qs)
    ensures Validated(d, qs, FOLDS) == |qs| <==>
              forall f :: 0 <= f < FOLDS && InFold(qs, f, true) != [] ==> Selected(d, InFold(qs, f, false)).Some?
  {
    FoldSizesAddUp(qs);
    ValidatedBound(d, qs, FOLDS);
  }

  // ---------------------------------------------------------------- code

  /** `outcome_at_threshold`: keep, sort, cut, and collect the deterministic failures. */
  method ComputeOutcome(q: Query, ranked: seq<Scored>, threshold: real, limit: nat) returns (o: Outcome)
    ensures o == OutcomeAt(q, ranked, threshold, limit)
  {
    var kept: seq<Scored> := [];
    for n := 0 to |ranked|
      invariant kept == Above(ranked[..n], threshold)
    {
      assert ranked[..n + 1][..n] == ranked[..n];
      var x := Clamp(ranked[n].similarity);
      if x >= threshold {
        kept := kept + [Scored(x, ranked[n].entry)];
      }
    }
    assert ranked[..|ranked|] == ranked;
    var served := Sort(Ahead, kept);
    if |served| > limit {
      served := served[..limit];
    }
    var failures: set<Check> := {};
    for n := 0 to |served|
      invariant forall c :: c in failures <==> exists i :: 0 <= i < n && Violates(q, served[i].entry, c)
    {
      var e := served[n].entry;
      if Violates(q, e, OwnerCheck) { failures := failures + {OwnerCheck}; }
      if Violates(q, e, StateCheck) { failures := failures + {StateCheck}; }
      if Violates(q, e, SpaceCheck) { failures := failures + {SpaceCheck}; }
      if Violates(q, e, TypeCheck) { failures := failures + {TypeCheck}; }
    }
    o := Outcome(q.kind, q.expected, Ids(served), failures);
  }

  method GradeAll(d: Data, qs: seq<Query>, threshold: real) returns (items: seq<Graded>)
    ensures items == Grade(d, qs, threshold)
  {
    hide OutcomeAt;
    items := [];
    for n := 0 to |qs|
      invariant items == Grade(d, qs[..n], threshold)
    {
      assert qs[..n + 1][..n] == qs[..n];
      var o := ComputeOutcome(qs[n], RankingOf(d, qs[n].id), threshold, d.resultLimit);
      items := items + [Graded(o, LabelsOf(d, qs[n].id))];
    }
    assert qs[..|qs|] == qs;
  }

  /** Walks the grid and keeps the best passing threshold. */
  method SelectThreshold(d: Data, calibration: seq<Query>) returns (best: Option<nat>)
    ensures best == Selected(d, calibration) && IsBest(d, calibration, GRID, best)
  {
    hide Meets, Grade, PositivePrecision, Threshold;
    best := None;
    var precision := 0.0;
    for k := 0 to GRID
      invariant best == BestOf(d, calibration, k)
      invariant best.Some? ==> precision == PositivePrecision(Grade(d, calibration, Threshold(best.value)))
    {
      var items := GradeAll(d, calibration, Threshold(k));
      if Meets(items) {
        var p := PositivePrecision(items);
        if best.None? || p >= precision {
          best, precision := Some(k), p;
        }
      }
    }
    BestIsBest(d, calibration, GRID);
  }

  method Split(qs: seq<Query>, fold: nat) returns (calibration: seq<Query>, validation: seq<Query>)
    requires Numbered(qs)
    ensures calibration == InFold(qs, fold, false) && validation == InFold(qs, fold, true)
  {
    calibration, validation := [], [];
    for n := 0 to |qs|
      invariant calibration == InFold(qs[..n], fold, false) && validation == InFold(qs[..n], fold, true)
    {
      assert qs[..n + 1][..n] == qs[..n];
      if FoldOf(qs[n]) != fold {
        calibration := calibration + [qs[n]];
      } else {
        validation := validation + [qs[n]];
      }
    }
    assert qs[..|qs|] == qs;
  }

  /** The out-of-fold outcomes of the first `n` folds, in the order they are collected. */
  function OutOfFold(d: Data, qs: seq<Query>, n: nat): seq<Graded>
    requires forall i :: 0 <= i < |qs| ==> qs[i].episode.Some?
  {
    if n == 0 then []
    else
      var best := Selected(d, InFold(qs, n - 1, false));
      if best.Some? then OutOfFold(d, qs, n - 1) + Grade(d, InFold(qs, n - 1, true), Threshold(best.value))
      else OutOfFold(d, qs, n - 1)
  }

  lemma {:induction false} GradeLength(d: Data, qs: seq<Query>, threshold: real)
    ensures |Grade(d, qs, threshold)| == |qs|
    decreases |qs|
  {
    if qs != [] {
      GradeLength(d, qs[..|qs| - 1], threshold);
    }
  }

  lemma {:induction false} OutOfFoldLength(d: Data, qs: seq<Query>, n: nat)
    requires Numbered(qs)
    ensures |OutOfFold(d, qs, n)| == Validated(d, qs, n)
  {
    hide Selected, Grade;
    if n > 0 {
      OutOfFoldLength(d, qs, n - 1);
      var best := Selected(d, InFold(qs, n - 1, false));
      if best.Some? {
        GradeLength(d, InFold(qs, n - 1, true), Threshold(best.value));
      }
    }
  }

  /** The calibration: `None`, for an exception, when some episode id is not numbered or some query
      has no ranking or no labels or names a relevant memory that is not known. Each fold's threshold is
      selected on the other folds, and the run is complete exactly when every fold that holds a
      query found one. */
  method Calibrate(d: Data, qs: seq<Query>) returns (result: Option<(seq<Option<nat>>, seq<Graded>, bool)>)
    ensures result.Some? <==> Numbered(qs) && Covers(d, qs)
    ensures result.Some? ==>
              && |result.value.0| == FOLDS
              && (forall f :: 0 <= f < FOLDS ==> result.value.0[f] == Selected(d, InFold(qs, f, false)))
              && result.value.1 == OutOfFold(d, qs, FOLDS)
              && (result.value.2 <==>
                   forall f :: 0 <= f < FOLDS && InFold(qs, f, true) != [] ==> result.value.0[f].Some?)
  {
    hide Selected, Grade, FoldOf, InFold, Threshold, Validated;
    if !(forall i :: 0 <= i < |qs| ==> qs[i].episode.Some?) || !Covers(d, qs) {
      return None;
    }
    var folds: seq<Option<nat>>, oof: seq<Graded> := [], [];
    for f := 0 to FOLDS
      invariant |folds| == f && oof == OutOfFold(d, qs, f)
      invariant forall k :: 0 <= k < f ==> folds[k] == Selected(d, InFold(qs, k, false))
    {
      var calibration, validation := Split(qs, f);
      var best := SelectThreshold(d, calibration);
      folds := folds + [best];
      if best.Some? {
        var outcomes := GradeAll(d, validation, Threshold(best.value));
        oof := oof + outcomes;
      }
    }
    OutOfFoldLength(d, qs, FOLDS);
    CompleteIffEveryFoldSelects(d, qs);
    return Some((folds, oof, |oof| == |qs|));
  }
}
