/** What recall's answer is, said of scores and fields alone. */
module RecallMeaning {
  import opened Domain
  import opened MemoryStore
  import opened Ranking
  import opened Recall

  // ---------------------------------------------------------------- scores

  ghost predicate Near(a: real, b: real) {
    -0.0000005 <= a - b <= 0.0000005
  }

  /** Rounding to six decimals moves a number by at most half a millionth, and to a whole number of
      millionths, which is even when it was in the middle between two. */
  lemma RoundMeans(x: real) returns (n: int)
    ensures Round6(x) == n as real / 1000000.0 && Near(Round6(x), x)
    ensures Round6(x) - x == 0.0000005 || Round6(x) - x == -0.0000005 ==> n % 2 == 0
  {
    var scaled := x * 1000000.0;
    var below := scaled.Floor;
    var rest := scaled - below as real;
    n := if rest < 0.5 || (rest == 0.5 && below % 2 == 0) then below else below + 1;
    assert Round6(x) - x == (n as real - scaled) / 1000000.0;
    assert -0.5 <= n as real - scaled <= 0.5;
  }

  lemma RoundMonotone(x: real, y: real)
    requires x <= y
    ensures Round6(x) <= Round6(y)
  {
    var a, b := x * 1000000.0, y * 1000000.0;
    assert a <= b;
    assert a.Floor <= b.Floor;
  }

  /** The similarity of a stored vector, cut to 0..1. */
  ghost predicate CutTo(x: real, raw: real) {
    && 0.0 <= x <= 1.0 && (0.0 <= raw <= 1.0 ==> x == raw) && (raw < 0.0 ==> x == 0.0) && (raw > 1.0 ==> x == 1.0)
  }

  /** The cut similarity of the memory's vector to the query. */
  ghost function SimilarityOf(s: Store, q: Vector, w: Searcher, id: Id): (x: real)
    requires id in s.vectors
    ensures
      var cosine := if |q| != |s.vectors[id]| then -1.0 else w.cosine(q, s.vectors[id]);
      CutTo(x, (cosine + 1.0) / 2.0)
  {
    Clamp(Similarity(w, q, s.vectors[id]))
  }

  function Weighted(x: real, m: Memory): real {
    0.75 * x + 0.15 * m.importance + 0.10 * m.confidence
  }

  /** The item shows the memory with its weighted score and its similarity, each rounded. */
  ghost predicate ShowsMemory(x: Item, s: Store, q: Vector, w: Searcher, r: RecallCommand, id: Id)
    requires id in s.memories && id in s.vectors
  {
    && x.memory == s.memories[id] && (x.sameSpace <==> s.memories[id].space == r.context)
    && Near(x.similarity, SimilarityOf(s, q, w, id))
         && Near(x.score, Weighted(SimilarityOf(s, q, w, id), s.memories[id]))
  }

  lemma ItemMeans(s: Store, q: Vector, w: Searcher, r: RecallCommand, id: Id)
    requires Indexed(s) && id in s.memories
    ensures ShowsMemory(ItemOf(ScoreOf(s, q, w, id), r.context), s, q, w, r, id)
  {
    var x := SimilarityOf(s, q, w, id);
    var _ := RoundMeans(x);
    var _ := RoundMeans(Weighted(x, s.memories[id]));
    hide Round6, Similarity, Clamp;
  }

  // ---------------------------------------------------------------- which memories

  /** The memory is in a space the request asks for; a request that names none asks for all. */
  ghost predicate SpaceAsked(r: RecallCommand, space: Option<string>) {
    if r.spaces == [] then r.context.Some? ==> space == r.context
    else (exists x :: x in r.spaces && x.Some?) ==> space.Some? && space in r.spaces
  }

  /** Owner, tenant, state, type, profile, mental-note rule, threshold and space. */
  ghost predicate Meets(s: Store, q: Vector, w: Searcher, r: RecallCommand, id: Id) {
    && id in s.memories && id in s.vectors
    && var m := s.memories[id];
       && m.owner == r.owner && m.tenant == Some(r.tenant) && m.state in r.states && m.embedding == Some(w.profile)
       && (r.types.Some? && r.types.value != {} ==> m.memoryType in r.types.value)
       && (m.memoryType == MentalNote ==> r.allowMentalNotes)
       && SimilarityOf(s, q, w, id) >= r.threshold && SpaceAsked(r, m.space)
  }

  lemma RequestedMeans(r: RecallCommand, space: Option<string>)
    ensures SpaceAsked(r, space) <==>
              exists i :: 0 <= i < |Requested(r)| && (Requested(r)[i].Some? ==> space == Requested(r)[i])
  {
    var base := if r.spaces != [] then r.spaces else [r.context];
    NamedOnly(base);
    var asked := Requested(r);
    RequestedSpaces(r);
    if NamesSpaces(r) {
      if r.spaces == [] {
        assert base == [r.context] && asked == base;
        assert SpaceAsked(r, space) <==> space == asked[0];
      } else {
        assert exists x :: x in r.spaces && x.Some?;
        forall x ensures x in asked <==> x in r.spaces && x.Some? {
          if None !in base && x in asked {
            var i :| 0 <= i < |asked| && asked[i] == x;
          }
        }
        if SpaceAsked(r, space) {
          var i :| 0 <= i < |asked| && asked[i] == space;
        }
      }
    } else {
      assert asked == [None] && asked[0].None?;
    }
  }

  /** What qualifies is exactly what meets the request. */
  lemma WantedMeans(s: Store, q: Vector, w: Searcher, r: RecallCommand, id: Id)
    requires Indexed(s) && id in s.memories
    ensures Wanted(s, q, w, r, id) <==> Meets(s, q, w, r, id)
  {
    RequestedMeans(r, s.memories[id].space);
    hide Requested, SpaceAsked, Similarity, Clamp;
    var asked := Requested(r);
    forall i | 0 <= i < |asked|
      ensures Matches(s.memories[id], FilterFor(r, asked[i]), w.profile) <==>
                && Matches(s.memories[id], FilterFor(r, None), w.profile)
                && (asked[i].Some? ==> s.memories[id].space == asked[i])
    {
    }
  }

  // ---------------------------------------------------------------- the answer

  /** Higher scores first, then higher similarities, then smaller ids. */
  ghost predicate InOrder(items: seq<Item>) {
    forall i, j :: 0 <= i < j < |items| ==>
      && items[i].score >= items[j].score
      && (items[i].score == items[j].score ==> items[i].similarity >= items[j].similarity)
      && (items[i].score == items[j].score && items[i].similarity == items[j].similarity ==>
            items[i].memory.id < items[j].memory.id)
  }

  lemma OrderMeans(items: seq<Item>)
    requires Ordered(Better, items)
    ensures InOrder(items)
  {
  }

  /** Every item shows a memory that meets the request, and the items are in order. */
  lemma AnswerMeans(s: Store, q: Vector, w: Searcher, r: RecallCommand, parts: seq<seq<Scored>>, items: seq<Item>)
    requires Answer(s, q, w, r, parts, items)
    ensures InOrder(items) && |items| <= r.limit
    ensures forall i :: 0 <= i < |items| ==>
              var id := items[i].memory.id;
              Meets(s, q, w, r, id) && ShowsMemory(items[i], s, q, w, r, id)
  {
    OrderMeans(items);
    hide PartsUpTo, Meets, ShowsMemory, Flat, Better, InOrder, ItemOf, ScoreOf;
    forall i | 0 <= i < |items|
      ensures Meets(s, q, w, r, items[i].memory.id) && ShowsMemory(items[i], s, q, w, r, items[i].memory.id)
    {
      OfferedQualifies(s, q, w, r, parts, items[i]);
      QualifiedShows(s, q, w, r, items[i]);
    }
  }

  lemma QualifiedShows(s: Store, q: Vector, w: Searcher, r: RecallCommand, x: Item)
    requires Indexed(s) && x in Qualifying(s, q, w, r)
    ensures Meets(s, q, w, r, x.memory.id) && ShowsMemory(x, s, q, w, r, x.memory.id)
  {
    hide Wanted, Meets, Round6, Similarity, Clamp;
    var id :| id in s.memories && Wanted(s, q, w, r, id) && x == ItemOf(ScoreOf(s, q, w, id), r.context);
    WantedMeans(s, q, w, r, id);
    ItemMeans(s, q, w, r, id);
  }

  /** When no space overflows the candidate limit, a memory that meets the request and is not returned
      is left out for the limit alone, and scores at most what every returned one scores. */
  lemma LeftOutScoresLess(s: Store, q: Vector, w: Searcher, r: RecallCommand, items: seq<Item>,
                          id: Id) returns (x: Item)
    requires Indexed(s) && r.limit >= 0 && IsTop(Better, items, Qualifying(s, q, w, r), r.limit)
    requires Meets(s, q, w, r, id) && forall i :: 0 <= i < |items| ==> items[i].memory.id != id
    ensures ShowsMemory(x, s, q, w, r, id) && |items| == r.limit
    ensures forall i :: 0 <= i < |items| ==> x.score <= items[i].score
  {
    x := ItemOf(ScoreOf(s, q, w, id), r.context);
    WantedMeans(s, q, w, r, id);
    ItemMeans(s, q, w, r, id);
    hide Wanted, Meets, Round6, Similarity, Clamp, ShowsMemory;
    assert x in Qualifying(s, q, w, r) && x.memory.id == id;
    assert x !in items;
  }

  /** When a space overflows, the search keeps its closest memories: in order of similarity and then id,
      and none left out is closer than one kept. */
  lemma ClosestAreKept(s: Store, q: Vector, w: Searcher, f: Filter, found: seq<Scored>, limit: nat, c: Scored)
    requires Indexed(s) && IsTop(Closer, found, Candidates(s, q, w, f), limit)
    ensures forall i, j :: 0 <= i < j < |found| ==>
              && found[i].similarity >= found[j].similarity
              && (found[i].similarity == found[j].similarity ==> found[i].memory.id < found[j].memory.id)
    ensures c in Candidates(s, q, w, f) && c !in found ==>
              |found| == limit && forall i :: 0 <= i < |found| ==> c.similarity <= found[i].similarity
  {
    hide Candidates;
  }

  /** Two memories of a store that differ in nothing but similarity: if both are returned, the more
      similar one stands first. */
  lemma CloserComesFirst(s: Store, q: Vector, w: Searcher, r: RecallCommand, parts: seq<seq<Scored>>, items: seq<Item>,
                         i: nat, j: nat)
    requires Answer(s, q, w, r, parts, items) && i < j < |items|
    requires items[i].memory.importance == items[j].memory.importance
    requires items[i].memory.confidence == items[j].memory.confidence
    ensures items[i].memory.id in s.vectors && items[j].memory.id in s.vectors
    ensures SimilarityOf(s, q, w, items[i].memory.id) >= SimilarityOf(s, q, w, items[j].memory.id) - 0.000002
  {
    AnswerMeans(s, q, w, r, parts, items);
    hide PartsUpTo, Flat, Better, ItemOf, ScoreOf, Clamp, Similarity;
  }

  // ---------------------------------------------------------------- more similar never ranks lower

  /** `a` stands before `b` in every answer that has both. */
  ghost predicate Before(a: Item, b: Item) {
    InOrder([a, b]) && a.memory.id != b.memory.id
  }

  /** Raising the similarity of one memory, all else equal, never moves it behind another. */
  lemma MoreSimilarNotLower(m: Memory, x: real, y: real, context: Option<string>, other: Item)
    requires x <= y && Before(ItemOf(Scored(m, x), context), other)
    ensures Before(ItemOf(Scored(m, y), context), other)
  {
    var a, b := ItemOf(Scored(m, x), context), ItemOf(Scored(m, y), context);
    RoundMonotone(Clamp(x), Clamp(y));
    RoundMonotone(0.75 * Clamp(x) + 0.15 * m.importance + 0.10 * m.confidence,
                  0.75 * Clamp(y) + 0.15 * m.importance + 0.10 * m.confidence);
    hide Round6;
    assert InOrder([a, other]);
    assert [a, other][0] == a && [a, other][1] == other;
    assert a.score >= other.score;
  }

  // ---------------------------------------------------------------- what is refused

  /** The space is the one of the context, or the policy grants it. */
  ghost predicate MayRead(r: RecallCommand, space: Option<string>) {
    || space == r.context
    || (space == None && r.policy.allowGlobal)
    || (space.Some? && r.policy.defaultRecall == "explicit_allowlist" && space.value in r.policy.allowed)
  }

  /** Recall is refused exactly for these reasons. */
  lemma AllowedMeans(r: RecallCommand)
    ensures RecallAllowed(r).Ok? <==>
              && "memory:read" in r.scopes && !Blank(r.tenant) && ValidOwner(r.owner) && !r.revoked && !Blank(r.query)
              && 1 <= r.limit <= 100 && 1 <= r.candidateLimit <= 500 && 0.0 <= r.threshold <= 1.0
              && (forall space :: space in r.spaces && space.Some? ==> MayRead(r, space))
              && (!NamesSpaces(r) ==> MayRead(r, None))
  {
    RequestedSpaces(r);
    NamedOnly(if r.spaces != [] then r.spaces else [r.context]);
    hide Blank, ValidOwner;
    var asked := Requested(r);
    forall i ensures 0 <= i < |asked| ==> (SpaceGranted(r, asked[i]) <==> MayRead(r, asked[i])) {
    }
    AskedSpaces(r);
    hide Requested, SpaceGranted, MayRead;
    assert (forall i :: 0 <= i < |asked| ==> SpaceGranted(r, asked[i])) <==>
           (forall space :: space in asked ==> MayRead(r, space));
  }

  lemma AskedSpaces(r: RecallCommand)
    ensures
      var asked := Requested(r);
      (forall space :: space in asked ==> MayRead(r, space)) <==>
        (forall space :: space in r.spaces && space.Some? ==> MayRead(r, space))
            && (!NamesSpaces(r) ==> MayRead(r, None))
  {
    var base := if r.spaces != [] then r.spaces else [r.context];
    NamedOnly(base);
    RequestedSpaces(r);
    var asked := Requested(r);
    if NamesSpaces(r) {
      if r.spaces == [] {
        assert asked == [r.context];
      } else {
        forall x ensures x in asked <==> x in r.spaces && x.Some? {
          if None !in base && x in asked {
            var i :| 0 <= i < |asked| && asked[i] == x;
          }
        }
      }
    } else {
      assert forall x :: x in r.spaces ==> x.None? by {
        forall x | x in r.spaces ensures x.None? {
          var i :| 0 <= i < |r.spaces| && r.spaces[i] == x;
        }
      }
    }
  }
}
