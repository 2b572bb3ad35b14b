/** Recall: candidates per requested space, merged, deduplicated, thresholded and ranked, and
    the one-line specification this refines. */
module Recall {
  import opened Domain
  import opened MemoryStore
  import opened StoreInvariants
  import opened Lifecycle
  import opened RoundTrip
  import opened Ranking

  datatype SpacePolicy = SpacePolicy(defaultRecall: string, allowed: set<string>, allowGlobal: bool)

  predicate Allows(p: SpacePolicy, space: Option<string>, context: Option<string>) {
    || space == context
    || (space.None? && p.allowGlobal)
    || (p.defaultRecall == "explicit_allowlist" && space.Some? && space.value in p.allowed)
  }

  datatype RecallCommand = RecallCommand(
    tenant: string, owner: string, query: string, context: Option<string>, spaces: seq<Option<string>>,
    types: Option<set<MemoryType>>, states: set<MemoryState>, allowMentalNotes: bool, limit: int,
    candidateLimit: int, threshold: real, policy: SpacePolicy, revoked: bool, scopes: set<string>)

  /** The embedding provider's query side and the cosine of two vectors of one length, both
      arbitrary. */
  datatype Searcher =
    Searcher(profile: Descriptor, embedQuery: string -> Option<Vector>, cosine: (Vector, Vector) -> real)

  datatype Filter =
    Filter(owner: string, tenant: string, states: set<MemoryState>, types: Option<set<MemoryType>>,
        space: Option<string>)

  predicate Matches(m: Memory, f: Filter, profile: Descriptor) {
    && m.owner == f.owner && m.tenant == Some(f.tenant) && m.state in f.states
    && (f.types.Some? && f.types.value != {} ==> m.memoryType in f.types.value)
    && (f.space.Some? ==> m.space == f.space)
    && m.embedding == Some(profile)
  }

  datatype Scored = Scored(memory: Memory, similarity: real)

  /** Vectors of different lengths have cosine -1. */
  function Similarity(w: Searcher, a: Vector, b: Vector): real {
    ((if |a| != |b| then -1.0 else w.cosine(a, b)) + 1.0) / 2.0
  }

  function ScoreOf(s: Store, q: Vector, w: Searcher, id: Id): Scored
    requires id in s.memories && id in s.vectors
  {
    Scored(s.memories[id], Similarity(w, q, s.vectors[id]))
  }

  predicate Closer(a: Scored, b: Scored) {
    a.similarity > b.similarity || (a.similarity == b.similarity && a.memory.id < b.memory.id)
  }

  /** Every memory id has its own entry and its own vector. */
  ghost predicate Indexed(s: Store) {
    s.memories.Keys == s.vectors.Keys && forall id :: id in s.memories ==> s.memories[id].id == id
  }

  ghost function Candidates(s: Store, q: Vector, w: Searcher, f: Filter): set<Scored>
    requires Indexed(s)
  {
    set id | id in s.memories && Matches(s.memories[id], f, w.profile) :: ScoreOf(s, q, w, id)
  }

  // ---------------------------------------------------------------- ranking

  /** Round to six decimals, halves to even. */
  function Round6(x: real): real {
    var scaled := x * 1000000.0;
    var below := scaled.Floor;
    var rest := scaled - below as real;
    (if rest < 0.5 || (rest == 0.5 && below % 2 == 0) then below else below + 1) as real / 1000000.0
  }

  datatype Item = Item(memory: Memory, score: real, similarity: real, sameSpace: bool)

  function ItemOf(c: Scored, context: Option<string>): Item {
    var x := Clamp(c.similarity);
    Item(c.memory, Round6(0.75 * x + 0.15 * c.memory.importance + 0.10 * c.memory.confidence), Round6(x),
         c.memory.space == context)
  }

  predicate Better(a: Item, b: Item) {
    || a.score > b.score
    || (a.score == b.score && a.similarity > b.similarity)
    || (a.score == b.score && a.similarity == b.similarity && a.memory.id < b.memory.id)
  }

  predicate Admissible(c: Scored, r: RecallCommand) {
    (c.memory.memoryType == MentalNote ==> r.allowMentalNotes) && Clamp(c.similarity) >= r.threshold
  }

  // ---------------------------------------------------------------- requested spaces

  function Named(spaces: seq<Option<string>>): seq<Option<string>> {
    if spaces == [] then [] else (if spaces[0].Some? then [spaces[0]] else []) + Named(spaces[1..])
  }

  function Requested(r: RecallCommand): seq<Option<string>> {
    var base := if r.spaces != [] then r.spaces else [r.context];
    if None in base then (if Named(base) != [] then Named(base) else [None]) else base
  }

  /** The request names at least one space. */
  predicate NamesSpaces(r: RecallCommand) {
    || (r.context.Some? && r.spaces == [])
    || (exists i :: 0 <= i < |r.spaces| && r.spaces[i].Some?)
  }

  lemma {:induction false} NamedOnly(spaces: seq<Option<string>>)
    ensures forall x :: x in Named(spaces) <==> x in spaces && x.Some?
    ensures Named(spaces) != [] <==> exists i :: 0 <= i < |spaces| && spaces[i].Some?
  {
    if spaces != [] {
      NamedOnly(spaces[1..]);
      assert spaces == [spaces[0]] + spaces[1..];
    }
  }

  /** Requests that name a space search only named spaces; the others search without a space
      filter at all. */
  lemma RequestedSpaces(r: RecallCommand)
    ensures Requested(r) != []
    ensures NamesSpaces(r) ==> forall i :: 0 <= i < |Requested(r)| ==> Requested(r)[i].Some?
    ensures !NamesSpaces(r) ==> Requested(r) == [None]
  {
    var base := if r.spaces != [] then r.spaces else [r.context];
    NamedOnly(base);
    if NamesSpaces(r) {
      if r.spaces != [] {
        var i :| 0 <= i < |r.spaces| && r.spaces[i].Some?;
        assert r.spaces[i] in base && r.spaces[i] in Named(base);
      }
      forall i | 0 <= i < |Requested(r)| ensures Requested(r)[i].Some? {
        assert Requested(r)[i] in Requested(r);
      }
    } else {
      assert base[0] == None && base[0] in base;
    }
  }

  function FilterFor(r: RecallCommand, space: Option<string>): Filter {
    Filter(r.owner, r.tenant, r.states, r.types, space)
  }

  predicate SpaceGranted(r: RecallCommand, space: Option<string>) {
    space == r.context || Allows(r.policy, space, r.context)
  }

  /** The checks before anything is searched. */
  function RecallAllowed(r: RecallCommand): Result<()> {
    var _ :- Check("memory:read" in r.scopes, ScopeDenied);
    var _ :- Check(!Blank(r.tenant) && ValidOwner(r.owner), ValidationError);
    var _ :- Check(!r.revoked, ConnectionRevoked);
    var _ :- Check(!Blank(r.query), ValidationError);
    var _ :- Check(1 <= r.limit <= 100 && 1 <= r.candidateLimit <= 500, ValidationError);
    var _ :- Check(0.0 <= r.threshold <= 1.0, ValidationError);
    Check(forall i :: 0 <= i < |Requested(r)| ==> SpaceGranted(r, Requested(r)[i]), SpaceForbidden)
  }

  function QueryVector(r: RecallCommand, w: Searcher): Result<Vector> {
    var v := w.embedQuery(r.query);
    var _ :- Check(v.Some?, ProviderFailure);
    var _ :- Check(|v.value| == w.profile.dimension, ValidationError);
    Ok(v.value)
  }

  // ---------------------------------------------------------------- specification

  /** Filter the whole store: every admissible memory of a requested space. */
  ghost function Qualifying(s: Store, q: Vector, w: Searcher, r: RecallCommand): set<Item>
    requires Indexed(s)
  {
    set id | id in s.memories && Wanted(s, q, w, r, id) :: ItemOf(ScoreOf(s, q, w, id), r.context)
  }

  ghost predicate Wanted(s: Store, q: Vector, w: Searcher, r: RecallCommand, id: Id)
    requires Indexed(s) && id in s.memories
  {
    && Admissible(ScoreOf(s, q, w, id), r)
    && exists i :: 0 <= i < |Requested(r)| && Matches(s.memories[id], FilterFor(r, Requested(r)[i]), w.profile)
  }

  /** No requested space has more matches than the candidate limit. */
  ghost predicate Fits(s: Store, q: Vector, w: Searcher, r: RecallCommand)
    requires Indexed(s)
  {
    forall i :: 0 <= i < |Requested(r)| ==> |Candidates(s, q, w, FilterFor(r, Requested(r)[i]))| <= r.candidateLimit
  }

  // ---------------------------------------------------------------- orders

  lemma CloserIsStrict(s: Store, q: Vector, w: Searcher, all: set<Scored>)
    requires Indexed(s) && forall c :: c in all ==> c.memory.id in s.memories && c == ScoreOf(s, q, w, c.memory.id)
    ensures StrictOrder(Closer, all)
  {
    forall x, y | x in all && y in all && x != y ensures Closer(x, y) || Closer(y, x) {
      assert x.memory.id != y.memory.id;
    }
  }

  lemma BetterIsStrict(all: set<Item>)
    requires forall x, y :: x in all && y in all && x != y ==> x.memory.id != y.memory.id
    ensures StrictOrder(Better, all)
  {
  }

  // ---------------------------------------------------------------- code

  /** One repository search: scan, sort by similarity, cut. */
  method SearchCandidates(s: Store, q: Vector, w: Searcher, f: Filter, limit: nat) returns (found: seq<Scored>)
    requires Indexed(s)
    ensures IsTop(Closer, found, Candidates(s, q, w, f), limit)
  {
    var all: seq<Scored> := [];
    var todo := s.memories.Keys;
    while todo != {}
      invariant todo <= s.memories.Keys
      invariant Elements(all) ==
                set id | id in s.memories - todo && Matches(s.memories[id], f, w.profile) :: ScoreOf(s, q, w, id)
      invariant Distinct(all)
      invariant forall c :: c in all ==>
          c.memory.id in s.memories && c.memory.id !in todo && c == ScoreOf(s, q, w, c.memory.id)
    {
      var id :| id in todo;
      if Matches(s.memories[id], f, w.profile) {
        var c := ScoreOf(s, q, w, id);
        assert c !in all;
        ghost var before := Elements(all);
        all := all + [c];
        assert Elements(all) == before + {c};
      }
      todo := todo - {id};
    }
    assert Elements(all) == Candidates(s, q, w, f);
    CloserIsStrict(s, q, w, Elements(all));
    SortedTop(Closer, all, limit);
    found := Sort(Closer, all);
    if |found| > limit {
      found := found[..limit];
    }
  }

  /** Everything returned for the spaces before `n` and, when they fit, nothing missing. */
  ghost predicate Gathered(s: Store, q: Vector, w: Searcher, r: RecallCommand, n: nat, found: seq<Scored>)
    requires Indexed(s) && n <= |Requested(r)|
  {
    && (forall c :: c in found ==>
          exists i :: 0 <= i < n && c in Candidates(s, q, w, FilterFor(r, Requested(r)[i])))
    && (Fits(s, q, w, r) ==>
          forall i, c :: 0 <= i < n && c in Candidates(s, q, w, FilterFor(r, Requested(r)[i])) ==> c in found)
  }

  lemma StrictSubset<T(!new)>(before: (T, T) -> bool, all: set<T>, some: set<T>)
    requires StrictOrder(before, all) && some <= all
    ensures StrictOrder(before, some)
  {
  }

  lemma TopIsAll<T(!new)>(before: (T, T) -> bool, items: seq<T>, all: set<T>, limit: nat)
    requires IsTop(before, items, all, limit) && (|items| < limit || |all| == 0)
    ensures forall x :: x in all ==> x in items
  {
  }

  lemma {:induction false} TopCoversSmall<T(!new)>(before: (T, T) -> bool, items: seq<T>, all: set<T>, limit: nat)
    requires StrictOrder(before, all) && IsTop(before, items, all, limit) && |all| <= limit
    ensures forall x :: x in all ==> x in items
    decreases |items|
  {
    assert |items| <= limit && (items != [] ==> items[0] in all);
    hide StrictOrder, IsTop;
    if |items| < limit || items == [] {
      TopIsAll(before, items, all, limit);
    } else {
      TopTail(before, items, all, limit);
      StrictSubset(before, all, all - {items[0]});
      TopCoversSmall(before, items[1..], all - {items[0]}, limit - 1);
      assert items == [items[0]] + items[1..];
    }
  }

  lemma GatherOne(s: Store, q: Vector, w: Searcher, r: RecallCommand, n: nat, found: seq<Scored>, more: seq<Scored>)
    requires Indexed(s) && n < |Requested(r)| && Gathered(s, q, w, r, n, found) && r.candidateLimit >= 0
    requires IsTop(Closer, more, Candidates(s, q, w, FilterFor(r, Requested(r)[n])), r.candidateLimit)
    ensures Gathered(s, q, w, r, n + 1, found + more)
  {
    hide Candidates, Matches, Requested;
    var here := Candidates(s, q, w, FilterFor(r, Requested(r)[n]));
    if Fits(s, q, w, r) {
      CandidatesStrict(s, q, w, FilterFor(r, Requested(r)[n]));
      TopCoversSmall(Closer, more, here, r.candidateLimit);
    }
    forall c | c in found + more
      ensures exists i :: 0 <= i < n + 1 && c in Candidates(s, q, w, FilterFor(r, Requested(r)[i]))
    {
      if c in found {
        var i :| 0 <= i < n && c in Candidates(s, q, w, FilterFor(r, Requested(r)[i]));
      }
    }
  }

  /** One list per requested space: the closest `candidateLimit` of its candidates. */
  ghost predicate PartsUpTo(s: Store, q: Vector, w: Searcher, r: RecallCommand, n: nat, parts: seq<seq<Scored>>)
    requires Indexed(s) && n <= |Requested(r)| && r.candidateLimit >= 0
  {
    |parts| == n && forall i :: 0 <= i < n ==>
        IsTop(Closer, parts[i], Candidates(s, q, w, FilterFor(r, Requested(r)[i])), r.candidateLimit)
  }

  function Flat<T>(parts: seq<seq<T>>): seq<T>
    decreases |parts|
  {
    if parts == [] then [] else Flat(parts[..|parts| - 1]) + parts[|parts| - 1]
  }

  /** The items these lists offer for ranking. */
  ghost function Offered(found: seq<Scored>, r: RecallCommand): set<Item> {
    set c | c in found && Admissible(c, r) :: ItemOf(c, r.context)
  }

  lemma CandidatesStrict(s: Store, q: Vector, w: Searcher, f: Filter)
    requires Indexed(s)
    ensures StrictOrder(Closer, Candidates(s, q, w, f))
  {
    CloserIsStrict(s, q, w, Candidates(s, q, w, f));
  }

  method Gather(s: Store, q: Vector, w: Searcher, r: RecallCommand)
    returns (found: seq<Scored>, ghost parts: seq<seq<Scored>>)
    requires Indexed(s) && r.candidateLimit >= 0
    ensures Gathered(s, q, w, r, |Requested(r)|, found)
    ensures PartsUpTo(s, q, w, r, |Requested(r)|, parts) && found == Flat(parts)
  {
    found, parts := [], [];
    var spaces := Requested(r);
    for n := 0 to |spaces|
      invariant Gathered(s, q, w, r, n, found) && PartsUpTo(s, q, w, r, n, parts) && found == Flat(parts)
    {
      var more := SearchCandidates(s, q, w, FilterFor(r, spaces[n]), r.candidateLimit);
      GatherOne(s, q, w, r, n, found, more);
      hide Gathered, Candidates, IsTop;
      assert (parts + [more])[..n] == parts;
      found, parts := found + more, parts + [more];
    }
  }

  /** The second loop: drop repeats and inadmissible candidates, turn the rest into items. */
  method Merge(found: seq<Scored>, r: RecallCommand) returns (ranked: seq<Item>)
    requires forall a, b :: a in found && b in found && a.memory.id == b.memory.id ==> a == b
    ensures Elements(ranked) == Offered(found, r)
    ensures forall i, j :: 0 <= i < j < |ranked| ==> ranked[i].memory.id != ranked[j].memory.id
  {
    ranked := [];
    var seen: set<Id> := {};
    for n := 0 to |found|
      invariant forall i :: 0 <= i < n && Admissible(found[i], r) ==> ItemOf(found[i], r.context) in ranked
      invariant forall x :: x in ranked ==>
          exists i :: 0 <= i < n && Admissible(found[i], r) && x == ItemOf(found[i], r.context)
      invariant forall x :: x in ranked ==> x.memory.id in seen
      invariant forall id :: id in seen ==> exists i :: 0 <= i < n && found[i].memory.id == id
      invariant forall i, j :: 0 <= i < j < |ranked| ==> ranked[i].memory.id != ranked[j].memory.id
    {
      var c := found[n];
      if !(c.memory.id in seen || (c.memory.memoryType == MentalNote && !r.allowMentalNotes)) {
        seen := seen + {c.memory.id};
        if Clamp(c.similarity) >= r.threshold {
          ranked := ranked + [ItemOf(c, r.context)];
        }
      } else if c.memory.id in seen {
        var i :| 0 <= i < n && found[i].memory.id == c.memory.id;
        assert found[i] in found && c in found;
      }
    }
    forall x ensures x in Elements(ranked) <==> x in Offered(found, r) {
      if x in Offered(found, r) {
        var c :| c in found && Admissible(c, r) && x == ItemOf(c, r.context);
        var i :| 0 <= i < |found| && found[i] == c;
      }
    }
  }

  /** Every item the code could rank qualifies, and all of them are ranked when they fit. */
  lemma GatheredItems(s: Store, q: Vector, w: Searcher, r: RecallCommand, found: seq<Scored>)
    requires Indexed(s) && Gathered(s, q, w, r, |Requested(r)|, found)
    ensures Offered(found, r) <= Qualifying(s, q, w, r)
    ensures Fits(s, q, w, r) ==> Offered(found, r) == Qualifying(s, q, w, r)
  {
    hide Matches, Requested, Admissible, Fits;
    var items := Offered(found, r);
    forall x | x in items ensures x in Qualifying(s, q, w, r) {
      var c :| c in found && Admissible(c, r) && x == ItemOf(c, r.context);
      var i :| 0 <= i < |Requested(r)| && c in Candidates(s, q, w, FilterFor(r, Requested(r)[i]));
      var id :| id in s.memories && Matches(s.memories[id], FilterFor(r, Requested(r)[i]), w.profile)
          && c == ScoreOf(s, q, w, id);
      assert Wanted(s, q, w, r, id);
    }
    if Fits(s, q, w, r) {
      forall x | x in Qualifying(s, q, w, r) ensures x in items {
        var id :| id in s.memories && Wanted(s, q, w, r, id) && x == ItemOf(ScoreOf(s, q, w, id), r.context);
        var i :| 0 <= i < |Requested(r)| && Matches(s.memories[id], FilterFor(r, Requested(r)[i]), w.profile);
        assert ScoreOf(s, q, w, id) in Candidates(s, q, w, FilterFor(r, Requested(r)[i]));
      }
    }
  }

  lemma FoundById(s: Store, q: Vector, w: Searcher, r: RecallCommand, found: seq<Scored>)
    requires Indexed(s) && Gathered(s, q, w, r, |Requested(r)|, found)
    ensures forall a, b :: a in found && b in found && a.memory.id == b.memory.id ==> a == b
  {
    hide Matches, Requested, Fits;
    forall c | c in found ensures c.memory.id in s.memories && c == ScoreOf(s, q, w, c.memory.id) {
      var i :| 0 <= i < |Requested(r)| && c in Candidates(s, q, w, FilterFor(r, Requested(r)[i]));
    }
  }

  /** Recall. The result is the best `limit` of what the closest candidates of each space offer,
      and every item of it qualifies; when no requested space overflows the candidate limit, it is
      exactly the best `limit` of filtering the whole store. */
  method RecallMemories(s: Store, w: Searcher, r: RecallCommand)
    returns (result: Result<seq<Item>>, ghost parts: seq<seq<Scored>>)
    requires Indexed(s)
    ensures result.Ok? <==> RecallAllowed(r).Ok? && QueryVector(r, w).Ok?
    ensures result.Err? ==>
        result.error == if RecallAllowed(r).Err? then RecallAllowed(r).error else QueryVector(r, w).error
    ensures result.Ok? ==>
              && r.limit >= 1 && r.candidateLimit >= 1
              && Answer(s, QueryVector(r, w).value, w, r, parts, result.value)
              && forall x :: x in result.value ==> x in Qualifying(s, QueryVector(r, w).value, w, r)
    ensures result.Ok? && Fits(s, QueryVector(r, w).value, w, r) ==>
              IsTop(Better, result.value, Qualifying(s, QueryVector(r, w).value, w, r), r.limit)
  {
    parts := [];
    var allowed := RecallAllowed(r);
    if allowed.Err? {
      return Err(allowed.error), parts;
    }
    var query := QueryVector(r, w);
    if query.Err? {
      return Err(query.error), parts;
    }
    hide RecallAllowed, QueryVector, Qualifying, Fits, Gathered, Requested, Better, Admissible, ItemOf, PartsUpTo,
        Offered, Flat;
    LimitsPositive(r);
    var q := query.value;
    var found, lists := Gather(s, q, w, r);
    parts := lists;
    FoundById(s, q, w, r, found);
    var ranked := Merge(found, r);
    GatheredItems(s, q, w, r, found);
    DistinctItems(ranked);
    BetterIsStrict(Elements(ranked));
    SortedTop(Better, ranked, r.limit);
    var sorted := Sort(Better, ranked);
    var items := if |sorted| <= r.limit then sorted else sorted[..r.limit];
    TopMembers(items, Elements(ranked), Qualifying(s, q, w, r), r.limit);
    result := Ok(items);
  }

  lemma LimitsPositive(r: RecallCommand)
    requires RecallAllowed(r).Ok?
    ensures r.limit >= 1 && r.candidateLimit >= 1
  {
  }

  lemma DistinctItems(items: seq<Item>)
    requires forall i, j :: 0 <= i < j < |items| ==> items[i].memory.id != items[j].memory.id
    ensures Distinct(items)
    ensures forall x, y :: x in Elements(items) && y in Elements(items) && x != y ==> x.memory.id != y.memory.id
  {
  }

  lemma TopMembers(items: seq<Item>, all: set<Item>, wide: set<Item>, limit: nat)
    requires IsTop(Better, items, all, limit) && all <= wide
    ensures forall x :: x in items ==> x in wide
  {
  }

  // ---------------------------------------------------------------- space policy

  /** When the request names a space, every qualifying memory is in the context space or in a
      space the policy allows. */
  lemma NamedRecallStaysInPolicy(s: Store, q: Vector, w: Searcher, r: RecallCommand, x: Item)
    requires Indexed(s) && RecallAllowed(r).Ok? && x in Qualifying(s, q, w, r) && NamesSpaces(r)
    ensures SpaceGranted(r, x.memory.space)
  {
    RequestedSpaces(r);
    var id :| id in s.memories && Wanted(s, q, w, r, id) && x == ItemOf(ScoreOf(s, q, w, id), r.context);
    var i :| 0 <= i < |Requested(r)| && Matches(s.memories[id], FilterFor(r, Requested(r)[i]), w.profile);
    assert SpaceGranted(r, Requested(r)[i]);
  }

  /** When it names none, the space plays no part: whatever its space, an admissible memory that
      matches otherwise qualifies. So the policy binds exactly the requests that name a space. */
  lemma UnnamedRecallIgnoresSpaces(s: Store, q: Vector, w: Searcher, r: RecallCommand, id: Id)
    requires Indexed(s) && !NamesSpaces(r) && id in s.memories
    ensures
      var x := ScoreOf(s, q, w, id);
      Matches(s.memories[id], FilterFor(r, None), w.profile) && Admissible(x, r) ==>
          ItemOf(x, r.context) in Qualifying(s, q, w, r)
  {
    RequestedSpaces(r);
    if Matches(s.memories[id], FilterFor(r, None), w.profile) && Admissible(ScoreOf(s, q, w, id), r) {
      assert Requested(r)[0] == None;
      assert Wanted(s, q, w, r, id);
    }
  }

  lemma {:induction false} FlatMembers<T>(parts: seq<seq<T>>, c: T)
    requires c in Flat(parts)
    ensures exists i :: 0 <= i < |parts| && c in parts[i]
    decreases |parts|
  {
    if c !in parts[|parts| - 1] {
      FlatMembers(parts[..|parts| - 1], c);
      var i :| 0 <= i < |parts| - 1 && c in parts[..|parts| - 1][i];
      assert c in parts[i];
    }
  }

  lemma PartsAreDetermined(s: Store, q: Vector, w: Searcher, r: RecallCommand, a: seq<seq<Scored>>, b: seq<seq<Scored>>)
    requires Indexed(s) && r.candidateLimit >= 0
    requires PartsUpTo(s, q, w, r, |Requested(r)|, a) && PartsUpTo(s, q, w, r, |Requested(r)|, b)
    ensures a == b
  {
    hide IsTop, Candidates, Requested;
    forall i | 0 <= i < |Requested(r)| ensures a[i] == b[i] {
      CandidatesStrict(s, q, w, FilterFor(r, Requested(r)[i]));
      TopUnique(Closer, a[i], b[i], Candidates(s, q, w, FilterFor(r, Requested(r)[i])), r.candidateLimit);
    }
  }

  lemma OfferedById(s: Store, q: Vector, w: Searcher, r: RecallCommand, parts: seq<seq<Scored>>)
    requires Indexed(s) && r.candidateLimit >= 0 && PartsUpTo(s, q, w, r, |Requested(r)|, parts)
    ensures StrictOrder(Better, Offered(Flat(parts), r))
  {
    hide Flat, Requested, Matches, StrictOrder, Better, Clamp, Round6;
    forall c | c in Flat(parts) ensures c.memory.id in s.memories && c == ScoreOf(s, q, w, c.memory.id) {
      FlatMembers(parts, c);
      var i :| 0 <= i < |parts| && c in parts[i];
      assert c in Candidates(s, q, w, FilterFor(r, Requested(r)[i]));
    }
    BetterIsStrict(Offered(Flat(parts), r));
  }

  /** Neither order leaves a choice, so the request and the store determine the result, whether or
      not a space overflows the candidate limit. */
  lemma RecallIsDetermined(s: Store, q: Vector, w: Searcher, r: RecallCommand, partsA: seq<seq<Scored>>,
                           a: seq<Item>, partsB: seq<seq<Scored>>, b: seq<Item>)
    requires Indexed(s) && r.limit >= 0 && r.candidateLimit >= 0
    requires PartsUpTo(s, q, w, r, |Requested(r)|, partsA) && IsTop(Better, a, Offered(Flat(partsA), r), r.limit)
    requires PartsUpTo(s, q, w, r, |Requested(r)|, partsB) && IsTop(Better, b, Offered(Flat(partsB), r), r.limit)
    ensures a == b
  {
    hide *;
    PartsAreDetermined(s, q, w, r, partsA, partsB);
    OfferedById(s, q, w, r, partsA);
    TopUnique(Better, a, b, Offered(Flat(partsA), r), r.limit);
  }

  // ---------------------------------------------------------------- exactly when the policy holds

  /** What `RecallMemories` returns on this store, by its contract. */
  ghost predicate Answer(s: Store, q: Vector, w: Searcher, r: RecallCommand, parts: seq<seq<Scored>>,
                         items: seq<Item>) {
    && Indexed(s) && r.limit >= 0 && r.candidateLimit >= 0
    && PartsUpTo(s, q, w, r, |Requested(r)|, parts) && IsTop(Better, items, Offered(Flat(parts), r), r.limit)
  }

  /** Whatever the service has done before, every returned item lies in a granted space. */
  ghost predicate AnswersGranted(q: Vector, w: Searcher, r: RecallCommand) {
    forall steps: seq<Step>, parts: seq<seq<Scored>>, items: seq<Item> ::
      LegalRun(EMPTY, steps) && Answer(Run(EMPTY, steps), q, w, r, parts, items) ==> ItemsGranted(r, items)
  }

  ghost predicate ItemsGranted(r: RecallCommand, items: seq<Item>) {
    forall i :: 0 <= i < |items| ==> SpaceGranted(r, items[i].memory.space)
  }

  predicate TypeServed(r: RecallCommand, kind: MemoryType) {
    (r.types.Some? && r.types.value != {} ==> kind in r.types.value) && (kind == MentalNote ==> r.allowMentalNotes)
  }

  /** The request asks for a tenant a memory can have, for some state, for some type it may return,
      and for no similarity that no vector of the profile has. */
  ghost predicate Matchable(q: Vector, w: Searcher, r: RecallCommand) {
    && ValidLabel(Some(r.tenant)) && r.states != {}
    && (exists kind :: TypeServed(r, kind))
    && exists v :: |v| == |q| && Clamp(Similarity(w, q, v)) >= r.threshold
  }

  lemma OfferedQualifies(s: Store, q: Vector, w: Searcher, r: RecallCommand, parts: seq<seq<Scored>>, x: Item)
    requires Indexed(s) && r.candidateLimit >= 0 && PartsUpTo(s, q, w, r, |Requested(r)|, parts)
    requires x in Offered(Flat(parts), r)
    ensures x in Qualifying(s, q, w, r)
  {
    hide Flat, Requested, Matches, Admissible;
    var c :| c in Flat(parts) && Admissible(c, r) && x == ItemOf(c, r.context);
    FlatMembers(parts, c);
    var i :| 0 <= i < |parts| && c in parts[i];
    assert c in Candidates(s, q, w, FilterFor(r, Requested(r)[i]));
    var id :| id in s.memories && Matches(s.memories[id], FilterFor(r, Requested(r)[i]), w.profile)
        && c == ScoreOf(s, q, w, id);
    assert Wanted(s, q, w, r, id);
  }

  lemma QualifyingIsMatchable(s: Store, q: Vector, w: Searcher, r: RecallCommand, x: Item)
    requires Indexed(s) && MemoriesValid(s) && x in Qualifying(s, q, w, r)
    ensures Matchable(q, w, r)
  {
    hide Requested, Clamp, Similarity, ValidMemory, ValidLabel, Round6;
    var id :| id in s.memories && Wanted(s, q, w, r, id) && x == ItemOf(ScoreOf(s, q, w, id), r.context);
    var i :| 0 <= i < |Requested(r)| && Matches(s.memories[id], FilterFor(r, Requested(r)[i]), w.profile);
    var v := s.vectors[id];
    assert Clamp(Similarity(w, q, v)) >= r.threshold;
    assert TypeServed(r, s.memories[id].memoryType) && s.memories[id].state in r.states;
    ValidTenant(s.memories[id]);
    SomeOfLength(q, w, v, r.threshold);
  }

  lemma ValidTenant(m: Memory)
    requires ValidMemory(m)
    ensures ValidLabel(m.tenant)
  {
    hide Blank, Strip;
  }

  /** A vector of another length reaches no threshold that one of this length does not. */
  lemma SomeOfLength(q: Vector, w: Searcher, v: Vector, threshold: real)
    requires Clamp(Similarity(w, q, v)) >= threshold
    ensures exists u :: |u| == |q| && Clamp(Similarity(w, q, u)) >= threshold
  {
    if |v| != |q| {
      assert Clamp(Similarity(w, q, q)) >= 0.0 >= threshold;
    }
  }

  lemma {:induction false} LongerThanAll(texts: set<string>) returns (n: nat)
    ensures forall t :: t in texts ==> |t| <= n
    decreases |texts|
  {
    n := 0;
    if texts != {} {
      var t :| t in texts;
      n := LongerThanAll(texts - {t});
      n := if |t| > n then |t| else n;
    }
  }

  /** No policy of this form grants every space: a valid name padded with blanks is another one. */
  lemma SomeSpaceIsForeign(r: RecallCommand) returns (space: string)
    ensures !SpaceGranted(r, Some(space)) && ValidLabel(Some(space))
  {
    var n := LongerThanAll(r.policy.allowed + if r.context.Some? then {r.context.value} else {});
    var blanks := seq(n, i => ' ');
    space := "x" + blanks;
    assert |space| == n + 1;
    assert !IsSpace(space[0]);
    PaddingIsStripped("x", blanks);
    assert Strip(space) == "x";
  }

  lemma {:induction false} PaddingIsStripped(text: string, blanks: string)
    requires text != "" && !IsSpace(text[|text| - 1]) && Blank(blanks)
    ensures TrimRight(text + blanks) == text
    decreases |blanks|
  {
    if blanks == "" {
      assert text + blanks == text;
    } else {
      assert (text + blanks)[..|text + blanks| - 1] == text + blanks[..|blanks| - 1];
      PaddingIsStripped(text, blanks[..|blanks| - 1]);
    }
  }

  function ForeignMemory(r: RecallCommand, w: Searcher, state: MemoryState, kind: MemoryType, space: string): Memory {
    Memory(0, r.owner, "x", kind, 0.5, 0.5, state, 1, 0, 0, None, Some(space),
           Provenance(FromImport, 0, None, None, [], None, None, None, None),
           Some(w.profile), None, Some(r.tenant), None)
  }

  function ForeignRecord(m: Memory, v: Vector): Record {
    Record(m, [Snapshot(m, "created")], [], Some(v), None)
  }

  lemma ForeignIsValid(r: RecallCommand, w: Searcher, state: MemoryState, kind: MemoryType, space: string, v: Vector)
    requires ValidOwner(r.owner) && ValidLabel(Some(r.tenant)) && ValidLabel(Some(space)) && |v| == w.profile.dimension
    ensures Alone(r.owner, ForeignRecord(ForeignMemory(r, w, state, kind, space), v))
  {
    assert Normalise("x") == "x" by {
      assert "x" + "" == "x" && Words("") == [];
      WordsStep("x", "");
    }
    assert !IsSpace("x"[0]);
    hide Normalise, ValidOwner;
  }

  /** A service that has imported one memory, of a foreign space, answers with it. */
  lemma ForeignAnswer(q: Vector, w: Searcher, r: RecallCommand)
    requires RecallAllowed(r).Ok? && !NamesSpaces(r) && Matchable(q, w, r) && |q| == w.profile.dimension
    ensures !AnswersGranted(q, w, r)
  {
    var space := SomeSpaceIsForeign(r);
    var state :| state in r.states;
    var kind :| TypeServed(r, kind);
    var v :| |v| == |q| && Clamp(Similarity(w, q, v)) >= r.threshold;
    var m := ForeignMemory(r, w, state, kind, space);
    var env := Env(0, Provider(w.profile, text => None), 1);
    assert ValidOwner(r.owner);
    ForeignIsValid(r, w, state, kind, space, v);
    RequestedSpaces(r);
    LimitsPositive(r);
    ImportedAnswer(q, w, r, env, m, v);
  }

  lemma ImportedAnswer(q: Vector, w: Searcher, r: RecallCommand, env: Env, m: Memory, v: Vector)
    requires Alone(r.owner, ForeignRecord(m, v)) && m.id == 0 && !SpaceGranted(r, m.space)
    requires Requested(r) == [None] && Matches(m, FilterFor(r, None), w.profile)
    requires Admissible(Scored(m, Similarity(w, q, v)), r)
    requires r.limit >= 1 && r.candidateLimit >= 1
    ensures !AnswersGranted(q, w, r)
  {
    var steps := [Step(env, Import(r.owner, [ForeignRecord(m, v)]))];
    ImportOne(env, r.owner, ForeignRecord(m, v));
    OneStep(steps[0]);
    var s := Run(EMPTY, steps);
    var c := Scored(m, Similarity(w, q, v));
    hide SpaceGranted, Requested, Similarity, Matches, Admissible, Alone, Apply, LegalStep, Run, LegalRun;
    OnlyAnswer(s, q, w, r, c);
    var parts, items := [[c]], [ItemOf(c, r.context)];
    assert Answer(s, q, w, r, parts, items) && LegalRun(EMPTY, steps);
    assert items[0].memory == m && !ItemsGranted(r, items);
  }

  lemma OneStep(step: Step)
    requires LegalStep(EMPTY, step)
    ensures LegalRun(EMPTY, [step]) && Run(EMPTY, [step]) == Apply(EMPTY, step.env, step.command)
  {
    hide LegalStep, Apply;
    assert [step][..0] == [] && Run(EMPTY, []) == EMPTY;
  }

  lemma OnlyAnswer(s: Store, q: Vector, w: Searcher, r: RecallCommand, c: Scored)
    requires s.memories.Keys == s.vectors.Keys == {0} && s.memories[0].id == 0 && c == ScoreOf(s, q, w, 0)
    requires Requested(r) == [None] && Matches(s.memories[0], FilterFor(r, None), w.profile) && Admissible(c, r)
    requires r.limit >= 1 && r.candidateLimit >= 1
    ensures Answer(s, q, w, r, [[c]], [ItemOf(c, r.context)])
  {
    hide Requested, Matches, Admissible, ItemOf, Better;
    assert Candidates(s, q, w, FilterFor(r, None)) == {c};
    assert [[c]][..0] == [] && [] + [c] == [c];
    assert Flat([[c]]) == [c];
    assert Offered([c], r) == {ItemOf(c, r.context)};
  }

  /** Exactly when recall respects the space policy, whatever the service has done before: the request
      names a space, or it can match nothing at all. */
  lemma PolicyHoldsIff(q: Vector, w: Searcher, r: RecallCommand)
    requires RecallAllowed(r).Ok? && |q| == w.profile.dimension
    ensures AnswersGranted(q, w, r) <==> NamesSpaces(r) || !Matchable(q, w, r)
  {
    hide RecallAllowed, NamesSpaces, Matchable, SpaceGranted, Qualifying, Offered, Flat, PartsUpTo, Requested, Better,
      Run, LegalRun, MemoriesValid, Inv, Similarity;
    if NamesSpaces(r) || !Matchable(q, w, r) {
      forall steps: seq<Step>, parts: seq<seq<Scored>>, items: seq<Item>
        | LegalRun(EMPTY, steps) && Answer(Run(EMPTY, steps), q, w, r, parts, items)
        ensures ItemsGranted(r, items)
      {
        ReachableValid(steps);
        var s := Run(EMPTY, steps);
        forall i | 0 <= i < |items| ensures SpaceGranted(r, items[i].memory.space) {
          OfferedQualifies(s, q, w, r, parts, items[i]);
          QualifyingIsMatchable(s, q, w, r, items[i]);
          NamedRecallStaysInPolicy(s, q, w, r, items[i]);
        }
      }
    } else {
      ForeignAnswer(q, w, r);
    }
  }

  /** A well-formed request of one owner that names no space and allows no other. */
  function LooseRequest(): RecallCommand {
    RecallCommand("tenant", "owner", "query", None, [], None, {Active}, false, 1, 1, 0.0,
                  SpacePolicy("same_space_only", {}, false), false, {"memory:read"})
  }

  lemma LooseRequestIsAllowed()
    ensures RecallAllowed(LooseRequest()).Ok? && !NamesSpaces(LooseRequest())
  {
    assert !IsSpace("tenant"[0]) && !IsSpace("owner"[0]) && !IsSpace("query"[0]);
    StripShrinks("owner");
    RequestedSpaces(LooseRequest());
  }

  /** That request is allowed, and a service that has imported one memory of another space answers
      with it. */
  lemma UnnamedRecallCanLeavePolicy(q: Vector, w: Searcher)
    requires w.cosine(q, q) == 1.0 && |q| == w.profile.dimension
    ensures RecallAllowed(LooseRequest()).Ok? && !AnswersGranted(q, w, LooseRequest())
  {
    LooseRequestIsAllowed();
    hide RecallAllowed, NamesSpaces, AnswersGranted;
    assert |q| == |q| && Clamp(Similarity(w, q, q)) >= LooseRequest().threshold;
    assert TypeServed(LooseRequest(), Fact) && Active in LooseRequest().states;
    assert ValidLabel(Some("tenant")) by {
      assert !IsSpace("tenant"[0]);
      StripShrinks("tenant");
    }
    ForeignAnswer(q, w, LooseRequest());
  }

  lemma {:induction false} StripShrinks(s: string)
    ensures |Strip(s)| <= |s|
  {
    LeftShrinks(s);
    RightShrinks(TrimLeft(s));
  }

  lemma LeftShrinks(s: string)
    ensures |TrimLeft(s)| <= |s|
  {
  }

  lemma RightShrinks(s: string)
    ensures |TrimRight(s)| <= |s|
  {
  }
}
