/** The resumable re-embedding job of src/omp/application/reembedding.py over the two tables it
    reads and writes in PostgreSQL, and the all-or-nothing cutover. */
module Reembedding {
  import opened Domain

  /** The columns of `memories` that the job touches. */
  datatype Row = Row(owner: string, tenant: Option<nat>, version: int, content: string, embedding: Descriptor)

  /** Primary key and columns of `memory_embeddings_semantic`. */
  datatype VectorKey = VectorKey(id: Id, profileId: string, profileVersion: string)

  datatype VectorRow =
    VectorRow(tenant: Option<nat>, sourceVersion: int, dimension: nat, metric: string, vector: Vector)

  datatype Tables = Tables(memories: map<Id, Row>, semantic: map<VectorKey, VectorRow>)

  /** The tenant the session is bound to, if any. */
  datatype Scope = Scope(owner: string, tenant: Option<nat>)

  datatype Provider = Provider(profile: Descriptor, embed: string -> Option<Vector>)

  const LEGACY := 64
  const SEMANTIC := 384

  /** The table's check constraint. */
  ghost predicate SemanticTable(t: Tables) {
    forall k :: k in t.semantic ==> t.semantic[k].dimension == SEMANTIC
  }

  predicate InScope(r: Row, s: Scope) {
    r.owner == s.owner && (s.tenant.None? || r.tenant == s.tenant)
  }

  function Eligible(t: Tables, s: Scope): set<Id> {
    set id | id in t.memories && InScope(t.memories[id], s) && t.memories[id].embedding.dimension == LEGACY
  }

  predicate Beyond(id: Id, after: Option<Id>) {
    after.None? || id > after.value
  }

  function Remaining(t: Tables, s: Scope, after: Option<Id>): set<Id> {
    set id | id in Eligible(t, s) && Beyond(id, after)
  }

  // ---------------------------------------------------------------- ascending order

  ghost predicate Least(x: Id, ids: set<Id>) {
    x in ids && forall y :: y in ids ==> x <= y
  }

  lemma LeastExists(ids: set<Id>)
    requires ids != {}
    ensures exists x :: Least(x, ids)
    decreases |ids|
  {
    var x :| x in ids;
    if !Least(x, ids) {
      var y :| y in ids && y < x;
      LeastExists(ids - {x});
      var z :| Least(z, ids - {x});
      assert y in ids - {x};
      assert forall w :: w in ids ==> w == x || w in ids - {x};
      assert Least(z, ids);
    }
  }

  lemma LeastFirst(ids: set<Id>, x: Id, rest: seq<Id>)
    requires Least(x, ids) && (forall y :: y in rest <==> y in ids - {x})
    requires forall i, j :: 0 <= i < j < |rest| ==> rest[i] < rest[j]
    ensures forall y :: y in [x] + rest <==> y in ids
    ensures forall i, j :: 0 <= i < j < |[x] + rest| ==> ([x] + rest)[i] < ([x] + rest)[j]
  {
    forall j | 0 < j < |[x] + rest| ensures x < ([x] + rest)[j] {
      assert rest[j - 1] in rest;
    }
  }

  /** The members in ascending order. */
  ghost function Ascending(ids: set<Id>): (r: seq<Id>)
    ensures forall x :: x in r <==> x in ids
    ensures forall i, j :: 0 <= i < j < |r| ==> r[i] < r[j]
    ensures |r| == |ids|
  {
    if ids == {} then []
    else
      LeastExists(ids);
      var x :| Least(x, ids);
      var rest := Ascending(ids - {x});
      LeastFirst(ids, x, rest);
      [x] + rest
  }

  /** A strictly ascending sequence is determined by its members. */
  lemma {:induction false} AscendingUnique(a: seq<Id>, b: seq<Id>)
    requires forall i, j :: 0 <= i < j < |a| ==> a[i] < a[j]
    requires forall i, j :: 0 <= i < j < |b| ==> b[i] < b[j]
    requires forall x :: x in a <==> x in b
    ensures a == b
    decreases |a|
  {
    assert (a != [] ==> a[0] in b) && (b != [] ==> b[0] in a);
    if a != [] && b != [] {
      assert a[0] in b && b[0] in a;
      assert a[0] == b[0];
      assert a == [a[0]] + a[1..] && b == [b[0]] + b[1..];
      forall x ensures x in a[1..] <==> x in b[1..] {
        assert x in a[1..] ==> x in a && x != a[0];
        assert x in b[1..] ==> x in b && x != b[0];
      }
      AscendingUnique(a[1..], b[1..]);
    }
  }

  lemma SuffixBeyond(all: seq<Id>, n: nat, x: Id)
    requires forall i, j :: 0 <= i < j < |all| ==> all[i] < all[j]
    requires 0 < n <= |all|
    ensures x in all[n..] <==> x in all && x > all[n - 1]
  {
    if x in all[n..] {
      var i :| 0 <= i < |all[n..]| && all[n..][i] == x;
      assert all[n + i] == x;
    }
    if x in all && x > all[n - 1] {
      var i :| 0 <= i < |all| && all[i] == x;
      assert all[n..][i - n] == x;
    }
  }

  /** What lies beyond the n-th member is the rest of the sequence. */
  lemma RestBeyond(t: Tables, s: Scope, after: Option<Id>, n: nat)
    requires 0 < n <= |Ascending(Remaining(t, s, after))|
    ensures
      var all := Ascending(Remaining(t, s, after));
      Ascending(Remaining(t, s, Some(all[n - 1]))) == all[n..]
  {
    hide Ascending, Eligible;
    var all := Ascending(Remaining(t, s, after));
    var rest := Ascending(Remaining(t, s, Some(all[n - 1])));
    assert all[n - 1] in all;
    forall x ensures x in rest <==> x in all[n..] {
      SuffixBeyond(all, n, x);
    }
    AscendingUnique(rest, all[n..]);
  }

  // ---------------------------------------------------------------- what the job leaves behind

  function KeyFor(id: Id, profile: Descriptor): VectorKey {
    VectorKey(id, profile.profileId, profile.profileVersion)
  }

  predicate Usable(p: Provider, content: string) {
    p.embed(content).Some? && |p.embed(content).value| == p.profile.dimension
  }

  /** The row the upsert writes for a memory at its current version. */
  function Vectorised(t: Tables, s: Scope, p: Provider, id: Id): Tables {
    if id in t.memories && Usable(p, t.memories[id].content) then
      var k := KeyFor(id, p.profile);
      var v := VectorRow(if k in t.semantic then t.semantic[k].tenant else s.tenant, t.memories[id].version,
                         p.profile.dimension, p.profile.metric, p.embed(t.memories[id].content).value);
      t.(semantic := t.semantic[KeyFor(id, p.profile) := v])
    else t
  }

  function Materialised(t: Tables, s: Scope, p: Provider, ids: seq<Id>): Tables
    decreases |ids|
  {
    if ids == [] then t else Vectorised(Materialised(t, s, p, ids[..|ids| - 1]), s, p, ids[|ids| - 1])
  }

  function CountUsable(t: Tables, p: Provider, ids: seq<Id>): nat
    decreases |ids|
  {
    if ids == [] then 0
    else
      var last := ids[|ids| - 1];
      CountUsable(t, p, ids[..|ids| - 1]) + if last in t.memories && Usable(p, t.memories[last].content) then 1 else 0
  }

  lemma {:induction false} MaterialisedKeepsMemories(t: Tables, s: Scope, p: Provider, ids: seq<Id>)
    ensures Materialised(t, s, p, ids).memories == t.memories
    decreases |ids|
  {
    if ids != [] {
      MaterialisedKeepsMemories(t, s, p, ids[..|ids| - 1]);
    }
  }

  /** What remains depends on the memories alone. */
  lemma RemainingByMemories(a: Tables, b: Tables, s: Scope, after: Option<Id>)
    requires a.memories == b.memories
    ensures Remaining(a, s, after) == Remaining(b, s, after)
  {
  }

  lemma {:induction false} MaterialisedSplit(t: Tables, s: Scope, p: Provider, a: seq<Id>, b: seq<Id>)
    ensures Materialised(t, s, p, a + b) == Materialised(Materialised(t, s, p, a), s, p, b)
    decreases |b|
  {
    if b == [] {
      assert a + b == a;
    } else {
      assert (a + b)[..|a + b| - 1] == a + b[..|b| - 1];
      MaterialisedSplit(t, s, p, a, b[..|b| - 1]);
    }
  }

  /** Stopping after any number of memories and resuming from the last one processed gives the
      same tables as one uninterrupted run. */
  lemma StopAndResume(t: Tables, s: Scope, p: Provider, after: Option<Id>, n: nat)
    requires 0 < n <= |Ascending(Remaining(t, s, after))|
    ensures
      var all := Ascending(Remaining(t, s, after));
      var stopped := Materialised(t, s, p, all[..n]);
      Materialised(stopped, s, p, Ascending(Remaining(stopped, s, Some(all[n - 1])))) == Materialised(t, s, p, all)
  {
    hide Ascending, Remaining, Materialised;
    var all := Ascending(Remaining(t, s, after));
    MaterialisedKeepsMemories(t, s, p, all[..n]);
    RemainingByMemories(t, Materialised(t, s, p, all[..n]), s, Some(all[n - 1]));
    RestBeyond(t, s, after, n);
    MaterialisedSplit(t, s, p, all[..n], all[n..]);
    assert all == all[..n] + all[n..];
  }

  // ---------------------------------------------------------------- coverage and cutover

  predicate Covers(t: Tables, profile: Descriptor, id: Id) {
    && id in t.memories && KeyFor(id, profile) in t.semantic
    && t.semantic[KeyFor(id, profile)].sourceVersion == t.memories[id].version
  }

  /** The rows of the join that `semantic_coverage` counts. */
  function JoinRows(t: Tables, s: Scope, profile: Descriptor): set<VectorKey> {
    set k | k in t.semantic && k.profileId == profile.profileId && k.profileVersion == profile.profileVersion
            && k.id in Eligible(t, s) && t.semantic[k].sourceVersion == t.memories[k.id].version
  }

  function JoinIds(rows: set<VectorKey>): set<Id> {
    set k | k in rows :: k.id
  }

  lemma {:induction false} JoinIsInjective(rows: set<VectorKey>, profile: Descriptor)
    requires forall k :: k in rows ==> k.profileId == profile.profileId && k.profileVersion == profile.profileVersion
    ensures |JoinIds(rows)| == |rows|
    decreases |rows|
  {
    if rows != {} {
      var k :| k in rows;
      JoinIsInjective(rows - {k}, profile);
      assert JoinIds(rows) == JoinIds(rows - {k}) + {k.id};
      assert k.id !in JoinIds(rows - {k});
    }
  }

  lemma SubsetOfSameSize<T>(a: set<T>, b: set<T>)
    requires a <= b && |a| == |b|
    ensures a == b
  {
    assert b == a + (b - a);
  }

  /** The counting argument: the two counts agree exactly when every eligible memory has a vector
      for its current version. */
  lemma CountsAgree(t: Tables, s: Scope, profile: Descriptor)
    ensures |Eligible(t, s)| == |JoinRows(t, s, profile)| <==>
        forall id :: id in Eligible(t, s) ==> Covers(t, profile, id)
  {
    var rows := JoinRows(t, s, profile);
    JoinIsInjective(rows, profile);
    assert JoinIds(rows) <= Eligible(t, s);
    if |Eligible(t, s)| == |rows| {
      SubsetOfSameSize(JoinIds(rows), Eligible(t, s));
      forall id | id in Eligible(t, s) ensures Covers(t, profile, id) {
        assert id in JoinIds(rows);
        var k :| k in rows && k.id == id;
        assert k == KeyFor(id, profile);
      }
    }
    if forall id :: id in Eligible(t, s) ==> Covers(t, profile, id) {
      forall id | id in Eligible(t, s) ensures id in JoinIds(rows) {
        assert Covers(t, profile, id);
        assert KeyFor(id, profile) in rows;
      }
      assert JoinIds(rows) == Eligible(t, s);
    }
  }

  function Switched(t: Tables, s: Scope, profile: Descriptor): Tables {
    t.(memories := map id | id in t.memories ::
        if id in Eligible(t, s) then t.memories[id].(embedding := profile) else t.memories[id])
  }

  /** The join of the semantic search: this memory is found under this profile. */
  predicate Searchable(t: Tables, s: Scope, profile: Descriptor, id: Id) {
    && id in t.memories && InScope(t.memories[id], s) && KeyFor(id, profile) in t.semantic
    && (profile.dimension == SEMANTIC ==> t.semantic[KeyFor(id, profile)].sourceVersion == t.memories[id].version)
    && t.semantic[KeyFor(id, profile)].dimension == profile.dimension
  }

  /** After a cutover to the semantic profile the owner has no legacy memory left, and every
      memory that was switched is found by semantic search. */
  lemma CutoverIsSafe(t: Tables, s: Scope, profile: Descriptor)
    requires SemanticTable(t) && profile.dimension == SEMANTIC
    requires |Eligible(t, s)| == |JoinRows(t, s, profile)|
    ensures Eligible(Switched(t, s, profile), s) == {}
    ensures forall id :: id in Eligible(t, s) ==> Searchable(Switched(t, s, profile), s, profile, id)
    ensures forall id :: id in t.memories && id !in Eligible(t, s) ==>
        Switched(t, s, profile).memories[id] == t.memories[id]
  {
    CountsAgree(t, s, profile);
    forall id | id in Eligible(t, s) ensures Searchable(Switched(t, s, profile), s, profile, id) {
      assert Covers(t, profile, id);
    }
  }

  lemma {:induction false} MaterialisedCovers(t: Tables, s: Scope, p: Provider, ids: seq<Id>, id: Id)
    requires id in t.memories
    ensures Covers(Materialised(t, s, p, ids), p.profile, id) <==>
              Covers(t, p.profile, id) || (id in ids && Usable(p, t.memories[id].content))
    decreases |ids|
  {
    if ids != [] {
      MaterialisedCovers(t, s, p, ids[..|ids| - 1], id);
      MaterialisedKeepsMemories(t, s, p, ids[..|ids| - 1]);
      assert ids == ids[..|ids| - 1] + [ids[|ids| - 1]];
    }
  }

  /** A run from the start is ready for cutover exactly when every eligible memory either embeds
      or already had a vector for its current version. */
  lemma FullRunReady(t: Tables, s: Scope, p: Provider)
    ensures
      var u := Materialised(t, s, p, Ascending(Remaining(t, s, None)));
      |Eligible(u, s)| == |JoinRows(u, s, p.profile)| <==>
      forall id :: id in Eligible(t, s) ==> Usable(p, t.memories[id].content) || Covers(t, p.profile, id)
  {
    var ids := Ascending(Remaining(t, s, None));
    var u := Materialised(t, s, p, ids);
    MaterialisedKeepsMemories(t, s, p, ids);
    assert Eligible(u, s) == Eligible(t, s);
    CountsAgree(u, s, p.profile);
    assert Remaining(t, s, None) == Eligible(t, s);
    forall id | id in Eligible(t, s)
      ensures Covers(u, p.profile, id) <==> Usable(p, t.memories[id].content) || Covers(t, p.profile, id)
    {
      MaterialisedCovers(t, s, p, ids, id);
    }
  }

  // ---------------------------------------------------------------- code

  datatype Report = Report(eligible: nat, completed: nat, stale: nat, failed: nat, lastId: Option<Id>, activated: nat)

  class Database {
    var memories: map<Id, Row>
    var semantic: map<VectorKey, VectorRow>

    function View(): Tables
      reads this
    {
      Tables(memories, semantic)
    }

    /** Keyset page: the first `limit` eligible ids beyond the cursor, ascending. */
    method ListForReembedding(s: Scope, after: Option<Id>, limit: nat) returns (page: seq<Id>)
      ensures
        var all := Ascending(Remaining(View(), s, after));
        page == if |all| <= limit then all else all[..limit]
    {
      hide Ascending;
      var todo := set id | id in memories && InScope(memories[id], s)
          && memories[id].embedding.dimension == LEGACY && Beyond(id, after);
      assert todo == Remaining(View(), s, after);
      hide InScope;
      page := FirstOf(todo, limit);
    }

    method FirstOf(ids: set<Id>, limit: nat) returns (page: seq<Id>)
      ensures page == if |Ascending(ids)| <= limit then Ascending(ids) else Ascending(ids)[..limit]
    {
      hide Ascending;
      page := [];
      var todo := ids;
      ghost var all := Ascending(ids);
      while |page| < limit && todo != {}
        invariant |page| <= |all| && |page| <= limit && page == all[..|page|]
        invariant forall x :: x in todo <==> x in all[|page|..]
        decreases todo
      {
        var least := TakeLeast(todo);
        LeastIsNext(all, |page|, todo, least);
        page := page + [least];
        todo := todo - {least};
      }
      assert todo == {} ==> |all| == |page| by {
        assert |all| > |page| ==> all[|page|] in all[|page|..];
      }
    }

    method TakeLeast(ids: set<Id>) returns (least: Id)
      requires ids != {}
      ensures Least(least, ids)
    {
      least :| least in ids;
      var todo := ids - {least};
      while todo != {}
        invariant todo <= ids && least in ids
        invariant forall y :: y in ids && y !in todo ==> least <= y
      {
        var y :| y in todo;
        if y < least {
          least := y;
        }
        todo := todo - {y};
      }
    }

    /** Insert or overwrite, only for a semantic profile, for which it raises otherwise (`None`), and
        only while the memory is still at the expected version. */
    method UpsertVector(s: Scope, id: Id, expected: int, profile: Descriptor, vector: Vector)
      returns (answer: Option<bool>)
      modifies this`semantic
      ensures answer.Some? <==> profile.dimension == SEMANTIC
      ensures answer == Some(true) <==>
                && profile.dimension == SEMANTIC && id in memories && memories[id].version == expected
                     && (s.tenant.None? || memories[id].tenant == s.tenant)
      ensures answer != Some(true) ==> semantic == old(semantic)
      ensures answer == Some(true) ==>
                var k := KeyFor(id, profile);
                semantic == old(semantic)[k := VectorRow(if k in old(semantic) then old(semantic)[k].tenant
                    else s.tenant,
                                                         expected, profile.dimension, profile.metric, vector)]
    {
      if profile.dimension != SEMANTIC {
        return None;
      }
      if id !in memories || memories[id].version != expected || (s.tenant.Some? && memories[id].tenant != s.tenant) {
        return Some(false);
      }
      var k := KeyFor(id, profile);
      if k in semantic {
        semantic := semantic[k := semantic[k].(sourceVersion := expected, dimension := profile.dimension,
            metric := profile.metric, vector := vector)];
      } else {
        semantic := semantic[k := VectorRow(s.tenant, expected, profile.dimension, profile.metric, vector)];
      }
      return Some(true);
    }

    method CoverageCounts(s: Scope, profile: Descriptor) returns (eligible: nat, covered: nat)
      ensures eligible == |Eligible(View(), s)| && covered == |JoinRows(View(), s, profile)|
    {
      var ids := set id | id in memories && InScope(memories[id], s) && memories[id].embedding.dimension == LEGACY;
      assert ids == Eligible(View(), s);
      var rows := set k | k in semantic && k.profileId == profile.profileId
          && k.profileVersion == profile.profileVersion
                          && k.id in ids && semantic[k].sourceVersion == memories[k.id].version;
      assert rows == JoinRows(View(), s, profile);
      return |ids|, |rows|;
    }

    /** All or nothing: raises and changes nothing while the counts differ, else switches every
        eligible memory. */
    method Cutover(s: Scope, profile: Descriptor) returns (ok: bool, activated: nat)
      modifies this`memories
      ensures ok <==> |Eligible(old(View()), s)| == |JoinRows(old(View()), s, profile)|
      ensures !ok ==> View() == old(View())
      ensures ok ==> View() == Switched(old(View()), s, profile) && activated == |Eligible(old(View()), s)|
    {
      var eligible, covered := CoverageCounts(s, profile);
      if eligible != covered {
        return false, 0;
      }
      ghost var start := View();
      var todo := memories.Keys;
      activated := 0;
      ghost var done: set<Id> := {};
      while todo != {}
        invariant todo <= memories.Keys == start.memories.Keys && semantic == start.semantic
        invariant done == (set id | id in Eligible(start, s) && id !in todo) && activated == |done|
        invariant forall id :: id in memories ==>
                    memories[id] == if id in done then start.memories[id].(embedding := profile) else start.memories[id]
      {
        var id :| id in todo;
        if InScope(memories[id], s) && memories[id].embedding.dimension == LEGACY {
          memories := memories[id := memories[id].(embedding := profile)];
          activated := activated + 1;
          done := done + {id};
        }
        todo := todo - {id};
      }
      assert done == Eligible(start, s);
      assert memories == Switched(start, s, profile).memories;
      return true, activated;
    }

    /** One batch inside its transaction. */
    method ProcessBatch(s: Scope, p: Provider, page: seq<Id>) returns (completed: nat, stale: nat, failed: nat)
      requires p.profile.dimension == SEMANTIC
      requires forall i :: 0 <= i < |page| ==> page[i] in memories && InScope(memories[page[i]], s)
      modifies this`semantic
      ensures View() == Materialised(old(View()), s, p, page)
      ensures completed == CountUsable(old(View()), p, page) && stale == 0 && completed + failed == |page|
    {
      completed, stale, failed := 0, 0, 0;
      for n := 0 to |page|
        invariant View() == Materialised(old(View()), s, p, page[..n])
        invariant completed == CountUsable(old(View()), p, page[..n]) && stale == 0 && completed + failed == n
      {
        var row := memories[page[n]];
        var vector := p.embed(row.content);
        if vector.None? || |vector.value| != p.profile.dimension {
          failed := failed + 1;
        } else {
          var stored := UpsertVector(s, page[n], row.version, p.profile, vector.value);
          if stored == Some(true) {
            completed := completed + 1;
          } else {
            stale := stale + 1;
          }
        }
        assert page[..n + 1][..n] == page[..n] && page[..n + 1][n] == page[n];
      }
      assert page[..|page|] == page;
    }

    /** The paginated loop on a quiescent owner. It ends, visits every eligible memory beyond the
        resume point exactly once in id order, and leaves tables that do not depend on the batch
        size. */
    method RunLoop(s: Scope, p: Provider, batchSize: nat, resume: Option<Id>, dryRun: bool)
      returns (report: Report, ghost visited: seq<Id>)
      requires batchSize >= 1 && p.profile.dimension == SEMANTIC
      modifies this`semantic
      ensures visited == Ascending(Remaining(old(View()), s, resume))
      ensures View() == if dryRun then old(View()) else Materialised(old(View()), s, p, visited)
      ensures report.eligible == |visited| && report.activated == 0
      ensures report.lastId == if visited == [] then resume else Some(visited[|visited| - 1])
      ensures !dryRun ==> report.completed + report.stale + report.failed == report.eligible
      ensures !dryRun ==> report.completed == CountUsable(old(View()), p, visited) && report.stale == 0
      ensures dryRun ==> report.completed == report.stale == report.failed == 0
    {
      hide Ascending, Remaining, Materialised, CountUsable, Reached, Page;
      ghost var start := View();
      ghost var all := Ascending(Remaining(start, s, resume));
      ghost var m := 0;
      ReachStart(start, s, p, resume, dryRun, all);
      var completed, stale, failed := 0, 0, 0;
      var eligible := 0;
      var cursor := resume;
      while true
        invariant eligible == m <= |all|
        invariant Reached(start, View(), s, p, resume, dryRun, all, m, cursor)
        invariant completed == Expected(start, p, dryRun, all[..m]) && stale == 0
        invariant completed + failed == if dryRun then 0 else m
        decreases |all| - m
      {
        ghost var before := View();
        var page, c, st, f := NextBatch(s, p, cursor, batchSize, dryRun);
        PageOfRest(start, before, s, p, resume, dryRun, all, m, cursor, batchSize);
        ReachNext(start, before, View(), s, p, resume, dryRun, all, m, cursor, page, batchSize);
        if page == [] {
          break;
        }
        eligible := eligible + |page|;
        completed, stale, failed := completed + c, stale + st, failed + f;
        cursor := Some(page[|page| - 1]);
        m := m + |page|;
        if |page| < batchSize {
          break;
        }
      }
      visited := all;
      assert all[..|all|] == all;
      ReachedEnd(start, View(), s, p, resume, dryRun, all, cursor);
      report := Report(eligible, completed, stale, failed, cursor, 0);
    }

    /** One transaction: list a page and, unless this is a dry run, process it. */
    method NextBatch(s: Scope, p: Provider, cursor: Option<Id>, batchSize: nat, dryRun: bool)
      returns (page: seq<Id>, completed: nat, stale: nat, failed: nat)
      requires p.profile.dimension == SEMANTIC
      modifies this`semantic
      ensures page == Page(Ascending(Remaining(old(View()), s, cursor)), batchSize)
      ensures View() == if dryRun then old(View()) else Materialised(old(View()), s, p, page)
      ensures completed == Expected(old(View()), p, dryRun, page) && stale == 0
      ensures completed + failed == if dryRun then 0 else |page|
    {
      hide Ascending, Remaining, Materialised, CountUsable;
      page := ListForReembedding(s, cursor, batchSize);
      completed, stale, failed := 0, 0, 0;
      if !dryRun {
        PageIsEligible(View(), s, cursor, page);
        completed, stale, failed := ProcessBatch(s, p, page);
      }
    }

    predicate Runnable(s: Scope, p: Provider, batchSize: int) {
      ValidOwner(s.owner) && 1 <= batchSize <= 1000 && p.profile.dimension == SEMANTIC
    }

    /** The whole job; `None` when its arguments or the cutover are refused. */
    method RunJob(s: Scope, p: Provider, batchSize: int, resume: Option<Id>, dryRun: bool, cutover: bool)
      returns (report: Option<Report>)
      modifies this
      ensures !Runnable(s, p, batchSize) ==> report.None? && View() == old(View())
      ensures Runnable(s, p, batchSize) ==>
                var ids := Ascending(Remaining(old(View()), s, resume));
                var u := if dryRun then old(View()) else Materialised(old(View()), s, p, ids);
                var switch := cutover && !dryRun;
                && (report.Some? <==> !switch || |Eligible(u, s)| == |JoinRows(u, s, p.profile)|)
                && View() == (if switch && report.Some? then Switched(u, s, p.profile) else u)
                && (report.Some? ==> report.value.eligible == if dryRun then |Eligible(u, s)| else |ids|)
                && (report.Some? ==> report.value.completed == (if dryRun then 0 else CountUsable(old(View()), p, ids)))
                && (report.Some? ==>
                     report.value.stale == 0
                         && report.value.completed + report.value.failed == if dryRun then 0 else |ids|)
                && (report.Some? ==> report.value.lastId == if ids == [] then resume else Some(ids[|ids| - 1]))
                && (report.Some? ==> report.value.activated == if switch then |Eligible(u, s)| else 0)
    {
      if !Runnable(s, p, batchSize) {
        return None;
      }
      hide ValidOwner, Materialised, Switched, Ascending, Remaining, Eligible, JoinRows;
      var r, visited := RunLoop(s, p, batchSize, resume, dryRun);
      if cutover && !dryRun {
        var ok, activated := Cutover(s, p.profile);
        if !ok {
          return None;
        }
        r := r.(activated := activated);
      }
      var total, covered := CoverageCounts(s, p.profile);
      return Some(r.(eligible := if dryRun then total else r.eligible));
    }
  }

  lemma LeastIsNext(all: seq<Id>, n: nat, todo: set<Id>, least: Id)
    requires forall i, j :: 0 <= i < j < |all| ==> all[i] < all[j]
    requires n <= |all| && (forall x :: x in todo <==> x in all[n..]) && Least(least, todo)
    ensures n < |all| && all[n] == least
    ensures forall x :: x in todo - {least} <==> x in all[n + 1..]
  {
    assert least in all[n..];
    var i :| 0 <= i < |all[n..]| && all[n..][i] == least;
    assert all[n] in all[n..];
    assert all[n] == least;
    forall x ensures x in todo - {least} <==> x in all[n + 1..] {
      SuffixBeyond(all, n + 1, x);
      if n > 0 {
        SuffixBeyond(all, n, x);
      } else {
        assert all[0..] == all;
      }
    }
  }

  lemma PageIsEligible(t: Tables, s: Scope, after: Option<Id>, page: seq<Id>)
    requires
      var all := Ascending(Remaining(t, s, after));
      |page| <= |all| && page == all[..|page|]
    ensures forall i :: 0 <= i < |page| ==> page[i] in t.memories && InScope(t.memories[page[i]], s)
  {
    var all := Ascending(Remaining(t, s, after));
    forall i | 0 <= i < |page| ensures page[i] in t.memories && InScope(t.memories[page[i]], s) {
      assert page[i] == all[i] && all[i] in all;
    }
  }

  lemma {:induction false} CountSplit(t: Tables, p: Provider, a: seq<Id>, b: seq<Id>)
    ensures CountUsable(t, p, a + b) == CountUsable(t, p, a) + CountUsable(t, p, b)
    decreases |b|
  {
    if b == [] {
      assert a + b == a;
    } else {
      assert (a + b)[..|a + b| - 1] == a + b[..|b| - 1];
      CountSplit(t, p, a, b[..|b| - 1]);
    }
  }

  lemma {:induction false} CountSame(t: Tables, u: Tables, p: Provider, ids: seq<Id>)
    requires t.memories == u.memories
    ensures CountUsable(t, p, ids) == CountUsable(u, p, ids)
    decreases |ids|
  {
    if ids != [] {
      CountSame(t, u, p, ids[..|ids| - 1]);
    }
  }

  lemma BatchAdds(t: Tables, s: Scope, p: Provider, done: seq<Id>, page: seq<Id>)
    ensures Materialised(t, s, p, done + page) == Materialised(Materialised(t, s, p, done), s, p, page)
    ensures CountUsable(t, p, done + page) == CountUsable(t, p, done)
        + CountUsable(Materialised(t, s, p, done), p, page)
  {
    MaterialisedSplit(t, s, p, done, page);
    MaterialisedKeepsMemories(t, s, p, done);
    CountSplit(t, p, done, page);
    CountSame(t, Materialised(t, s, p, done), p, page);
  }

  function Page(all: seq<Id>, limit: nat): seq<Id> {
    if |all| <= limit then all else all[..limit]
  }

  /** How many vectors a run over `ids` stores. */
  ghost function Expected(t: Tables, p: Provider, dryRun: bool, ids: seq<Id>): nat {
    if dryRun then 0 else CountUsable(t, p, ids)
  }

  /** `rest` is what lies beyond the cursor, in order. */
  ghost predicate IsRest(t: Tables, s: Scope, cursor: Option<Id>, rest: seq<Id>) {
    Ascending(Remaining(t, s, cursor)) == rest
  }

  /** The loop has handled the first `m` of `all`: the cursor is at the last of them, the tables
      hold their vectors, and exactly the others lie beyond the cursor. */
  ghost predicate Reached(start: Tables, now: Tables, s: Scope, p: Provider, resume: Option<Id>, dryRun: bool,
                          all: seq<Id>, m: nat, cursor: Option<Id>) {
    && m <= |all|
    && cursor == (if m == 0 then resume else Some(all[m - 1]))
    && now == (if dryRun then start else Materialised(start, s, p, all[..m]))
    && IsRest(now, s, cursor, all[m..])
  }

  lemma ReachStart(start: Tables, s: Scope, p: Provider, resume: Option<Id>, dryRun: bool, all: seq<Id>)
    requires IsRest(start, s, resume, all)
    ensures Reached(start, start, s, p, resume, dryRun, all, 0, resume)
    ensures Expected(start, p, dryRun, []) == 0
  {
    hide IsRest;
    assert all[..0] == [] && all[0..] == all;
  }

  lemma ReachNext(start: Tables, before: Tables, now: Tables, s: Scope, p: Provider, resume: Option<Id>, dryRun: bool,
                  all: seq<Id>, m: nat, cursor: Option<Id>, page: seq<Id>, limit: nat)
    requires IsRest(start, s, resume, all) && Reached(start, before, s, p, resume, dryRun, all, m, cursor)
    requires page == Page(all[m..], limit)
    requires now == if dryRun then before else Materialised(before, s, p, page)
    ensures m + |page| <= |all| && (|page| < limit ==> m + |page| == |all|)
    ensures Reached(start, now, s, p, resume, dryRun, all, m + |page|,
                    if page == [] then cursor else Some(page[|page| - 1]))
    ensures Expected(start, p, dryRun, all[..m + |page|]) == Expected(start, p, dryRun, all[..m])
        + Expected(before, p, dryRun, page)
  {
    hide IsRest, Materialised, Expected;
    BatchExtends(start, before, now, s, p, dryRun, all, m, page, limit);
    hide Page;
    if page != [] {
      AdvanceCursor(start, now, s, resume, all, m, m + |page|);
    }
  }

  /** The next page of a listing is the next slice. */
  lemma PageOfRest(start: Tables, before: Tables, s: Scope, p: Provider, resume: Option<Id>, dryRun: bool,
                   all: seq<Id>, m: nat, cursor: Option<Id>, limit: nat)
    requires Reached(start, before, s, p, resume, dryRun, all, m, cursor)
    ensures m <= |all| && Page(Ascending(Remaining(before, s, cursor)), limit) == Page(all[m..], limit)
  {
    hide Ascending, Remaining, Page, Materialised;
  }

  /** The tables and counts after one more slice of `all`. */
  lemma BatchExtends(start: Tables, before: Tables, now: Tables, s: Scope, p: Provider, dryRun: bool,
                     all: seq<Id>, m: nat, page: seq<Id>, limit: nat)
    requires m <= |all| && page == Page(all[m..], limit)
    requires before == if dryRun then start else Materialised(start, s, p, all[..m])
    requires now == if dryRun then before else Materialised(before, s, p, page)
    ensures m + |page| <= |all| && (|page| < limit ==> m + |page| == |all|)
    ensures page != [] ==> page[|page| - 1] == all[m + |page| - 1]
    ensures now == if dryRun then start else Materialised(start, s, p, all[..m + |page|])
    ensures now.memories == start.memories && (page == [] ==> now == before)
    ensures Expected(start, p, dryRun, all[..m + |page|]) == Expected(start, p, dryRun, all[..m])
        + Expected(before, p, dryRun, page)
  {
    hide Materialised, CountUsable;
    NextSlice(all, m, page, limit);
    hide Page;
    if !dryRun {
      BatchAdds(start, s, p, all[..m], page);
      MaterialisedKeepsMemories(start, s, p, all[..m + |page|]);
      BatchEmpty(before, s, p);
    }
  }

  lemma BatchEmpty(t: Tables, s: Scope, p: Provider)
    ensures Materialised(t, s, p, []) == t && CountUsable(t, p, []) == 0
  {
  }

  lemma ReachedEnd(start: Tables, now: Tables, s: Scope, p: Provider, resume: Option<Id>, dryRun: bool,
                   all: seq<Id>, cursor: Option<Id>)
    requires Reached(start, now, s, p, resume, dryRun, all, |all|, cursor)
    ensures cursor == (if all == [] then resume else Some(all[|all| - 1]))
    ensures now == (if dryRun then start else Materialised(start, s, p, all))
  {
    hide IsRest, Materialised;
    assert all[..|all|] == all;
  }

  /** Moving the cursor to the end of a page leaves exactly the rest. */
  lemma AdvanceCursor(start: Tables, now: Tables, s: Scope, resume: Option<Id>, all: seq<Id>, m: nat, n: nat)
    requires now.memories == start.memories && IsRest(start, s, resume, all)
    requires m < n <= |all|
    ensures IsRest(now, s, Some(all[n - 1]), all[n..])
  {
    RemainingByMemories(start, now, s, Some(all[n - 1]));
    hide Ascending, Remaining;
    RestBeyond(start, s, resume, n);
  }

  /** A page is the next slice of the whole sequence. */
  lemma NextSlice(all: seq<Id>, m: nat, page: seq<Id>, limit: nat)
    requires m <= |all| && page == Page(all[m..], limit)
    ensures m + |page| <= |all| && page == all[m..m + |page|] && all[..m] + page == all[..m + |page|]
    ensures |page| < limit ==> m + |page| == |all|
    ensures page != [] ==> page[|page| - 1] == all[m + |page| - 1]
  {
  }
}
