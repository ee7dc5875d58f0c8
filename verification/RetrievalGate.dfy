/**
 * services/rag-service/src/pipelines/query.py, steps 5 to 8 of `stream` (union, policy filter, rerank or skip,
 * relevance gate, top-k), with components/opa.py and components/reranker.py. Services answer by parameters.
 */
module RetrievalGate {
  import opened Wrappers

  datatype Chunk = Chunk(id: string, content: string, meta: string)

  datatype Doc = Doc(chunk: Chunk, score: Option<real>)

  /** A missing score counts as zero. */
  function Score(d: Doc): real {
    if d.score.Some? then d.score.value else 0.0
  }

  /** The slice `s[:k]`, where a negative bound counts from the end. */
  function Head<T>(s: seq<T>, k: int): seq<T> {
    if k >= |s| then s else if k >= 0 then s[..k] else if |s| + k >= 0 then s[..|s| + k] else []
  }

  predicate DistinctIds(docs: seq<Doc>) {
    forall i, j | 0 <= i < j < |docs| :: docs[i].chunk.id != docs[j].chunk.id
  }

  predicate HasId(docs: seq<Doc>, id: string) {
    exists k | 0 <= k < |docs| :: docs[k].chunk.id == id
  }

  predicate HasChunk(docs: seq<Doc>, c: Chunk) {
    exists k | 0 <= k < |docs| :: docs[k].chunk == c
  }

  // ---------------------------------------------------------------- step 5: union

  /** The first candidates, then those of the first `n` expanded ones whose id is new. */
  function Union(first: seq<Doc>, second: seq<Doc>, n: nat): seq<Doc>
    requires n <= |second|
  {
    if n == 0 then first
    else
      var u := Union(first, second, n - 1);
      if HasId(u, second[n - 1].chunk.id) then u else u + [second[n - 1]]
  }

  /** Nothing is lost and nothing is invented: the first retrieval stays in front and every expanded id is represented. */
  lemma {:induction false} UnionMeaning(first: seq<Doc>, second: seq<Doc>, n: nat)
    requires n <= |second|
    ensures first <= Union(first, second, n)
    ensures forall k | 0 <= k < n :: HasId(Union(first, second, n), second[k].chunk.id)
    ensures forall d | d in Union(first, second, n) :: d in first || d in second
    ensures DistinctIds(first) ==> DistinctIds(Union(first, second, n))
  {
    if n > 0 {
      UnionMeaning(first, second, n - 1);
      UnionStep(Union(first, second, n - 1), second, n - 1);
    }
  }

  lemma {:induction false} UnionStep(u: seq<Doc>, second: seq<Doc>, n: nat)
    requires n < |second| && forall k | 0 <= k < n :: HasId(u, second[k].chunk.id)
    ensures var v := if HasId(u, second[n].chunk.id) then u else u + [second[n]];
            && forall k | 0 <= k <= n :: HasId(v, second[k].chunk.id)
  {
    var d := second[n];
    if !HasId(u, d.chunk.id) {
      var v := u + [d];
      assert v[|u|].chunk.id == d.chunk.id;
      forall k | 0 <= k < n ensures HasId(v, second[k].chunk.id) {
        var j :| 0 <= j < |u| && u[j].chunk.id == second[k].chunk.id;
        assert v[j] == u[j];
      }
    }
  }

  /** Increasing positions among the first `n`. */
  predicate Positions(at: seq<nat>, n: nat) {
    && (forall j | 0 <= j < |at| :: at[j] < n)
    && forall i, j | 0 <= i < j < |at| :: at[i] < at[j]
  }

  /** The documents at these positions, in order. */
  predicate TakenAt(docs: seq<Doc>, at: seq<nat>, taken: seq<Doc>) {
    |taken| == |at| && forall j | 0 <= j < |at| :: at[j] < |docs| && taken[j] == docs[at[j]]
  }

  /** An id that neither the first retrieval nor an expanded candidate before `k` has. */
  predicate NewId(first: seq<Doc>, second: seq<Doc>, k: nat) {
    && k < |second|
    && (forall j | 0 <= j < |first| :: first[j].chunk.id != second[k].chunk.id)
    && forall j | 0 <= j < k :: second[j].chunk.id != second[k].chunk.id
  }

  lemma {:induction false} HasIdIff(first: seq<Doc>, second: seq<Doc>, n: nat)
    requires n < |second|
    ensures HasId(Union(first, second, n), second[n].chunk.id) <==> !NewId(first, second, n)
  {
    var u, id := Union(first, second, n), second[n].chunk.id;
    UnionMeaning(first, second, n);
    if HasId(u, id) {
      var k :| 0 <= k < |u| && u[k].chunk.id == id;
      UnionFrom(first, second, n, u[k]);
    } else {
      forall j | 0 <= j < |first| ensures first[j].chunk.id != id {
        assert u[j] == first[j];
      }
    }
  }

  lemma {:induction false} UnionFrom(first: seq<Doc>, second: seq<Doc>, n: nat, d: Doc)
    requires n <= |second| && d in Union(first, second, n)
    ensures d in first || d in second[..n]
  {
    if n > 0 {
      var u := Union(first, second, n - 1);
      if d in u {
        UnionFrom(first, second, n - 1, d);
        assert second[..n - 1] <= second[..n];
      }
    }
  }

  lemma {:induction false} UnionTail(first: seq<Doc>, second: seq<Doc>, n: nat)
    requires 0 < n <= |second| && first <= Union(first, second, n - 1)
    ensures first <= Union(first, second, n)
    ensures var u, v := Union(first, second, n - 1), Union(first, second, n);
            v[|first|..] == if HasId(u, second[n - 1].chunk.id) then u[|first|..] else u[|first|..] + [second[n - 1]]
  {
  }

  /** The positions, among the first `n` expanded candidates, of those whose id is new at their place. */
  function NewPositions(first: seq<Doc>, second: seq<Doc>, n: nat): seq<nat> {
    if n == 0 then []
    else if NewId(first, second, n - 1) then NewPositions(first, second, n - 1) + [n - 1]
    else NewPositions(first, second, n - 1)
  }

  lemma {:induction false} NewPositionsAre(first: seq<Doc>, second: seq<Doc>, n: nat, k: nat)
    ensures Positions(NewPositions(first, second, n), n)
    ensures k in NewPositions(first, second, n) <==> k < n && NewId(first, second, k)
  {
    if n > 0 {
      NewPositionsAre(first, second, n - 1, k);
      PositionsNext(NewPositions(first, second, n - 1), n - 1);
    }
  }

  lemma {:induction false} PositionsNext(at: seq<nat>, n: nat)
    requires Positions(at, n)
    ensures Positions(at, n + 1) && Positions(at + [n], n + 1)
  {
  }

  lemma {:induction false} UnionTailIs(first: seq<Doc>, second: seq<Doc>, n: nat)
    requires n < |second| && first <= Union(first, second, n)
    ensures first <= Union(first, second, n + 1)
    ensures var tail := Union(first, second, n)[|first|..];
            Union(first, second, n + 1)[|first|..] == if NewId(first, second, n) then tail + [second[n]] else tail
  {
    HasIdIff(first, second, n);
    UnionTail(first, second, n + 1);
  }

  lemma {:induction false} TakenNext(docs: seq<Doc>, at: seq<nat>, taken: seq<Doc>, n: nat)
    requires TakenAt(docs, at, taken) && n < |docs|
    ensures TakenAt(docs, at + [n], taken + [docs[n]])
  {
  }

  /** Behind the first retrieval come, in order, exactly the expanded candidates whose id is new at their place (NewPositionsAre). */
  lemma {:induction false} UnionInOrder(first: seq<Doc>, second: seq<Doc>, n: nat)
    requires n <= |second|
    ensures first <= Union(first, second, n)
    ensures TakenAt(second, NewPositions(first, second, n), Union(first, second, n)[|first|..])
  {
    if n > 0 {
      UnionInOrder(first, second, n - 1);
      UnionTailIs(first, second, n - 1);
      TakenNext(second, NewPositions(first, second, n - 1), Union(first, second, n - 1)[|first|..], n - 1);
    }
  }

  // ---------------------------------------------------------------- step 6: policy filter

  datatype Verdict = Allow | Deny | Unreachable

  /** Only a document with an explicit permission passes. */
  function Permitted(docs: seq<Doc>, verdicts: seq<Verdict>, n: nat): seq<Doc>
    requires n <= |docs| == |verdicts|
  {
    if n == 0 then []
    else if verdicts[n - 1] == Allow then Permitted(docs, verdicts, n - 1) + [docs[n - 1]]
    else Permitted(docs, verdicts, n - 1)
  }

  predicate ApprovedAt(docs: seq<Doc>, verdicts: seq<Verdict>, c: Chunk, k: nat) {
    k < |docs| == |verdicts| && verdicts[k] == Allow && docs[k].chunk == c
  }

  /** The policy engine allowed this chunk. */
  ghost predicate Approved(docs: seq<Doc>, verdicts: seq<Verdict>, c: Chunk) {
    exists k: nat :: ApprovedAt(docs, verdicts, c, k)
  }

  lemma {:induction false} PermittedFrom(docs: seq<Doc>, verdicts: seq<Verdict>, n: nat, d: Doc)
    requires n <= |docs| == |verdicts|
    ensures d in Permitted(docs, verdicts, n) <==> exists k | 0 <= k < n :: verdicts[k] == Allow && docs[k] == d
  {
    if n > 0 {
      PermittedFrom(docs, verdicts, n - 1, d);
    }
  }

  lemma {:induction false} DistinctAppend(docs: seq<Doc>, d: Doc)
    requires DistinctIds(docs) && forall x | x in docs :: x.chunk.id != d.chunk.id
    ensures DistinctIds(docs + [d])
  {
    forall i | 0 <= i < |docs| ensures docs[i].chunk.id != d.chunk.id {
      assert docs[i] in docs;
    }
  }

  lemma {:induction false} PermittedDistinct(docs: seq<Doc>, verdicts: seq<Verdict>, n: nat)
    requires n <= |docs| == |verdicts| && DistinctIds(docs)
    ensures DistinctIds(Permitted(docs, verdicts, n))
  {
    if n > 0 {
      PermittedDistinct(docs, verdicts, n - 1);
      var before := Permitted(docs, verdicts, n - 1);
      forall x | x in before ensures x.chunk.id != docs[n - 1].chunk.id {
        PermittedFrom(docs, verdicts, n - 1, x);
      }
      DistinctAppend(before, docs[n - 1]);
    }
  }

  /** Exactly the allowed documents pass, and none of them twice. */
  lemma {:induction false} PermittedMeaning(docs: seq<Doc>, verdicts: seq<Verdict>)
    requires |docs| == |verdicts|
    ensures var p := Permitted(docs, verdicts, |docs|);
            && (forall d :: d in p <==> exists k | 0 <= k < |docs| :: verdicts[k] == Allow && docs[k] == d)
            && (forall d | d in p :: Approved(docs, verdicts, d.chunk))
            && (DistinctIds(docs) ==> DistinctIds(p))
  {
    var p := Permitted(docs, verdicts, |docs|);
    forall d ensures d in p <==> exists k | 0 <= k < |docs| :: verdicts[k] == Allow && docs[k] == d {
      PermittedFrom(docs, verdicts, |docs|, d);
    }
    forall d | d in p ensures Approved(docs, verdicts, d.chunk) {
      var k :| 0 <= k < |docs| && verdicts[k] == Allow && docs[k] == d;
      assert ApprovedAt(docs, verdicts, d.chunk, k);
    }
    if DistinctIds(docs) {
      PermittedDistinct(docs, verdicts, |docs|);
    }
  }

  /** The positions of the documents allowed, among the first `n`. */
  function AllowedPositions(verdicts: seq<Verdict>, n: nat): seq<nat>
    requires n <= |verdicts|
  {
    if n == 0 then []
    else if verdicts[n - 1] == Allow then AllowedPositions(verdicts, n - 1) + [n - 1]
    else AllowedPositions(verdicts, n - 1)
  }

  lemma {:induction false} AllowedPositionsAre(verdicts: seq<Verdict>, n: nat, k: nat)
    requires n <= |verdicts|
    ensures Positions(AllowedPositions(verdicts, n), n)
    ensures k in AllowedPositions(verdicts, n) <==> k < n && verdicts[k] == Allow
  {
    if n > 0 {
      AllowedPositionsAre(verdicts, n - 1, k);
      PositionsNext(AllowedPositions(verdicts, n - 1), n - 1);
    }
  }

  /** They pass in order, each as often as it was there (AllowedPositionsAre). */
  lemma {:induction false} PermittedInOrder(docs: seq<Doc>, verdicts: seq<Verdict>, n: nat)
    requires n <= |docs| == |verdicts|
    ensures TakenAt(docs, AllowedPositions(verdicts, n), Permitted(docs, verdicts, n))
  {
    if n > 0 {
      PermittedInOrder(docs, verdicts, n - 1);
      TakenNext(docs, AllowedPositions(verdicts, n - 1), Permitted(docs, verdicts, n - 1), n - 1);
    }
  }

  // ---------------------------------------------------------------- step 7: rerank

  predicate Sorted(docs: seq<Doc>) {
    forall i, j | 0 <= i < j < |docs| :: Score(docs[i]) >= Score(docs[j])
  }

  /** Where `d` goes among the first `n` documents: after everything that scores at least as much. */
  function Slot(docs: seq<Doc>, d: Doc, n: nat): (k: nat)
    requires n <= |docs|
    ensures k <= n
  {
    if n == 0 || Score(docs[n - 1]) >= Score(d) then n else Slot(docs, d, n - 1)
  }

  function Insert(docs: seq<Doc>, d: Doc): seq<Doc> {
    var k := Slot(docs, d, |docs|);
    docs[..k] + [d] + docs[k..]
  }

  /** `list.sort` by descending score, as a stable sort. */
  function SortByScore(docs: seq<Doc>, n: nat): seq<Doc>
    requires n <= |docs|
  {
    if n == 0 then [] else Insert(SortByScore(docs, n - 1), docs[n - 1])
  }

  lemma {:induction false} SlotSplits(docs: seq<Doc>, d: Doc, n: nat)
    requires n <= |docs| && Sorted(docs)
    ensures var k := Slot(docs, d, n);
            && (forall i | 0 <= i < k :: Score(docs[i]) >= Score(d))
            && (forall i | k <= i < n :: Score(docs[i]) < Score(d))
  {
    if n > 0 && Score(docs[n - 1]) < Score(d) {
      SlotSplits(docs, d, n - 1);
    }
  }

  lemma {:induction false} InsertSorted(docs: seq<Doc>, d: Doc)
    requires Sorted(docs)
    ensures Sorted(Insert(docs, d))
  {
    SlotSplits(docs, d, |docs|);
    var k := Slot(docs, d, |docs|);
    var r := Insert(docs, d);
    forall i, j | 0 <= i < j < |r| ensures Score(r[i]) >= Score(r[j]) {
      assert r[i] == if i < k then docs[i] else if i == k then d else docs[i - 1];
      assert r[j] == if j < k then docs[j] else if j == k then d else docs[j - 1];
    }
  }

  /** The documents with exactly this score, in order. */
  function OfScore(docs: seq<Doc>, v: real): seq<Doc> {
    if docs == [] then []
    else
      var rest := OfScore(docs[..|docs| - 1], v);
      if Score(docs[|docs| - 1]) == v then rest + [docs[|docs| - 1]] else rest
  }

  lemma {:induction false} OfScoreAppend(a: seq<Doc>, b: seq<Doc>, v: real)
    ensures OfScore(a + b, v) == OfScore(a, v) + OfScore(b, v)
  {
    if b == [] {
      assert a + b == a;
    } else {
      var init := b[..|b| - 1];
      assert (a + b)[..|a + b| - 1] == a + init;
      OfScoreAppend(a, init, v);
    }
  }

  lemma {:induction false} OfScoreNone(docs: seq<Doc>, v: real)
    requires forall i | 0 <= i < |docs| :: Score(docs[i]) != v
    ensures OfScore(docs, v) == []
  {
    if docs != [] {
      OfScoreNone(docs[..|docs| - 1], v);
    }
  }

  lemma {:induction false} InsertStable(docs: seq<Doc>, d: Doc, v: real)
    requires Sorted(docs)
    ensures OfScore(Insert(docs, d), v) == if Score(d) == v then OfScore(docs, v) + [d] else OfScore(docs, v)
  {
    var k := Slot(docs, d, |docs|);
    var low, high := docs[..k], docs[k..];
    SlotSplits(docs, d, |docs|);
    assert docs == low + high;
    OfScoreAppend(low, high, v);
    OfScoreAppend(low + [d], high, v);
    OfScoreAppend(low, [d], v);
    assert [d][..0] == [];
    if Score(d) == v {
      OfScoreNone(high, v);
    }
  }

  lemma {:induction false} SortSorted(docs: seq<Doc>, n: nat)
    requires n <= |docs|
    ensures Sorted(SortByScore(docs, n)) && |SortByScore(docs, n)| == n
  {
    if n > 0 {
      SortSorted(docs, n - 1);
      InsertSorted(SortByScore(docs, n - 1), docs[n - 1]);
    }
  }

  lemma {:induction false} StableStep(upTo: seq<Doc>, d: Doc, before: seq<Doc>, v: real)
    requires Sorted(before) && OfScore(before, v) == OfScore(upTo, v)
    ensures OfScore(Insert(before, d), v) == OfScore(upTo + [d], v)
  {
    InsertStable(before, d, v);
    assert (upTo + [d])[..|upTo|] == upTo;
  }

  lemma {:induction false} SortStable(docs: seq<Doc>, n: nat, v: real)
    requires n <= |docs|
    ensures OfScore(SortByScore(docs, n), v) == OfScore(docs[..n], v)
  {
    if n == 0 {
      assert docs[..0] == [];
    } else {
      var before := SortByScore(docs, n - 1);
      SortStable(docs, n - 1, v);
      assert Sorted(before) by { SortSorted(docs, n - 1); }
      StableStep(docs[..n - 1], docs[n - 1], before, v);
      assert docs[..n] == docs[..n - 1] + [docs[n - 1]];
    }
  }

  /** Descending, nothing lost or added, and equal scores keep the order they came in. */
  lemma {:induction false} SortMeaning(docs: seq<Doc>, v: real)
    ensures Sorted(SortByScore(docs, |docs|)) && |SortByScore(docs, |docs|)| == |docs|
    ensures OfScore(SortByScore(docs, |docs|), v) == OfScore(docs, v)
  {
    SortSorted(docs, |docs|);
    SortStable(docs, |docs|, v);
    assert docs[..|docs|] == docs;
  }

  lemma {:induction false} InsertMembers(docs: seq<Doc>, d: Doc)
    ensures forall x | x in Insert(docs, d) :: x == d || x in docs
    ensures DistinctIds(docs + [d]) ==> DistinctIds(Insert(docs, d))
  {
    var k := Slot(docs, d, |docs|);
    var r := Insert(docs, d);
    if DistinctIds(docs + [d]) {
      var more := docs + [d];
      forall i, j | 0 <= i < j < |r| ensures r[i].chunk.id != r[j].chunk.id {
        var a := if i < k then i else if i == k then |docs| else i - 1;
        var b := if j < k then j else if j == k then |docs| else j - 1;
        assert r[i] == more[a] && r[j] == more[b] && a != b;
      }
    }
  }

  lemma {:induction false} SortMembers(docs: seq<Doc>, n: nat)
    requires n <= |docs|
    ensures forall x | x in SortByScore(docs, n) :: exists k | 0 <= k < n :: docs[k] == x
    ensures DistinctIds(docs) ==> DistinctIds(SortByScore(docs, n))
  {
    if n > 0 {
      SortMembers(docs, n - 1);
      var s := SortByScore(docs, n - 1);
      InsertMembers(s, docs[n - 1]);
      if DistinctIds(docs) {
        DistinctAppend(s, docs[n - 1]);
      }
    }
  }

  datatype Hit = Hit(index: int, score: Option<real>)

  /** The rerank service: its results, a reply that is unusable, or an exception outside the handled ones. */
  datatype Reply = Results(hits: seq<Hit>) | Unusable | Broken

  /** A list index, where a negative one counts from the end. */
  function At(n: nat, index: int): (k: int) {
    if index < 0 then n + index else index
  }

  predicate InRange(n: nat, hits: seq<Hit>) {
    forall k | 0 <= k < |hits| :: 0 <= At(n, hits[k].index) < n
  }

  predicate DistinctHits(n: nat, hits: seq<Hit>) {
    forall i, j | 0 <= i < j < |hits| :: At(n, hits[i].index) != At(n, hits[j].index)
  }

  function Rescored(docs: seq<Doc>, hits: seq<Hit>): (s: seq<Doc>)
    requires InRange(|docs|, hits)
    ensures |s| == |hits|
  {
    seq(|hits|, k requires 0 <= k < |hits| => Doc(docs[At(|docs|, hits[k].index)].chunk, hits[k].score))
  }

  datatype Settings = Settings(skipEnabled: bool, skipMinScore: real, rerankerTopK: int, minContextScore: real, fallbackTopK: int)

  datatype Query = Query(useReranking: bool, hybrid: bool, minScore: real, topK: int)

  /** The documents in rank order; only scored ones carry reranker probabilities. */
  datatype Ranking = Ranking(docs: seq<Doc>, scored: bool, skipped: bool, degraded: bool)

  predicate CanSkip(g: Settings, q: Query, docs: seq<Doc>)
    requires docs != []
  {
    g.skipEnabled && q.hybrid && Score(docs[0]) >= g.skipMinScore
  }

  function Rank(g: Settings, q: Query, docs: seq<Doc>, reply: Reply): Ranking {
    if !q.useReranking || docs == [] then Ranking(docs, false, false, false)
    else if CanSkip(g, q, docs) then Ranking(Head(docs, g.rerankerTopK), false, true, false)
    else
      match reply
      case Results(hits) =>
        if InRange(|docs|, hits) then Ranking(SortByScore(Rescored(docs, hits), |hits|), true, false, false)
        else Ranking(docs, false, false, true)
      case Unusable => Ranking(Head(docs, g.rerankerTopK), false, false, true)
      case Broken => Ranking(docs, false, false, true)
  }

  lemma {:induction false} HeadMembers(docs: seq<Doc>, k: int)
    ensures Head(docs, k) <= docs
    ensures k >= 0 ==> |Head(docs, k)| <= k
    ensures DistinctIds(docs) ==> DistinctIds(Head(docs, k))
  {
  }

  lemma {:induction false} RescoredDistinct(docs: seq<Doc>, hits: seq<Hit>)
    requires InRange(|docs|, hits) && DistinctIds(docs) && DistinctHits(|docs|, hits)
    ensures DistinctIds(Rescored(docs, hits))
  {
    var s := Rescored(docs, hits);
    forall i, j | 0 <= i < j < |s| ensures s[i].chunk.id != s[j].chunk.id {
      var a, b := At(|docs|, hits[i].index), At(|docs|, hits[j].index);
      assert a != b && s[i].chunk == docs[a].chunk && s[j].chunk == docs[b].chunk;
    }
  }

  /** Ranking shows only chunks it was given, and each once if they and the result indices are distinct. */
  lemma {:induction false} RankMeaning(g: Settings, q: Query, docs: seq<Doc>, reply: Reply)
    ensures forall d | d in Rank(g, q, docs, reply).docs :: HasChunk(docs, d.chunk)
    ensures DistinctIds(docs) && (reply.Results? ==> DistinctHits(|docs|, reply.hits)) ==> DistinctIds(Rank(g, q, docs, reply).docs)
    ensures Rank(g, q, docs, reply).scored ==> Sorted(Rank(g, q, docs, reply).docs)
  {
    HeadMembers(docs, g.rerankerTopK);
    var r := Rank(g, q, docs, reply);
    if r.scored {
      RescoredRank(docs, reply.hits);
    } else {
      assert r.docs <= docs;
    }
  }

  lemma {:induction false} RescoredRank(docs: seq<Doc>, hits: seq<Hit>)
    requires InRange(|docs|, hits)
    ensures var r := SortByScore(Rescored(docs, hits), |hits|);
            && Sorted(r)
            && (forall d | d in r :: HasChunk(docs, d.chunk))
            && (DistinctIds(docs) && DistinctHits(|docs|, hits) ==> DistinctIds(r))
  {
    var s := Rescored(docs, hits);
    SortSorted(s, |hits|);
    SortMembers(s, |hits|);
    forall k | 0 <= k < |s| ensures HasChunk(docs, s[k].chunk) {
      assert docs[At(|docs|, hits[k].index)].chunk == s[k].chunk;
    }
    if DistinctIds(docs) && DistinctHits(|docs|, hits) {
      RescoredDistinct(docs, hits);
    }
  }

  /** The document a result stands for: the chunk at its index, from the end if that is negative, with its score. */
  predicate StandsFor(docs: seq<Doc>, hit: Hit, d: Doc) {
    && d.score == hit.score
    && ((0 <= hit.index < |docs| && d.chunk == docs[hit.index].chunk)
        || (-|docs| <= hit.index < 0 && d.chunk == docs[|docs| + hit.index].chunk))
  }

  lemma {:induction false} RescoredIs(docs: seq<Doc>, hits: seq<Hit>, picked: seq<Doc>)
    requires InRange(|docs|, hits) && |picked| == |hits| && forall k | 0 <= k < |hits| :: StandsFor(docs, hits[k], picked[k])
    ensures Rescored(docs, hits) == picked
  {
    var s := Rescored(docs, hits);
    forall k | 0 <= k < |hits| ensures s[k] == picked[k] {
      assert StandsFor(docs, hits[k], picked[k]);
    }
  }

  /**
   * When the reranker's results are used, the ranking is made of the documents they stand for, each with its own
   * score, as many as there are results, in descending order of score, and in the order of the results where scores tie.
   */
  lemma {:induction false} RankIsOfResults(g: Settings, q: Query, docs: seq<Doc>, hits: seq<Hit>, picked: seq<Doc>, v: real)
    requires Rank(g, q, docs, Results(hits)).scored
    requires |picked| == |hits| && forall k | 0 <= k < |hits| :: StandsFor(docs, hits[k], picked[k])
    ensures var r := Rank(g, q, docs, Results(hits)).docs;
            && |r| == |hits| && Sorted(r)
            && (forall k | 0 <= k < |hits| :: picked[k] in r)
            && (forall d | d in r :: exists k | 0 <= k < |hits| :: StandsFor(docs, hits[k], d))
            && OfScore(r, v) == OfScore(picked, v)
  {
    RescoredIs(docs, hits, picked);
    SortMeaning(picked, v);
    SortMembers(picked, |hits|);
    forall k | 0 <= k < |hits| ensures picked[k] in SortByScore(picked, |hits|) {
      SortKeeps(picked, |hits|, k);
    }
  }

  /** The reranker's results are used exactly if it is called, answers, and every index is one of the list. */
  lemma {:induction false} ScoredIff(g: Settings, q: Query, docs: seq<Doc>, reply: Reply)
    ensures Rank(g, q, docs, reply).scored <==>
              && q.useReranking && docs != [] && reply.Results?
              && !(g.skipEnabled && q.hybrid && Score(docs[0]) >= g.skipMinScore)
              && forall k | 0 <= k < |reply.hits| :: -|docs| <= reply.hits[k].index < |docs|
  {
    if reply.Results? {
      assert InRange(|docs|, reply.hits) <==> forall k | 0 <= k < |reply.hits| :: -|docs| <= reply.hits[k].index < |docs| by {
        forall k | 0 <= k < |reply.hits|
          ensures 0 <= At(|docs|, reply.hits[k].index) < |docs| <==> -|docs| <= reply.hits[k].index < |docs|
        {
        }
      }
    }
  }

  /** How long the slice `s[:k]` is. */
  function HeadLength(n: nat, k: int): nat {
    if k >= n then n else if k >= 0 then k else if n + k >= 0 then n + k else 0
  }

  /** Otherwise the ranking is a prefix of what was permitted: cut to the reranker's top-k if it is skipped or cannot be used, else all of it. */
  lemma {:induction false} UnscoredRank(g: Settings, q: Query, docs: seq<Doc>, reply: Reply)
    requires !Rank(g, q, docs, reply).scored
    ensures var r := Rank(g, q, docs, reply);
            && r.docs <= docs
            && |r.docs| == (if q.useReranking && docs != [] && (r.skipped || reply.Unusable?) then HeadLength(|docs|, g.rerankerTopK) else |docs|)
            && (r.skipped <==> q.useReranking && docs != [] && g.skipEnabled && q.hybrid && Score(docs[0]) >= g.skipMinScore)
            && (r.degraded <==> q.useReranking && docs != [] && !r.skipped)
  {
    HeadMembers(docs, g.rerankerTopK);
  }

  // ---------------------------------------------------------------- step 8: relevance gate and top-k

  function Floor(g: Settings, q: Query): real {
    if g.minContextScore <= q.minScore then g.minContextScore else q.minScore
  }

  /** The documents among the first `n` that reach the floor. */
  function AtLeast(docs: seq<Doc>, floor: real, n: nat): seq<Doc>
    requires n <= |docs|
  {
    if n == 0 then []
    else if Score(docs[n - 1]) >= floor then AtLeast(docs, floor, n - 1) + [docs[n - 1]]
    else AtLeast(docs, floor, n - 1)
  }

  function TopScore(docs: seq<Doc>): real {
    if docs == [] then 0.0 else Score(docs[0])
  }

  function Gated(g: Settings, q: Query, docs: seq<Doc>): seq<Doc> {
    var above := if TopScore(docs) >= q.minScore then AtLeast(docs, Floor(g, q), |docs|) else [];
    if above == [] && g.fallbackTopK > 0 then Head(docs, g.fallbackTopK) else above
  }

  function Final(g: Settings, q: Query, r: Ranking): seq<Doc> {
    Head(if q.minScore > 0.0 && r.scored then Gated(g, q, r.docs) else r.docs, q.topK)
  }

  /** In descending order, reaching the floor is a matter of coming first. */
  lemma {:induction false} AtLeastIsPrefix(docs: seq<Doc>, floor: real, n: nat)
    requires n <= |docs| && Sorted(docs)
    ensures var a := AtLeast(docs, floor, n);
            && |a| <= n && a == docs[..|a|]
            && (forall i | 0 <= i < |a| :: Score(docs[i]) >= floor)
            && (forall i | |a| <= i < n :: Score(docs[i]) < floor)
  {
    if n > 0 {
      AtLeastIsPrefix(docs, floor, n - 1);
      var a := AtLeast(docs, floor, n - 1);
      if Score(docs[n - 1]) >= floor {
        assert |a| == n - 1;
        assert docs[..n] == docs[..n - 1] + [docs[n - 1]];
      }
    }
  }

  /** What is shown is a prefix of the rank order of at most top-k documents. */
  lemma {:induction false} FinalIsPrefix(g: Settings, q: Query, r: Ranking)
    requires r.scored ==> Sorted(r.docs)
    ensures Final(g, q, r) <= r.docs
    ensures q.topK >= 0 ==> |Final(g, q, r)| <= q.topK
  {
    if q.minScore > 0.0 && r.scored {
      AtLeastIsPrefix(r.docs, Floor(g, q), |r.docs|);
      HeadMembers(r.docs, g.fallbackTopK);
      assert Gated(g, q, r.docs) <= r.docs;
      HeadMembers(Gated(g, q, r.docs), q.topK);
    } else {
      HeadMembers(r.docs, q.topK);
    }
  }

  /** The gate on a ranking in descending order. */
  lemma {:induction false} GateAbstains(g: Settings, q: Query, r: Ranking)
    requires r.scored && Sorted(r.docs) && q.minScore > 0.0 && q.topK >= 1 && g.fallbackTopK <= 0
    ensures Final(g, q, r) != [] <==> exists d | d in r.docs :: Score(d) >= q.minScore
    ensures forall d | d in Final(g, q, r) :: Score(d) >= Floor(g, q)
    ensures forall i | |Final(g, q, r)| <= i < |r.docs| && Final(g, q, r) != [] ::
              |Final(g, q, r)| == q.topK || Score(r.docs[i]) < Floor(g, q)
  {
    AtLeastIsPrefix(r.docs, Floor(g, q), |r.docs|);
    var a := AtLeast(r.docs, Floor(g, q), |r.docs|);
    if exists d | d in r.docs :: Score(d) >= q.minScore {
      var d :| d in r.docs && Score(d) >= q.minScore;
      assert Score(r.docs[0]) >= Score(d);
      assert |a| > 0;
    }
  }

  /** Reaching the floor is reaching the lower one of the threshold and the context score. */
  predicate ReachesFloor(g: Settings, q: Query, d: Doc) {
    Score(d) >= q.minScore || Score(d) >= g.minContextScore
  }

  /**
   * The gate in full, on scores in descending order: if some document reaches the threshold, what is shown is the
   * documents that reach the floor, as many as top-k allows; else as many as the fallback and top-k allow.
   */
  lemma {:induction false} GateMeaning(g: Settings, q: Query, r: Ranking)
    requires r.scored && Sorted(r.docs) && q.minScore > 0.0 && q.topK >= 0
    ensures Final(g, q, r) <= r.docs
    ensures (exists d | d in r.docs :: Score(d) >= q.minScore) ==>
              && (forall i | 0 <= i < |Final(g, q, r)| :: ReachesFloor(g, q, r.docs[i]))
              && (forall i | |Final(g, q, r)| <= i < |r.docs| :: |Final(g, q, r)| == q.topK || !ReachesFloor(g, q, r.docs[i]))
    ensures !(exists d | d in r.docs :: Score(d) >= q.minScore) ==>
              |Final(g, q, r)| == HeadLength(if g.fallbackTopK > 0 then HeadLength(|r.docs|, g.fallbackTopK) else 0, q.topK)
  {
    FinalIsPrefix(g, q, r);
    AtLeastIsPrefix(r.docs, Floor(g, q), |r.docs|);
    if exists d | d in r.docs :: Score(d) >= q.minScore {
      var d :| d in r.docs && Score(d) >= q.minScore;
      assert Score(r.docs[0]) >= Score(d);
    } else if r.docs != [] {
      assert r.docs[0] in r.docs;
    }
  }

  function HitScore(h: Hit): real {
    if h.score.Some? then h.score.value else 0.0
  }

  predicate HitReaches(hits: seq<Hit>, threshold: real) {
    exists k | 0 <= k < |hits| :: HitScore(hits[k]) >= threshold
  }

  lemma {:induction false} SortKeeps(docs: seq<Doc>, n: nat, k: nat)
    requires k < n <= |docs|
    ensures docs[k] in SortByScore(docs, n)
  {
    var s := SortByScore(docs, n - 1);
    var at := Slot(s, docs[n - 1], |s|);
    if k == n - 1 {
      assert Insert(s, docs[k])[at] == docs[k];
    } else {
      SortKeeps(docs, n - 1, k);
      var j :| 0 <= j < |s| && s[j] == docs[k];
      assert Insert(s, docs[n - 1])[if j < at then j else j + 1] == docs[k];
    }
  }

  lemma {:induction false} RankedReaches(docs: seq<Doc>, hits: seq<Hit>, threshold: real)
    requires InRange(|docs|, hits)
    ensures (exists d | d in SortByScore(Rescored(docs, hits), |hits|) :: Score(d) >= threshold) <==> HitReaches(hits, threshold)
  {
    var s := Rescored(docs, hits);
    var r := SortByScore(s, |hits|);
    SortMembers(s, |hits|);
    if HitReaches(hits, threshold) {
      var k :| 0 <= k < |hits| && HitScore(hits[k]) >= threshold;
      SortKeeps(s, |hits|, k);
      assert s[k] in r && Score(s[k]) == HitScore(hits[k]);
    }
    if exists d | d in r :: Score(d) >= threshold {
      var d :| d in r && Score(d) >= threshold;
      var k :| 0 <= k < |s| && s[k] == d;
      assert HitScore(hits[k]) == Score(s[k]);
    }
  }

  /**
   * With a threshold and no fallback, when the reranker answered: documents are shown exactly when one of its
   * results reaches the threshold, and what is shown is the best documents that reach the floor, as many as fit.
   */
  lemma {:induction false} Abstention(g: Settings, q: Query, docs: seq<Doc>, reply: Reply)
    requires q.minScore > 0.0 && q.topK >= 1 && g.fallbackTopK <= 0 && Rank(g, q, docs, reply).scored
    ensures var r, shown := Rank(g, q, docs, reply), Final(g, q, Rank(g, q, docs, reply));
            && reply.Results?
            && (shown != [] <==> HitReaches(reply.hits, q.minScore))
            && shown <= r.docs && Sorted(r.docs)
            && (forall d | d in shown :: Score(d) >= Floor(g, q))
            && (shown != [] ==> forall i | |shown| <= i < |r.docs| :: |shown| == q.topK || Score(r.docs[i]) < Floor(g, q))
  {
    var r := Rank(g, q, docs, reply);
    RankMeaning(g, q, docs, reply);
    GateAbstains(g, q, r);
    FinalIsPrefix(g, q, r);
    RankedReaches(docs, reply.hits, q.minScore);
  }

  /** With the fallback on, ranked documents are never all dropped, in whatever order they are. */
  lemma {:induction false} FallbackAnswers(g: Settings, q: Query, r: Ranking)
    requires q.topK >= 1 && g.fallbackTopK > 0
    ensures Final(g, q, r) != [] <==> r.docs != []
  {
    AtLeastMembers(r.docs, Floor(g, q), |r.docs|);
  }

  lemma {:induction false} AtLeastMembers(docs: seq<Doc>, floor: real, n: nat)
    requires n <= |docs|
    ensures |AtLeast(docs, floor, n)| <= n
  {
    if n > 0 {
      AtLeastMembers(docs, floor, n - 1);
    }
  }

  /** Scores that are not the reranker's are never compared with the threshold. */
  lemma {:induction false} ThresholdOnlyOnProbabilities(g: Settings, q: Query, docs: seq<Doc>, reply: Reply, threshold: real)
    requires !Rank(g, q, docs, reply).scored
    ensures var p := q.(minScore := threshold);
            && Rank(g, p, docs, reply) == Rank(g, q, docs, reply)
            && Final(g, p, Rank(g, p, docs, reply)) == Head(Rank(g, q, docs, reply).docs, q.topK)
            && Final(g, q, Rank(g, q, docs, reply)) == Head(Rank(g, q, docs, reply).docs, q.topK)
  {
    var p := q.(minScore := threshold);
    assert docs != [] ==> CanSkip(g, p, docs) == CanSkip(g, q, docs);
  }

  // ---------------------------------------------------------------- the whole way

  /** The two retrievals, where `None` is one that raises; the policy engine, for each candidate; the reranker. */
  datatype Answers = Answers(first: Option<seq<Doc>>, expanded: Option<seq<Doc>>, verdicts: seq<Verdict>, policyRaises: bool, reply: Reply)

  datatype Outcome = RetrievalFailed | PolicyFailed | Shown(docs: seq<Doc>)

  function Candidates(a: Answers): seq<Doc> {
    if a.first.None? then []
    else if a.expanded.Some? then Union(a.first.value, a.expanded.value, |a.expanded.value|)
    else a.first.value
  }

  function Allowed(a: Answers): seq<Doc>
    requires |a.verdicts| == |Candidates(a)|
  {
    Permitted(Candidates(a), a.verdicts, |a.verdicts|)
  }

  function Result(g: Settings, q: Query, a: Answers): Outcome
    requires |a.verdicts| == |Candidates(a)|
  {
    if a.first.None? then RetrievalFailed
    else if Candidates(a) != [] && a.policyRaises then PolicyFailed
    else Shown(Final(g, q, Rank(g, q, Allowed(a), a.reply)))
  }

  /** Nothing is shown if the retrieval raises, or if there is something to check and the check raises; a failing expansion is done without. */
  lemma {:induction false} ShownIff(g: Settings, q: Query, a: Answers)
    requires |a.verdicts| == |Candidates(a)|
    ensures Result(g, q, a).Shown? <==> a.first.Some? && (a.policyRaises ==> Candidates(a) == [])
    ensures a.first.Some? && a.expanded.None? ==> Candidates(a) == a.first.value
    ensures a.first.Some? ==> a.first.value <= Candidates(a)
  {
    if a.first.Some? && a.expanded.Some? {
      UnionMeaning(a.first.value, a.expanded.value, |a.expanded.value|);
    }
  }

  /** Whatever the services answer, every document shown was retrieved and explicitly permitted. */
  lemma {:induction false} ShownIsPermitted(g: Settings, q: Query, a: Answers)
    requires |a.verdicts| == |Candidates(a)| && Result(g, q, a).Shown?
    ensures forall d | d in Result(g, q, a).docs :: Approved(Candidates(a), a.verdicts, d.chunk)
    ensures q.topK >= 0 ==> |Result(g, q, a).docs| <= q.topK
  {
    var permitted := Allowed(a);
    PermittedMeaning(Candidates(a), a.verdicts);
    RankMeaning(g, q, permitted, a.reply);
    var r := Rank(g, q, permitted, a.reply);
    FinalIsPrefix(g, q, r);
    forall d | d in Final(g, q, r) ensures Approved(Candidates(a), a.verdicts, d.chunk) {
      assert d in r.docs;
      var k :| 0 <= k < |permitted| && permitted[k].chunk == d.chunk;
      assert permitted[k] in permitted;
    }
  }

  /** No chunk is shown twice if neither the first retrieval nor the reranker's indices repeat one. */
  lemma {:induction false} ShownOnce(g: Settings, q: Query, a: Answers)
    requires |a.verdicts| == |Candidates(a)| && Result(g, q, a).Shown? && DistinctIds(a.first.value)
    requires a.reply.Results? ==> DistinctHits(|Allowed(a)|, a.reply.hits)
    ensures DistinctIds(Result(g, q, a).docs)
  {
    if a.expanded.Some? {
      UnionMeaning(a.first.value, a.expanded.value, |a.expanded.value|);
    }
    PermittedMeaning(Candidates(a), a.verdicts);
    RankMeaning(g, q, Allowed(a), a.reply);
    FinalIsPrefix(g, q, Rank(g, q, Allowed(a), a.reply));
  }

  // ---------------------------------------------------------------- the service

  class RagService {
    const settings: Settings
    var lastRerankerDegraded: bool
    var lastRerankSkipped: bool
    var lastCandidatesIn: nat
    var lastCandidatesOut: nat

    constructor (settings: Settings)
      ensures this.settings == settings && !lastRerankerDegraded && !lastRerankSkipped
      ensures lastCandidatesIn == 0 && lastCandidatesOut == 0
    {
      this.settings := settings;
      lastRerankerDegraded, lastRerankSkipped, lastCandidatesIn, lastCandidatesOut := false, false, 0, 0;
    }

    /** A failing expanded retrieval leaves the first candidates. */
    method Unite(first: seq<Doc>, expanded: Option<seq<Doc>>) returns (docs: seq<Doc>)
      ensures docs == if expanded.Some? then Union(first, expanded.value, |expanded.value|) else first
    {
      docs := first;
      if expanded.Some? {
        var second := expanded.value;
        var seen := set d | d in first :: d.chunk.id;
        for i := 0 to |second|
          invariant docs == Union(first, second, i)
          invariant forall id: string :: id in seen <==> HasId(docs, id)
        {
          if second[i].chunk.id !in seen {
            SeenAppend(docs, second[i]);
            docs := docs + [second[i]];
            seen := seen + {second[i].chunk.id};
          }
        }
      }
    }

    method Validate(docs: seq<Doc>, verdicts: seq<Verdict>) returns (allowed: seq<Doc>)
      requires |verdicts| == |docs|
      ensures allowed == Permitted(docs, verdicts, |docs|)
    {
      allowed := [];
      for i := 0 to |docs|
        invariant allowed == Permitted(docs, verdicts, i)
      {
        if verdicts[i] == Allow {
          allowed := allowed + [docs[i]];
        }
      }
    }

    /** The reranker: a result index out of range raises. */
    method RunReranker(docs: seq<Doc>, hits: seq<Hit>) returns (ranked: Option<seq<Doc>>)
      ensures ranked == if InRange(|docs|, hits) then Some(SortByScore(Rescored(docs, hits), |hits|)) else None
    {
      var scored: seq<Doc> := [];
      for i := 0 to |hits|
        invariant |scored| == i
        invariant forall k | 0 <= k < i :: 0 <= At(|docs|, hits[k].index) < |docs|
        invariant forall k | 0 <= k < i :: scored[k] == Doc(docs[At(|docs|, hits[k].index)].chunk, hits[k].score)
      {
        var at := At(|docs|, hits[i].index);
        if at < 0 || at >= |docs| {
          return None;
        }
        scored := scored + [Doc(docs[at].chunk, hits[i].score)];
      }
      assert scored == Rescored(docs, hits);
      ranked := Some(SortByScore(scored, |scored|));
    }

    method RankDocuments(q: Query, allowed: seq<Doc>, reply: Reply) returns (documents: seq<Doc>, rerankerScored: bool)
      modifies this
      ensures var r := Rank(settings, q, allowed, reply);
              && documents == r.docs && rerankerScored == r.scored
              && (q.useReranking && allowed != [] ==>
                    && lastRerankSkipped == (r.skipped || old(lastRerankSkipped)) && lastRerankerDegraded == r.degraded
                    && lastCandidatesIn == |allowed| && lastCandidatesOut == |r.docs|)
              && (!q.useReranking || allowed == [] ==>
                    && lastRerankSkipped == old(lastRerankSkipped) && lastRerankerDegraded == old(lastRerankerDegraded)
                    && lastCandidatesIn == old(lastCandidatesIn) && lastCandidatesOut == old(lastCandidatesOut))
    {
      documents, rerankerScored := allowed, false;
      if q.useReranking && documents != [] {
        var candidatesIn := |documents|;
        var topFusedScore := Score(documents[0]);
        var canSkipRerank := settings.skipEnabled && q.hybrid && topFusedScore >= settings.skipMinScore;
        if canSkipRerank {
          documents := Head(documents, settings.rerankerTopK);
          lastRerankerDegraded, lastRerankSkipped := false, true;
        } else {
          match reply {
            case Results(hits) =>
              var ranked := RunReranker(documents, hits);
              if ranked.Some? {
                documents, lastRerankerDegraded, rerankerScored := ranked.value, false, true;
              } else {
                lastRerankerDegraded := true;
              }
            case Unusable =>
              documents, lastRerankerDegraded := Head(documents, settings.rerankerTopK), true;
            case Broken =>
              lastRerankerDegraded := true;
          }
        }
        lastCandidatesIn, lastCandidatesOut := candidatesIn, |documents|;
      }
    }

    method ApplyGate(q: Query, ranked: seq<Doc>, rerankerScored: bool) returns (documents: seq<Doc>)
      ensures forall skipped, degraded :: documents == Final(settings, q, Ranking(ranked, rerankerScored, skipped, degraded))
    {
      documents := ranked;
      if q.minScore > 0.0 && rerankerScored {
        var top := if documents != [] then Score(documents[0]) else 0.0;
        var above: seq<Doc> := [];
        if top >= q.minScore {
          var floor := if settings.minContextScore <= q.minScore then settings.minContextScore else q.minScore;
          for i := 0 to |documents|
            invariant above == AtLeast(documents, floor, i)
          {
            if Score(documents[i]) >= floor {
              above := above + [documents[i]];
            }
          }
        }
        if above == [] && settings.fallbackTopK > 0 {
          above := Head(documents, settings.fallbackTopK);
        }
        documents := above;
      }
      documents := Head(documents, q.topK);
    }

    /** Steps 5 to 8 of `stream`: a retrieval or policy check that raises shows nothing. */
    method Stream(q: Query, a: Answers) returns (outcome: Outcome)
      requires |a.verdicts| == |Candidates(a)|
      modifies this
      ensures outcome == Result(settings, q, a)
    {
      lastRerankerDegraded, lastRerankSkipped, lastCandidatesIn, lastCandidatesOut := false, false, 0, 0;
      if a.first.None? {
        return RetrievalFailed;
      }
      var retrieved := Unite(a.first.value, a.expanded);
      var allowed: seq<Doc> := [];
      if retrieved != [] {
        if a.policyRaises {
          return PolicyFailed;
        }
        allowed := Validate(retrieved, a.verdicts);
      }
      var ranked, scored := RankDocuments(q, allowed, a.reply);
      var documents := ApplyGate(q, ranked, scored);
      outcome := Shown(documents);
    }
  }

  lemma {:induction false} SeenAppend(docs: seq<Doc>, d: Doc)
    ensures forall id: string :: HasId(docs + [d], id) <==> HasId(docs, id) || id == d.chunk.id
  {
    forall id: string ensures HasId(docs + [d], id) <==> HasId(docs, id) || id == d.chunk.id {
      if HasId(docs, id) {
        var k :| 0 <= k < |docs| && docs[k].chunk.id == id;
        assert (docs + [d])[k].chunk.id == id;
      }
      assert (docs + [d])[|docs|].chunk.id == d.chunk.id;
    }
  }
}
