/** Ingestion bookkeeping and the retrieval sentinel of rag.py. The vector
    store is a map from chunk id to chunk with upsert semantics; md5, the
    text splitter and the LLM are passed in as functions. */
module Rag {
  import opened Wrappers
  import opened Text
  import opened Seqs

  /** `Document(page_content=chunk, metadata={"file_id": file_hash})`. */
  datatype Chunk = Chunk(text: string, fileId: string)

  const BatchSize: nat := 5
  const NotFound := "NOT_FOUND"

  /** What `hashlib.md5(...).hexdigest()` returns: 32 lower-case hex digits. */
  predicate IsHexDigest(h: string) {
    |h| == 32 && forall i :: 0 <= i < |h| ==> ('0' <= h[i] <= '9') || ('a' <= h[i] <= 'f')
  }

  /** `f"{file_id}_{k}"`. */
  function ChunkId(fileId: string, k: nat): string {
    fileId + "_" + Digits(k)
  }

  /** Ids built from underscore-free hashes determine both the hash and the
      position they were built from. */
  lemma ChunkIdInjective(h1: string, k1: nat, h2: string, k2: nat)
    requires '_' !in h1 && '_' !in h2
    requires ChunkId(h1, k1) == ChunkId(h2, k2)
    ensures h1 == h2 && k1 == k2
  {
    var id := ChunkId(h1, k1);
    assert id[|h1|] == '_' && id[..|h1|] == h1;
    assert ChunkId(h2, k2)[|h2|] == '_' && ChunkId(h2, k2)[..|h2|] == h2;
    if |h1| < |h2| {
      assert false;
    } else if |h2| < |h1| {
      assert false;
    } else {
      assert h1 == id[..|h1|] == h2;
      assert Digits(k1) == id[|h1| + 1..] == Digits(k2);
      DigitsInjective(k1, k2);
    }
  }

  /** `any(file_hash in doc_id for doc_id in existing_ids)`. */
  predicate AlreadyStored(h: string, existing: set<string>) {
    exists id :: id in existing && Contains(id, h)
  }

  /** The chunks of one text, in splitter order, each tagged with the text's hash. */
  function ChunksOf(t: string, md5: string -> string, split: string -> seq<string>): seq<Chunk> {
    seq(|split(t)|, j requires 0 <= j < |split(t)| => Chunk(split(t)[j], md5(t)))
  }

  /** What one text adds to `all_chunks`: nothing when its hash is already
      inside an id read before the loop, otherwise its chunks. */
  function Contribution(t: string, existing: set<string>, md5: string -> string, split: string -> seq<string>): seq<Chunk> {
    if AlreadyStored(md5(t), existing) then [] else ChunksOf(t, md5, split)
  }

  /** `all_chunks` after the first loop (rag.py:41-54): texts whose hash is
      already inside some id of the store (as read once before the loop)
      contribute nothing; the others contribute their chunks in order. */
  function CollectChunks(texts: seq<string>, existing: set<string>, md5: string -> string, split: string -> seq<string>): seq<Chunk>
    decreases |texts|
  {
    if texts == [] then []
    else
      CollectChunks(texts[..|texts| - 1], existing, md5, split)
        + Contribution(texts[|texts| - 1], existing, md5, split)
  }

  lemma CollectChunksSnoc(init: seq<string>, t: string, existing: set<string>, md5: string -> string, split: string -> seq<string>)
    ensures CollectChunks(init + [t], existing, md5, split)
         == CollectChunks(init, existing, md5, split) + Contribution(t, existing, md5, split)
  {
    var s := init + [t];
    assert s[..|s| - 1] == init && s[|s| - 1] == t;
  }

  /** One text contributes nothing exactly when its hash is already inside
      a stored id, and otherwise its own chunks. */
  lemma CollectChunksSingle(t: string, existing: set<string>, md5: string -> string, split: string -> seq<string>)
    ensures CollectChunks([t], existing, md5, split) ==
            if AlreadyStored(md5(t), existing) then [] else ChunksOf(t, md5, split)
  {
    CollectChunksSnoc([], t, existing, md5, split);
    AppendEmpty([t]);
  }

  /** Chunks come text by text, in the order of the texts: collecting over
      a concatenation is the concatenation of the collections. */
  lemma {:induction false} CollectChunksOrder(a: seq<string>, b: seq<string>, existing: set<string>, md5: string -> string, split: string -> seq<string>)
    ensures CollectChunks(a + b, existing, md5, split) == CollectChunks(a, existing, md5, split) + CollectChunks(b, existing, md5, split)
    decreases |b|
  {
    if b == [] {
      AppendEmpty(a);
    } else {
      var b', t := b[..|b| - 1], b[|b| - 1];
      CollectChunksOrder(a, b', existing, md5, split);
      SnocSplit(a, b);
      CollectChunksSnoc(a + b', t, existing, md5, split);
      CollectChunksSnoc(b', t, existing, md5, split);
      var ca, cb, x := CollectChunks(a, existing, md5, split), CollectChunks(b', existing, md5, split), Contribution(t, existing, md5, split);
      AppendAssoc(ca, cb, x);
    }
  }

  /** `existing_ids` is read once before the loop, so a text given twice in
      the same call is chunked twice. */
  lemma RepeatedTextChunkedTwice(t: string, existing: set<string>, md5: string -> string, split: string -> seq<string>)
    requires !AlreadyStored(md5(t), existing)
    ensures CollectChunks([t, t], existing, md5, split) == ChunksOf(t, md5, split) + ChunksOf(t, md5, split)
  {
    CollectChunksOrder([t], [t], existing, md5, split);
    CollectChunksSingle(t, existing, md5, split);
    assert [t] + [t] == [t, t];
  }

  /** Every collected chunk carries the hash of one of the texts as its
      `file_id`, and that hash is inside no id already in the store. */
  lemma {:induction false} CollectChunksProvenance(texts: seq<string>, existing: set<string>, md5: string -> string, split: string -> seq<string>)
    ensures forall c :: c in CollectChunks(texts, existing, md5, split) ==>
      !AlreadyStored(c.fileId, existing) && exists t :: t in texts && c.fileId == md5(t)
    decreases |texts|
  {
    if texts != [] {
      var init := texts[..|texts| - 1];
      var t := texts[|texts| - 1];
      CollectChunksProvenance(init, existing, md5, split);
      forall c | c in CollectChunks(texts, existing, md5, split)
        ensures !AlreadyStored(c.fileId, existing) && exists u :: u in texts && c.fileId == md5(u)
      {
        if c in CollectChunks(init, existing, md5, split) {
          var u :| u in init && c.fileId == md5(u);
          assert u in texts;
        } else {
          assert c in ChunksOf(t, md5, split);
          assert t in texts;
        }
      }
    }
  }

  /** The id of every chunk, `f"{file_id}_{k}"` with `k` its position in
      `all_chunks` (not its position within its own text). */
  function ChunkIds(cs: seq<Chunk>): seq<string> {
    seq(|cs|, k requires 0 <= k < |cs| => ChunkId(cs[k].fileId, k))
  }

  /** The ids of one ingestion are pairwise distinct, even when two chunks
      come from the same text or from two copies of it. */
  lemma ChunkIdsDistinct(cs: seq<Chunk>)
    requires forall c :: c in cs ==> '_' !in c.fileId
    ensures Distinct(ChunkIds(cs))
  {
    var ids := ChunkIds(cs);
    forall i, j | 0 <= i < j < |ids| ensures ids[i] != ids[j] {
      if ids[i] == ids[j] {
        assert cs[i] in cs && cs[j] in cs;
        ChunkIdInjective(cs[i].fileId, i, cs[j].fileId, j);
      }
    }
  }

  /** No new id equals an id already in the store: a new id contains its
      chunk's hash, and a hash inside an existing id was skipped. */
  lemma ChunkIdsFresh(cs: seq<Chunk>, existing: set<string>)
    requires forall c :: c in cs ==> !AlreadyStored(c.fileId, existing)
    ensures forall k :: 0 <= k < |cs| ==> ChunkIds(cs)[k] !in existing
  {
    forall k | 0 <= k < |cs| ensures ChunkIds(cs)[k] !in existing {
      var h := cs[k].fileId;
      ContainsInfix([], h, "_" + Digits(k));
      assert [] + h + ("_" + Digits(k)) == ChunkIds(cs)[k];
      assert cs[k] in cs;
    }
  }

  // ---------------------------------------------------------------------------
  // The vector store: upserts keyed by id
  // ---------------------------------------------------------------------------

  /** Adding `docs` under `ids`, one after the other; an id already present
      is overwritten. */
  function Upsert(m: map<string, Chunk>, ids: seq<string>, docs: seq<Chunk>): map<string, Chunk>
    requires |ids| == |docs|
    decreases |ids|
  {
    if ids == [] then m else Upsert(m[ids[0] := docs[0]], ids[1..], docs[1..])
  }

  /** Upserting in two calls is upserting the concatenation. */
  lemma {:induction false} UpsertAppend(m: map<string, Chunk>, a: seq<string>, x: seq<Chunk>, b: seq<string>, y: seq<Chunk>)
    requires |a| == |x| && |b| == |y|
    ensures Upsert(m, a + b, x + y) == Upsert(Upsert(m, a, x), b, y)
    decreases |a|
  {
    if a == [] {
      assert a + b == b && x + y == y;
    } else {
      assert (a + b)[0] == a[0] && (x + y)[0] == x[0];
      assert (a + b)[1..] == a[1..] + b && (x + y)[1..] == x[1..] + y;
      UpsertAppend(m[a[0] := x[0]], a[1..], x[1..], b, y);
    }
  }

  /** After the upserts the store holds exactly the old ids and the new ones. */
  lemma {:induction false} UpsertKeys(m: map<string, Chunk>, ids: seq<string>, docs: seq<Chunk>)
    requires |ids| == |docs|
    ensures Upsert(m, ids, docs).Keys == m.Keys + set id | id in ids
    decreases |ids|
  {
    if ids != [] {
      UpsertKeys(m[ids[0] := docs[0]], ids[1..], docs[1..]);
      assert (set id | id in ids) == {ids[0]} + set id | id in ids[1..];
    }
  }

  /** After upserting distinct ids, each of them holds its own chunk and
      every other stored id keeps its old chunk. */
  lemma {:induction false} UpsertValues(m: map<string, Chunk>, ids: seq<string>, docs: seq<Chunk>)
    requires |ids| == |docs| && Distinct(ids)
    ensures forall k :: 0 <= k < |ids| ==> ids[k] in Upsert(m, ids, docs) && Upsert(m, ids, docs)[ids[k]] == docs[k]
    ensures forall id :: id in m && id !in ids ==> id in Upsert(m, ids, docs) && Upsert(m, ids, docs)[id] == m[id]
    decreases |ids|
  {
    if ids != [] {
      var m' := m[ids[0] := docs[0]];
      assert Distinct(ids[1..]) by {
        forall i, j | 0 <= i < j < |ids[1..]| ensures ids[1..][i] != ids[1..][j] {
          assert ids[1..][i] == ids[i + 1] && ids[1..][j] == ids[j + 1];
        }
      }
      UpsertValues(m', ids[1..], docs[1..]);
      assert ids[0] !in ids[1..] by {
        forall i | 0 <= i < |ids[1..]| ensures ids[1..][i] != ids[0] {
          assert ids[1..][i] == ids[i + 1];
        }
      }
      forall k | 0 < k < |ids| ensures ids[k] == ids[1..][k - 1] && docs[k] == docs[1..][k - 1] {
      }
    }
  }

  /** Upserting distinct ids none of which is present grows the store by
      exactly their number. */
  lemma {:induction false} UpsertFreshSize(m: map<string, Chunk>, ids: seq<string>, docs: seq<Chunk>)
    requires |ids| == |docs| && Distinct(ids)
    requires forall k :: 0 <= k < |ids| ==> ids[k] !in m
    ensures |Upsert(m, ids, docs)| == |m| + |ids|
    decreases |ids|
  {
    if ids != [] {
      var m' := m[ids[0] := docs[0]];
      assert |m'.Keys| == |m.Keys + {ids[0]}| == |m.Keys| + 1;
      forall k | 0 <= k < |ids[1..]| ensures ids[1..][k] !in m' {
        assert ids[1..][k] == ids[k + 1] != ids[0];
      }
      UpsertFreshSize(m', ids[1..], docs[1..]);
    }
  }

  // ---------------------------------------------------------------------------
  // Batches of five: `for i in range(0, n, 5): all_chunks[i : i + 5]`
  // ---------------------------------------------------------------------------

  function Batches<T>(s: seq<T>, size: nat): seq<seq<T>>
    requires size > 0
    decreases |s|
  {
    if s == [] then []
    else if |s| <= size then [s]
    else [s[..size]] + Batches(s[size..], size)
  }

  function Flatten<T>(ss: seq<seq<T>>): seq<T> {
    if ss == [] then [] else ss[0] + Flatten(ss[1..])
  }

  /** The batches are consecutive, non-empty slices of at most `size`
      elements that together give back the whole sequence, in order. */
  lemma {:induction false} BatchesPartition<T>(s: seq<T>, size: nat)
    requires size > 0
    ensures Flatten(Batches(s, size)) == s
    ensures forall b :: b in Batches(s, size) ==> 0 < |b| <= size
    decreases |s|
  {
    if s == [] {
    } else if |s| <= size {
      assert Flatten([s]) == s + Flatten([]);
    } else {
      BatchesPartition(s[size..], size);
      var bs := Batches(s[size..], size);
      assert ([s[..size]] + bs)[1..] == bs;
      assert s[..size] + s[size..] == s;
    }
  }

  /** The Chroma collection. `log` records the ids of every `add_documents`
      call, in order, so that the batching can be stated. */
  class VectorStore {
    var entries: map<string, Chunk>
    ghost var log: seq<seq<string>>

    /** `Chroma(persist_directory=CHROMA_PATH, ...)`: the collection opens
        with whatever earlier runs persisted; on a fresh directory that is
        nothing. */
    constructor(persisted: map<string, Chunk>)
      ensures entries == persisted && log == []
    {
      entries := persisted;
      log := [];
    }

    /** `_collection.count()`. */
    function Count(): nat
      reads this
    {
      |entries|
    }

    /** The ids of `vectorstore.get()`. */
    method Ids() returns (ids: set<string>)
      ensures ids == entries.Keys
    {
      ids := entries.Keys;
    }

    /** `add_documents(batch, ids=ids)`: an upsert of each chunk under its id. */
    method AddDocuments(batch: seq<Chunk>, ids: seq<string>)
      requires |batch| == |ids|
      modifies this
      ensures entries == Upsert(old(entries), ids, batch)
      ensures log == old(log) + [ids]
    {
      entries := Upsert(entries, ids, batch);
      log := log + [ids];
    }
  }

  /** The first loop of `ingest_documents` (rag.py:41-54): hash each text,
      skip it when its hash is inside an id read before the loop, and
      otherwise append its chunks to `all_chunks`. */
  method SplitTexts(texts: seq<string>, existingIds: set<string>, md5: string -> string, split: string -> seq<string>)
    returns (allChunks: seq<Chunk>)
    ensures allChunks == CollectChunks(texts, existingIds, md5, split)
  {
    allChunks := [];
    var i := 0;
    while i < |texts|
      invariant 0 <= i <= |texts|
      invariant allChunks == CollectChunks(texts[..i], existingIds, md5, split)
    {
      var text := texts[i];
      var fileHash := md5(text);
      PrefixSnoc(texts, i);
      CollectChunksSnoc(texts[..i], text, existingIds, md5, split);
      if !AlreadyStored(fileHash, existingIds) {
        var chunks := split(text);
        ghost var before := allChunks;
        ghost var mine := ChunksOf(text, md5, split);
        var j := 0;
        while j < |chunks|
          invariant 0 <= j <= |chunks|
          invariant allChunks == before + mine[..j]
        {
          PrefixSnoc(mine, j);
          AppendAssoc(before, mine[..j], [mine[j]]);
          allChunks := allChunks + [Chunk(chunks[j], fileHash)];
          j := j + 1;
        }
        assert mine[..j] == mine;
      } else {
        AppendEmpty(allChunks);
      }
      i := i + 1;
    }
    assert texts[..i] == texts;
  }


  /** `[f"{doc.metadata['file_id']}_{idx}" for idx, doc in enumerate(batch, start=i)]`. */
  function IdsFrom(batch: seq<Chunk>, start: nat): seq<string> {
    seq(|batch|, k requires 0 <= k < |batch| => ChunkId(batch[k].fileId, start + k))
  }

  /** The ids of the batch starting at `i` are the global ids of its chunks. */
  lemma IdsFromSlice(cs: seq<Chunk>, i: nat, e: nat)
    requires i <= e <= |cs|
    ensures IdsFrom(cs[i..e], i) == ChunkIds(cs)[i..e]
  {
    var l, r := IdsFrom(cs[i..e], i), ChunkIds(cs)[i..e];
    forall k | 0 <= k < e - i ensures l[k] == r[k] {
      assert cs[i..e][k] == cs[i + k];
    }
  }

  /** One more batch extends the upserted prefix. */
  lemma UpsertExtend(m: map<string, Chunk>, ids: seq<string>, docs: seq<Chunk>, i: nat, e: nat)
    requires |ids| == |docs| && i <= e <= |ids|
    ensures Upsert(Upsert(m, ids[..i], docs[..i]), ids[i..e], docs[i..e]) == Upsert(m, ids[..e], docs[..e])
  {
    UpsertAppend(m, ids[..i], docs[..i], ids[i..e], docs[i..e]);
    PrefixSplit(ids, i, e);
    PrefixSplit(docs, i, e);
  }

  /** Where the batch loop stops: at the start of batch number `failAt`
      when that `add_documents` call raises, otherwise after the last chunk. */
  function StopAt(n: nat, failAt: Option<nat>): nat {
    if failAt.Some? && failAt.value * BatchSize < n then failAt.value * BatchSize else n
  }

  /** The batch loop of `ingest_documents` (rag.py:63-70): for `i` in
      `range(0, n, 5)`, add `all_chunks[i : i + 5]` under the ids
      `f"{file_id}_{k}"`, `k` counted from `i`. The call of batch number
      `failAt`, if there is one, raises: the loop ends there, with the
      earlier batches stored and none of the later ones. */
  method AddInBatches(store: VectorStore, allChunks: seq<Chunk>, failAt: Option<nat>) returns (raised: bool)
    modifies store
    ensures raised <==> StopAt(|allChunks|, failAt) < |allChunks|
    ensures var ids, stop := ChunkIds(allChunks), StopAt(|allChunks|, failAt);
      && store.entries == Upsert(old(store.entries), ids[..stop], allChunks[..stop])
      && store.log == old(store.log) + Batches(ids[..stop], BatchSize)
  {
    ghost var m0, log0 := store.entries, store.log;
    ghost var allIds := ChunkIds(allChunks);
    var n := |allChunks|;
    var addedIds: seq<string> := [];
    raised := false;
    var i := 0;
    while i < n
      invariant i <= StopAt(n, failAt) <= n
      invariant i < n ==> i % BatchSize == 0
      invariant addedIds == allIds[..i]
      invariant store.entries == Upsert(m0, allIds[..i], allChunks[..i])
      invariant store.log == log0 + Batches(allIds[..i], BatchSize)
    {
      var e := if i + BatchSize < n then i + BatchSize else n;
      StopAtStep(n, failAt, i, e);
      if failAt == Some(i / BatchSize) {
        // `add_documents` raises: the exception leaves the loop and the function
        raised := true;
        assert StopAt(n, failAt) == i;
        return;
      }
      var batch := allChunks[i..e];
      var ids := IdsFrom(batch, i);
      BatchAdvance(m0, allChunks, i, e);
      store.AddDocuments(batch, ids);
      addedIds := addedIds + ids;
      // the next value of `range(0, n, 5)`; when it would pass `n` the loop ends either way
      i := e;
    }
  }

  /** What one more batch does to the ids, the upserted prefix and the
      batches logged so far. */
  lemma BatchAdvance(m0: map<string, Chunk>, cs: seq<Chunk>, i: nat, e: nat)
    requires i < |cs| && i % BatchSize == 0 && e == if i + BatchSize < |cs| then i + BatchSize else |cs|
    ensures var all, ids := ChunkIds(cs), IdsFrom(cs[i..e], i);
      && all[..i] + ids == all[..e]
      && Upsert(Upsert(m0, all[..i], cs[..i]), ids, cs[i..e]) == Upsert(m0, all[..e], cs[..e])
      && Batches(all[..i], BatchSize) + [ids] == Batches(all[..e], BatchSize)
  {
    var all := ChunkIds(cs);
    IdsFromSlice(cs, i, e);
    UpsertExtend(m0, all, cs, i, e);
    BatchesSnoc(all, i, e);
    PrefixSplit(all, i, e);
  }

  /** Batch number `i / 5` raises exactly when the loop is to stop at `i`;
      otherwise the loop may go on to the end `e` of the batch. */
  lemma StopAtStep(n: nat, failAt: Option<nat>, i: nat, e: nat)
    requires i < n && i % BatchSize == 0 && i <= StopAt(n, failAt)
    requires e == if i + BatchSize < n then i + BatchSize else n
    ensures failAt == Some(i / BatchSize) <==> StopAt(n, failAt) == i
    ensures failAt != Some(i / BatchSize) ==> e <= StopAt(n, failAt)
    ensures e < n ==> e % BatchSize == 0
  {
    if failAt.Some? && failAt.value * BatchSize < n {
      var f := failAt.value;
      assert i == (i / BatchSize) * BatchSize;
      if f != i / BatchSize {
        assert f * BatchSize != i;
        assert f * BatchSize >= i + BatchSize by {
          assert f > i / BatchSize;
        }
      }
    }
  }

  /** The batches of a prefix that ends on a batch boundary, followed by
      one more batch. */
  lemma BatchesSnoc<T>(s: seq<T>, i: nat, e: nat)
    requires i < |s| && i % BatchSize == 0 && e == if i + BatchSize < |s| then i + BatchSize else |s|
    ensures Batches(s[..e], BatchSize) == Batches(s[..i], BatchSize) + [s[i..e]]
  {
    BatchesSplit(s[..e], i);
    assert s[..e][..i] == s[..i] && s[..e][i..] == s[i..e];
  }

  /** Cutting a sequence on a batch boundary cuts its batches there. */
  lemma {:induction false} BatchesSplit<T>(s: seq<T>, i: nat)
    requires i <= |s| && i % BatchSize == 0
    ensures Batches(s, BatchSize) == Batches(s[..i], BatchSize) + Batches(s[i..], BatchSize)
    decreases i
  {
    if i == 0 {
      assert s[..0] == [] && s[0..] == s;
      AppendEmpty(Batches(s, BatchSize));
    } else if |s| <= BatchSize {
      assert s[..i] == s && s[i..] == [];
      AppendEmpty(Batches(s, BatchSize));
    } else if i == BatchSize {
    } else {
      var t := s[BatchSize..];
      BatchesSplit(t, i - BatchSize);
      assert s[..i][..BatchSize] == s[..BatchSize] && s[..i][BatchSize..] == t[..i - BatchSize];
      assert t[i - BatchSize..] == s[i..];
      AppendAssoc([s[..BatchSize]], Batches(t[..i - BatchSize], BatchSize), Batches(s[i..], BatchSize));
    }
  }

  lemma BatchesStep<T>(s: seq<T>, i: nat, e: nat)
    requires i < |s| && e == if i + BatchSize < |s| then i + BatchSize else |s|
    ensures Batches(s[i..], BatchSize) == [s[i..e]] + Batches(s[e..], BatchSize)
  {
    if |s[i..]| > BatchSize {
      assert s[i..][..BatchSize] == s[i..e];
      assert s[i..][BatchSize..] == s[e..];
    } else {
      assert s[i..e] == s[i..];
      assert s[e..] == [];
    }
  }

  /** How `ingest_documents` ends: it returns the count, or an
      `add_documents` call raises and the exception propagates. */
  datatype IngestResult = Added(count: int) | Raised

  /** `ingest_documents(texts)` (rag.py:26-85). Returns the store count after
      minus the count before, which is the number of chunks produced. The
      `add_documents` call of batch number `failAt`, if there is one, raises:
      the batches before it stay stored and the exception propagates. */
  method Ingest(store: VectorStore, texts: seq<string>, md5: string -> string, split: string -> seq<string>, failAt: Option<nat>)
    returns (r: IngestResult)
    requires forall t :: IsHexDigest(md5(t))
    modifies store
    ensures var cs := CollectChunks(texts, old(store.entries).Keys, md5, split);
      var stop := StopAt(|cs|, failAt);
      && store.entries == Upsert(old(store.entries), ChunkIds(cs)[..stop], cs[..stop])
      && store.log == old(store.log) + Batches(ChunkIds(cs)[..stop], BatchSize)
      && |store.entries| - |old(store.entries)| == stop
      && (r.Raised? <==> stop < |cs|)
      && (r.Added? ==> r.count == |cs| == |store.entries| - |old(store.entries)|)
      && (cs == [] ==> store.entries == old(store.entries) && store.log == old(store.log) && r == Added(0))
  {
    ghost var m0 := store.entries;
    var existingIds := store.Ids();
    var allChunks := SplitTexts(texts, existingIds, md5, split);
    NewChunksGrowStore(m0, texts, md5, split, StopAt(|allChunks|, failAt));
    if |allChunks| > 0 {
      var initialCount := store.Count();
      var raised := AddInBatches(store, allChunks, failAt);
      if raised {
        return Raised;
      }
      assert ChunkIds(allChunks)[..|allChunks|] == ChunkIds(allChunks) && allChunks[..|allChunks|] == allChunks;
      var totalDocs := store.Count();
      r := Added(totalDocs - initialCount);
    } else {
      r := Added(0);
      assert Upsert(m0, ChunkIds(allChunks)[..0], allChunks[..0]) == m0;
      assert Batches(ChunkIds(allChunks)[..0], BatchSize) == [];
    }
  }

  /** The chunks of one ingestion land under fresh, distinct ids, so the
      store grows by exactly the number of chunks stored, whether all of
      them or only those before a failing batch. */
  lemma NewChunksGrowStore(m: map<string, Chunk>, texts: seq<string>, md5: string -> string, split: string -> seq<string>, stop: nat)
    requires forall t :: IsHexDigest(md5(t))
    requires stop <= |CollectChunks(texts, m.Keys, md5, split)|
    ensures var cs := CollectChunks(texts, m.Keys, md5, split);
      |Upsert(m, ChunkIds(cs)[..stop], cs[..stop])| == |m| + stop
  {
    var cs := CollectChunks(texts, m.Keys, md5, split);
    FreshDistinctIds(m, texts, md5, split);
    var ids := ChunkIds(cs);
    assert Distinct(ids[..stop]) by {
      forall i, j | 0 <= i < j < stop ensures ids[..stop][i] != ids[..stop][j] {
        assert ids[..stop][i] == ids[i] && ids[..stop][j] == ids[j];
      }
    }
    UpsertFreshSize(m, ids[..stop], cs[..stop]);
  }

  /** The ids of one ingestion are distinct and none is already stored. */
  lemma FreshDistinctIds(m: map<string, Chunk>, texts: seq<string>, md5: string -> string, split: string -> seq<string>)
    requires forall t :: IsHexDigest(md5(t))
    ensures var cs := CollectChunks(texts, m.Keys, md5, split);
      Distinct(ChunkIds(cs)) && forall k :: 0 <= k < |cs| ==> ChunkIds(cs)[k] !in m.Keys
  {
    var cs := CollectChunks(texts, m.Keys, md5, split);
    CollectChunksProvenance(texts, m.Keys, md5, split);
    forall c | c in cs ensures '_' !in c.fileId {
      var t :| t in texts && c.fileId == md5(t);
      assert IsHexDigest(md5(t));
    }
    ChunkIdsDistinct(cs);
    ChunkIdsFresh(cs, m.Keys);
  }

  /** When an `add_documents` call raises, a text with a chunk stored before
      the failure is skipped by every later ingestion, while its chunks
      from the failing batch on are not in the store: the document stays
      incomplete for good. */
  lemma PartialIngestIsPermanent(m: map<string, Chunk>, texts: seq<string>, t: string, md5: string -> string, split: string -> seq<string>, stop: nat, p: nat)
    requires forall u :: IsHexDigest(md5(u))
    requires var cs := CollectChunks(texts, m.Keys, md5, split);
      p < stop <= |cs| && cs[p].fileId == md5(t)
    ensures var cs := CollectChunks(texts, m.Keys, md5, split);
      var stored := Upsert(m, ChunkIds(cs)[..stop], cs[..stop]).Keys;
      && CollectChunks([t], stored, md5, split) == []
      && forall q :: stop <= q < |cs| ==> ChunkIds(cs)[q] !in stored
  {
    var cs := CollectChunks(texts, m.Keys, md5, split);
    var ids := ChunkIds(cs);
    var stored := Upsert(m, ids[..stop], cs[..stop]).Keys;
    ChunkIdStored(m, cs, p, stop);
    ChunkIdContainsHash(md5(t), p);
    CollectChunksSingle(t, stored, md5, split);
    FreshDistinctIds(m, texts, md5, split);
    LaterIdsNotStored(m, ids, cs, stop);
  }

  /** With distinct ids none of which was stored, upserting the first
      `stop` of them leaves the later ones out of the store. */
  lemma LaterIdsNotStored(m: map<string, Chunk>, ids: seq<string>, cs: seq<Chunk>, stop: nat)
    requires |ids| == |cs| && stop <= |ids| && Distinct(ids)
    requires forall k :: 0 <= k < |ids| ==> ids[k] !in m.Keys
    ensures forall q :: stop <= q < |ids| ==> ids[q] !in Upsert(m, ids[..stop], cs[..stop]).Keys
  {
    UpsertKeys(m, ids[..stop], cs[..stop]);
    forall q | stop <= q < |ids| ensures ids[q] !in ids[..stop] {
      assert forall i :: 0 <= i < stop ==> ids[..stop][i] == ids[i] != ids[q];
    }
  }

  /** A new text that splits into at least one chunk has its first chunk
      somewhere in the collection. */
  lemma CollectedHasChunkOf(texts: seq<string>, t: string, existing: set<string>, md5: string -> string, split: string -> seq<string>)
    requires t in texts && !AlreadyStored(md5(t), existing) && split(t) != []
    ensures exists p :: 0 <= p < |CollectChunks(texts, existing, md5, split)|
                        && CollectChunks(texts, existing, md5, split)[p].fileId == md5(t)
  {
    var k :| 0 <= k < |texts| && texts[k] == t;
    var pre, post := texts[..k], texts[k + 1..];
    assert texts == pre + [t] + post;
    CollectChunksOrder(pre + [t], post, existing, md5, split);
    CollectChunksOrder(pre, [t], existing, md5, split);
    CollectChunksSingle(t, existing, md5, split);
    var p := |CollectChunks(pre, existing, md5, split)|;
    assert CollectChunks(texts, existing, md5, split)[p] == ChunksOf(t, md5, split)[0];
  }

  /** Re-ingesting a text that an earlier ingestion stored (it was new and
      produced at least one chunk) skips it: it adds no chunks. */
  lemma ReingestIsSkipped(m: map<string, Chunk>, texts: seq<string>, t: string, md5: string -> string, split: string -> seq<string>)
    requires t in texts && !AlreadyStored(md5(t), m.Keys) && split(t) != []
    ensures var cs := CollectChunks(texts, m.Keys, md5, split);
      CollectChunks([t], Upsert(m, ChunkIds(cs), cs).Keys, md5, split) == []
  {
    var cs := CollectChunks(texts, m.Keys, md5, split);
    CollectedHasChunkOf(texts, t, m.Keys, md5, split);
    var p :| 0 <= p < |cs| && cs[p].fileId == md5(t);
    var stored := Upsert(m, ChunkIds(cs), cs).Keys;
    ChunkIdStored(m, cs, p, |cs|);
    assert ChunkIds(cs)[..|cs|] == ChunkIds(cs) && cs[..|cs|] == cs;
    ChunkIdContainsHash(md5(t), p);
    assert ChunkId(md5(t), p) in stored;
    CollectChunksSingle(t, stored, md5, split);
  }

  /** A chunk id contains the hash it was made from. */
  lemma ChunkIdContainsHash(h: string, k: nat)
    ensures Contains(ChunkId(h, k), h)
  {
    ContainsInfix([], h, "_" + Digits(k));
    assert [] + h + ("_" + Digits(k)) == ChunkId(h, k);
  }

  /** Every chunk before `stop` has its id in the store once the chunks
      before `stop` are upserted. */
  lemma ChunkIdStored(m: map<string, Chunk>, cs: seq<Chunk>, p: nat, stop: nat)
    requires p < stop <= |cs|
    ensures ChunkId(cs[p].fileId, p) in Upsert(m, ChunkIds(cs)[..stop], cs[..stop]).Keys
  {
    var ids := ChunkIds(cs)[..stop];
    UpsertKeys(m, ids, cs[..stop]);
    assert ids[p] == ChunkId(cs[p].fileId, p);
    assert ids[p] in ids;
  }


  // ---------------------------------------------------------------------------
  // retrieve_answer
  // ---------------------------------------------------------------------------

  /** `sep.join(parts)`. */
  function Join(sep: string, parts: seq<string>): string
    decreases |parts|
  {
    if parts == [] then "" else if |parts| == 1 then parts[0] else parts[0] + sep + Join(sep, parts[1..])
  }

  /** Every part occurs in the joined string. */
  lemma {:induction false} JoinContainsParts(sep: string, parts: seq<string>)
    ensures forall k :: 0 <= k < |parts| ==> Contains(Join(sep, parts), parts[k])
    decreases |parts|
  {
    if |parts| == 1 {
      ContainsInfix([], parts[0], []);
      AppendEmpty(parts[0]);
    } else if |parts| > 1 {
      var rest := Join(sep, parts[1..]);
      JoinContainsParts(sep, parts[1..]);
      JoinHead(sep, parts);
      ContainsInfix([], parts[0], sep + rest);
      forall k | 1 <= k < |parts| ensures Contains(Join(sep, parts), parts[k]) {
        assert parts[1..][k - 1] == parts[k];
        ContainsWithin(parts[0] + sep, rest, [], parts[k]);
      }
    }
  }

  lemma JoinHead(sep: string, parts: seq<string>)
    requires |parts| > 1
    ensures Join(sep, parts) == [] + parts[0] + (sep + Join(sep, parts[1..]))
    ensures Join(sep, parts) == (parts[0] + sep) + Join(sep, parts[1..]) + []
  {
  }


  const PromptHead := "Answer strictly using context: "
  const PromptTail := "\n\nIf missing, say 'NOT_FOUND'.\nQuestion: "

  /** The prompt of rag.py:101-102. */
  function Prompt(docs: seq<string>, query: string): string {
    PromptHead + Join("\n\n", docs) + PromptTail + query
  }

  /** `retrieve_answer(query)`, given what the top-5 retriever returned and
      the LLM: the sentinel when nothing was retrieved, otherwise the LLM's
      stripped answer as it is, with no further filtering. */
  function RetrieveAnswer(query: string, docs: seq<string>, llm: string -> string): string {
    if docs == [] then NotFound else Strip(llm(Prompt(docs, query)))
  }

  /** Nothing retrieved: the answer is the sentinel, which the router reads
      as not found. */
  lemma EmptyRetrievalIsNotFound(query: string, llm: string -> string)
    ensures RetrieveAnswer(query, [], llm) == NotFound
    ensures Contains(RetrieveAnswer(query, [], llm), NotFound)
  {
    assert IsPrefix(NotFound, NotFound);
  }

  /** Something retrieved: the LLM is asked with every retrieved text and
      the question in its prompt, and whatever it answers, stripped, is the
      answer. */
  lemma RetrievedAnswerIsGrounded(query: string, docs: seq<string>, llm: string -> string)
    requires docs != []
    ensures forall d :: d in docs ==> Contains(Prompt(docs, query), d)
    ensures Contains(Prompt(docs, query), query)
    ensures RetrieveAnswer(query, docs, llm) == Strip(llm(Prompt(docs, query)))
  {
    var j := Join("\n\n", docs);
    var pr := Prompt(docs, query);
    assert pr == PromptHead + j + (PromptTail + query);
    JoinContainsParts("\n\n", docs);
    forall d | d in docs ensures Contains(pr, d) {
      var k :| 0 <= k < |docs| && docs[k] == d;
      ContainsWithin(PromptHead, j, PromptTail + query, d);
    }
    ContainsInfix(PromptHead + j + PromptTail, query, []);
    assert PromptHead + j + PromptTail + query + [] == pr;
  }

}
