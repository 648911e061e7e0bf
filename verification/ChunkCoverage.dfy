/** Which documents of a batch have been observed, in any order and with duplicates. */
module ChunkCoverage {
  import opened Util
  import opened Contracts
  import opened CanonicalJson
  import opened GreedyPartition
  import opened Chunks

  datatype Coverage = Coverage(complete: bool, missingIndexes: seq<nat>)

  /** The document belongs to the batch the first document announces. */
  predicate BelongsTo(d: Document, first: Document) {
    && d.schemaVersion == SCHEMA_VERSION
    && d.envelope.batchID == first.envelope.batchID
    && d.envelope.sessionID == first.envelope.sessionID
    && d.envelope.workspacePath == first.envelope.workspacePath
    && d.chunkCount == first.chunkCount
    && 0 <= d.chunkIndex < first.chunkCount
  }

  /** Canonical bytes are compared as the trees they encode. */
  ghost predicate SameBytes(d: Document, e: Document) {
    ToJson(d) == ToJson(e)
  }

  ghost predicate Accepted(d: Document, first: Document) {
    BelongsTo(d, first) && Encodable(ToJson(d))
  }

  /** One batch: every document accepted, and duplicates of an index identical. */
  ghost predicate Consistent(docs: seq<Document>) {
    && |docs| > 0 && 1 <= docs[0].chunkCount <= MAX_CAPTURE_BATCH_CHUNKS
    && (forall k | 0 <= k < |docs| :: Accepted(docs[k], docs[0]))
    && (forall k, l | 0 <= k < l < |docs| ::
          docs[k].chunkIndex == docs[l].chunkIndex ==> SameBytes(docs[k], docs[l]))
  }

  ghost predicate Seen(docs: seq<Document>, index: int) {
    exists k | 0 <= k < |docs| :: docs[k].chunkIndex == index
  }

  /** The ascending list of the indexes below `count` that no document carries. */
  ghost predicate AscendingComplement(docs: seq<Document>, count: int, missing: seq<nat>) {
    && (forall index: nat :: index in missing <==> index < count && !Seen(docs, index))
    && (forall i, j | 0 <= i < j < |missing| :: missing[i] < missing[j])
  }

  /** What the map of observed documents holds after the first `n` documents. */
  ghost predicate Observed(docs: seq<Document>, n: nat, observed: map<int, Json>)
    requires n <= |docs|
  {
    && (forall index :: index in observed <==> Seen(docs[..n], index))
    && (forall k | 0 <= k < n :: docs[k].chunkIndex in observed && observed[docs[k].chunkIndex] == ToJson(docs[k]))
  }

  lemma SeenStep(docs: seq<Document>, n: nat, index: int)
    requires n < |docs|
    ensures Seen(docs[..n + 1], index) <==> Seen(docs[..n], index) || docs[n].chunkIndex == index
  {
    if Seen(docs[..n], index) {
      var k :| 0 <= k < n && docs[..n][k].chunkIndex == index;
      assert docs[..n + 1][k].chunkIndex == index;
    }
    if docs[n].chunkIndex == index {
      assert docs[..n + 1][n].chunkIndex == index;
    }
    if Seen(docs[..n + 1], index) && docs[n].chunkIndex != index {
      var k :| 0 <= k < n + 1 && docs[..n + 1][k].chunkIndex == index;
      assert docs[..n][k].chunkIndex == index;
    }
  }

  lemma ObservedStep(docs: seq<Document>, n: nat, observed: map<int, Json>)
    requires n < |docs| && Observed(docs, n, observed)
    requires docs[n].chunkIndex in observed ==> observed[docs[n].chunkIndex] == ToJson(docs[n])
    ensures Observed(docs, n + 1, observed[docs[n].chunkIndex := ToJson(docs[n])])
  {
    hide ToJson;
    forall index
      ensures Seen(docs[..n + 1], index) <==> Seen(docs[..n], index) || docs[n].chunkIndex == index
    {
      SeenStep(docs, n, index);
    }
  }

  /** A document seen before under the same index came with the bytes now held for it. */
  lemma EarlierDocument(docs: seq<Document>, n: nat, observed: map<int, Json>) returns (k: nat)
    requires n < |docs| && Observed(docs, n, observed) && docs[n].chunkIndex in observed
    ensures k < n && docs[k].chunkIndex == docs[n].chunkIndex && observed[docs[n].chunkIndex] == ToJson(docs[k])
  {
    hide ToJson;
    assert Seen(docs[..n], docs[n].chunkIndex);
    k :| 0 <= k < n && docs[..n][k].chunkIndex == docs[n].chunkIndex;
  }

  /** Consistency, field by field. */
  lemma ConsistentFields(docs: seq<Document>)
    ensures Consistent(docs) <==>
      && |docs| > 0 && 1 <= docs[0].chunkCount <= 1_000
      && (forall k | 0 <= k < |docs| ::
            && docs[k].schemaVersion == "capture-batch/v1" && docs[k].envelope.batchID == docs[0].envelope.batchID
            && docs[k].envelope.sessionID == docs[0].envelope.sessionID
            && docs[k].envelope.workspacePath == docs[0].envelope.workspacePath
            && docs[k].chunkCount == docs[0].chunkCount && 0 <= docs[k].chunkIndex < docs[0].chunkCount
            && Encodable(ToJson(docs[k])))
      && (forall k, l | 0 <= k < l < |docs| && docs[k].chunkIndex == docs[l].chunkIndex ::
            ToJson(docs[k]) == ToJson(docs[l]))
  {
    hide ToJson, CostOf, Encodable;
    if Consistent(docs) {
      assert forall k | 0 <= k < |docs| :: Accepted(docs[k], docs[0]);
    }
  }

  method InspectChunkCoverage(docs: seq<Document>) returns (result: Result<Coverage>)
    ensures result.Ok? <==> Consistent(docs)
    ensures result.Ok? ==> AscendingComplement(docs, docs[0].chunkCount, result.value.missingIndexes)
    ensures result.Ok? ==> (result.value.complete <==> forall index | 0 <= index < docs[0].chunkCount :: Seen(docs, index))
  {
    hide ToJson, CostOf, Encodable, Observed, BelongsTo;
    if |docs| == 0 {
      return Refused;
    }
    var first := docs[0];
    if first.chunkCount < 1 || first.chunkCount > MAX_CAPTURE_BATCH_CHUNKS {
      return Refused;
    }
    var observed: map<int, Json> := map[];
    ObservedStart(docs);
    for n := 0 to |docs|
      invariant Observed(docs, n, observed)
      invariant forall k | 0 <= k < n :: Accepted(docs[k], docs[0])
      invariant forall k, l | 0 <= k < l < n :: docs[k].chunkIndex == docs[l].chunkIndex ==> SameBytes(docs[k], docs[l])
    {
      var chunk := docs[n];
      if !BelongsTo(chunk, first) {
        assert !Accepted(docs[n], docs[0]);
        return Refused;
      }
      var encoded := EncodeDocument(chunk);
      if encoded.None? {
        assert !Accepted(docs[n], docs[0]);
        return Refused;
      }
      if chunk.chunkIndex in observed {
        ghost var k := EarlierDocument(docs, n, observed);
        if observed[chunk.chunkIndex] != encoded.value {
          assert !SameBytes(docs[k], docs[n]);
          return Refused;
        }
      }
      DuplicatesAgree(docs, n, observed);
      ObservedStep(docs, n, observed);
      observed := observed[chunk.chunkIndex := encoded.value];
    }
    var missing := MissingIndexes(docs, first.chunkCount, observed);
    return Ok(Coverage(|missing| == 0, missing));
  }

  lemma ObservedStart(docs: seq<Document>)
    ensures Observed(docs, 0, map[])
  {
  }

  lemma DuplicatesAgree(docs: seq<Document>, n: nat, observed: map<int, Json>)
    requires n < |docs| && Observed(docs, n, observed)
    requires docs[n].chunkIndex in observed ==> observed[docs[n].chunkIndex] == ToJson(docs[n])
    ensures forall k | 0 <= k < n :: docs[k].chunkIndex == docs[n].chunkIndex ==> SameBytes(docs[k], docs[n])
  {
    hide ToJson;
  }

  method EncodeDocument(d: Document) returns (encoded: Option<Json>)
    ensures encoded.Some? <==> Encodable(ToJson(d))
    ensures encoded.Some? ==> encoded.value == ToJson(d)
  {
    var size := EncodeCanonicalJson(ToJson(d));
    hide ToJson, CostOf;
    encoded := if size.Some? then Some(ToJson(d)) else None;
  }

  method MissingIndexes(ghost docs: seq<Document>, count: int, observed: map<int, Json>) returns (missing: seq<nat>)
    requires Observed(docs, |docs|, observed) && count >= 0
    ensures AscendingComplement(docs, count, missing)
    ensures |missing| == 0 <==> forall index | 0 <= index < count :: Seen(docs, index)
  {
    WholeSlice(docs);
    hide ToJson;
    missing := [];
    for index := 0 to count
      invariant AscendingComplement(docs, index, missing)
      invariant forall i | 0 <= i < |missing| :: missing[i] < index
      invariant |missing| == 0 <==> forall i | 0 <= i < index :: Seen(docs, i)
    {
      if index !in observed {
        assert forall m :: m in missing + [index] <==> m in missing || m == index;
        missing := missing + [index];
      }
    }
  }

  // ----- what arrives of one build -----

  /** The events of the documents, ordered by index: for each index, those of the first document carrying it. */
  function Reassembled(docs: seq<Document>, count: nat): seq<Json> {
    if count == 0 then []
    else Reassembled(docs, count - 1) + EventsAt(docs, count - 1)
  }

  function EventsAt(docs: seq<Document>, index: nat): seq<Json> {
    if |docs| == 0 then []
    else if docs[0].chunkIndex == index then docs[0].events
    else EventsAt(docs[1..], index)
  }

  /** Documents that all come from one build, in any order and with any repetition. */
  ghost predicate FromBuild(docs: seq<Document>, env: Envelope, events: seq<Json>, cuts: seq<nat>)
    requires Partition(|events|, cuts)
  {
    forall k | 0 <= k < |docs| :: IsBuilt(docs[k], env, events, cuts)
  }

  ghost predicate IsBuilt(d: Document, env: Envelope, events: seq<Json>, cuts: seq<nat>)
    requires Partition(|events|, cuts)
  {
    exists g | 0 <= g < |cuts| :: IsDocument(d, env, events, cuts, g)
  }

  ghost predicate IsDocument(d: Document, env: Envelope, events: seq<Json>, cuts: seq<nat>, g: nat)
    requires Partition(|events|, cuts) && g < |cuts|
  {
    d == DocumentFor(env, g, |cuts|, events[Start(cuts, g)..cuts[g]])
  }

  lemma {:induction false} EventsAtOfBuild(docs: seq<Document>, env: Envelope, events: seq<Json>, cuts: seq<nat>, g: nat)
    requires Partition(|events|, cuts) && FromBuild(docs, env, events, cuts)
    requires g < |cuts| && Seen(docs, g)
    ensures EventsAt(docs, g) == events[Start(cuts, g)..cuts[g]]
  {
    assert IsBuilt(docs[0], env, events, cuts);
    if docs[0].chunkIndex != g {
      var k :| 0 <= k < |docs| && docs[k].chunkIndex == g;
      assert docs[1..][k - 1].chunkIndex == g;
      forall j | 0 <= j < |docs[1..]|
        ensures IsBuilt(docs[1..][j], env, events, cuts)
      {
        assert IsBuilt(docs[j + 1], env, events, cuts);
      }
      EventsAtOfBuild(docs[1..], env, events, cuts, g);
    }
  }

  lemma {:induction false} ReassembledPrefix(docs: seq<Document>, env: Envelope, events: seq<Json>, cuts: seq<nat>, count: nat)
    requires Partition(|events|, cuts) && FromBuild(docs, env, events, cuts) && count <= |cuts|
    requires forall g | 0 <= g < |cuts| :: Seen(docs, g)
    ensures Start(cuts, count) <= |events|
    ensures Reassembled(docs, count) == events[..Start(cuts, count)]
  {
    if count > 0 {
      ReassembledPrefix(docs, env, events, cuts, count - 1);
      EventsAtOfBuild(docs, env, events, cuts, count - 1);
      JoinSlices(events, Start(cuts, count - 1), cuts[count - 1]);
    }
  }

  /** A built document is accepted next to any other document of the build, and its index determines it. */
  lemma BuiltTogether(d: Document, e: Document, env: Envelope, events: seq<Json>, cuts: seq<nat>)
    requires Partition(|events|, cuts) && |cuts| <= MAX_CAPTURE_BATCH_CHUNKS
    requires forall g | 0 <= g < |cuts| :: DocumentFits(env, events, cuts, g)
    requires IsBuilt(d, env, events, cuts) && IsBuilt(e, env, events, cuts)
    ensures Accepted(d, e) && d.chunkCount == |cuts|
    ensures d.chunkIndex == e.chunkIndex ==> d == e
  {
    hide ToJson, CostOf;
    var g :| 0 <= g < |cuts| && IsDocument(d, env, events, cuts, g);
    var h :| 0 <= h < |cuts| && IsDocument(e, env, events, cuts, h);
    assert DocumentFits(env, events, cuts, g);
  }

  /** Documents of one build are always consistent. */
  lemma BuildIsConsistent(docs: seq<Document>, env: Envelope, events: seq<Json>, cuts: seq<nat>)
    requires Partition(|events|, cuts) && |cuts| <= MAX_CAPTURE_BATCH_CHUNKS
    requires forall g | 0 <= g < |cuts| :: DocumentFits(env, events, cuts, g)
    requires |docs| > 0 && FromBuild(docs, env, events, cuts)
    ensures Consistent(docs) && docs[0].chunkCount == |cuts|
  {
    hide ToJson, Encodable, BelongsTo, IsBuilt, DocumentFits;
    forall k, l | 0 <= k < |docs| && 0 <= l < |docs|
      ensures Accepted(docs[k], docs[l]) && docs[k].chunkCount == |cuts|
      ensures docs[k].chunkIndex == docs[l].chunkIndex ==> SameBytes(docs[k], docs[l])
    {
      BuiltTogether(docs[k], docs[l], env, events, cuts);
    }
  }

  /** Once no document of the build is missing, ordering by index restores the event list. */
  lemma CompleteCoverageRestoresEvents(docs: seq<Document>, env: Envelope, events: seq<Json>, cuts: seq<nat>)
    requires Partition(|events|, cuts) && FromBuild(docs, env, events, cuts)
    requires forall g | 0 <= g < |cuts| :: Seen(docs, g)
    ensures Reassembled(docs, |cuts|) == events
  {
    hide IsBuilt;
    ReassembledPrefix(docs, env, events, cuts, |cuts|);
    WholeSlice(events);
  }
}
