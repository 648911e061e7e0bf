/** Capture documents and their coverage. */
module Chunks {
  // Splitting one session's events into bounded capture documents, and checking
  // which documents of a batch have been seen.

  import opened Util
  import opened Contracts
  import opened CanonicalJson
  import opened GreedyPartition

  const MAX_EVENTS: nat := 10_000
  const SCHEMA_VERSION := "capture-batch/v1"

  /** What every document of one batch shares. */
  datatype Envelope = Envelope(bootstrap: Json, batchID: string, sessionID: string, workspacePath: Option<string>)

  datatype Document = Document(
    schemaVersion: string, envelope: Envelope, chunkIndex: int, chunkCount: int, events: seq<Json>)

  // ----- documents and their size -----

  function DigitCount(n: nat): (count: nat)
    ensures count >= 1
  {
    if n < 10 then 1 else 1 + DigitCount(n / 10)
  }

  function Decimal(n: nat): (text: string)
    ensures |text| == DigitCount(n)
  {
    var digit := ['0' + (n % 10) as char];
    if n < 10 then digit else Decimal(n / 10) + digit
  }

  function IntText(n: int): string {
    if n < 0 then "-" + Decimal(-n) else Decimal(n)
  }

  function ToJson(d: Document): Json {
    Object(Members(d))
  }

  function Members(d: Document): seq<Member> {
    [ Member("batch_id", Text(d.envelope.batchID)),
      Member("bootstrap", d.envelope.bootstrap),
      Member("chunk_count", Number(IntText(d.chunkCount))),
      Member("chunk_index", Number(IntText(d.chunkIndex))),
      Member("events", Array(d.events)),
      Member("schema_version", Text(d.schemaVersion)),
      Member("session_id", Text(d.envelope.sessionID)) ] +
    match d.envelope.workspacePath
    case None => []
    case Some(path) => [Member("workspace_path", Text(path))]
  }

  function DocumentFor(env: Envelope, index: nat, count: nat, events: seq<Json>): Document {
    Document(SCHEMA_VERSION, env, index, count, events)
  }

  /** The document encodes, and within the byte limit of one batch document. */
  predicate Fits(env: Envelope, index: nat, count: nat, events: seq<Json>) {
    var size := EncodedBytes(ToJson(DocumentFor(env, index, count, events)));
    size.Some? && size.value <= MAX_CAPTURE_BATCH_BYTES
  }

  lemma {:induction false} DecimalAscii(n: nat)
    ensures forall c <- Decimal(n) :: '0' <= c <= '9'
  {
    if n >= 10 {
      DecimalAscii(n / 10);
    }
  }

  lemma NumberBytes(n: nat)
    ensures CostOf(Number(IntText(n))) == Cost(1, 0, DigitCount(n), 0)
  {
    DecimalAscii(n);
    AsciiBytes(Decimal(n));
  }

  lemma {:induction false} MoreDigits(n: nat, m: nat)
    requires n <= m
    ensures DigitCount(n) <= DigitCount(m)
  {
    if n >= 10 {
      MoreDigits(n / 10, m / 10);
    }
  }

  ghost predicate NoDearer(small: Member, large: Member) {
    small.key == large.key && CostOf(small.value).AtMost(CostOf(large.value))
  }

  /** Members that cost no more, one by one, cost no more together. */
  lemma {:induction false} MembersMonotone(small: seq<Member>, large: seq<Member>, k: nat)
    requires |small| == |large| && k <= |small|
    requires forall j | 0 <= j < |small| :: NoDearer(small[j], large[j])
    ensures MembersCost(small, k).AtMost(MembersCost(large, k))
  {
    if k > 0 {
      MembersMonotone(small, large, k - 1);
      var s, l := small[k - 1], large[k - 1];
      assert NoDearer(s, l);
      PlusMonotone(MembersCost(small, k - 1), KeyCost(s.key), MembersCost(large, k - 1), KeyCost(l.key));
      PlusMonotone(MembersCost(small, k - 1).Plus(KeyCost(s.key)), CostOf(s.value),
                   MembersCost(large, k - 1).Plus(KeyCost(l.key)), CostOf(l.value));
      hide CostOf, KeyCost, Cost.Plus;
    }
  }

  lemma PartArrayCost(events: seq<Json>, from: nat, to: nat, from': nat, to': nat)
    requires from <= from' <= to' <= to <= |events|
    ensures CostOf(Array(events[from'..to'])).AtMost(CostOf(Array(events[from..to])))
  {
    hide CostOf, ElementsCost, Wrapped;
    ArraySliceCost(events, from, to);
    ArraySliceCost(events, from', to');
    PartCostsLess(events, from', to', from, to);
    WrappedMonotone(ElementsCost(events, from', to'), to' - from', ElementsCost(events, from, to), to - from);
  }

  lemma ArraySliceCost(events: seq<Json>, from: nat, to: nat)
    requires from <= to <= |events|
    ensures CostOf(Array(events[from..to])) == Wrapped(ElementsCost(events, from, to), to - from)
  {
    hide ElementsCost;
    SliceCost(events, from, events[from..to], to - from);
  }

  lemma WrappedMonotone(few: Cost, n: nat, many: Cost, m: nat)
    requires few.AtMost(many) && n <= m
    ensures Wrapped(few, n).AtMost(Wrapped(many, m))
  {}

  /** A document with a part of the events and no more digits in its count costs no more. */
  lemma PartDocumentCost(env: Envelope, index: nat, count: nat, count': nat, events: seq<Json>, from: nat, to: nat, from': nat, to': nat)
    requires from <= from' <= to' <= to <= |events| && count' <= count
    ensures CostOf(ToJson(DocumentFor(env, index, count', events[from'..to']))).AtMost(
            CostOf(ToJson(DocumentFor(env, index, count, events[from..to]))))
  {
    hide MembersCost, ElementsCost, DigitCount;
    var small := Members(DocumentFor(env, index, count', events[from'..to']));
    var large := Members(DocumentFor(env, index, count, events[from..to]));
    PartArrayCost(events, from, to, from', to');
    MoreDigits(count', count);
    NumberBytes(count');
    NumberBytes(count);
    assert NoDearer(small[2], large[2]);
    assert NoDearer(small[4], large[4]);
    forall j | 0 <= j < |small|
      ensures NoDearer(small[j], large[j])
    {
      assert j == 2 || j == 4 || small[j] == large[j];
    }
    MembersMonotone(small, large, |small|);
  }

  /** Fitting is inherited by every contiguous part of the events, and by every smaller chunk count. */
  lemma PartFits(env: Envelope, index: nat, count: nat, count': nat, events: seq<Json>, from: nat, to: nat, from': nat, to': nat)
    requires from <= from' <= to' <= to <= |events| && count' <= count
    requires Fits(env, index, count, events[from..to])
    ensures Fits(env, index, count', events[from'..to'])
  {
    PartDocumentCost(env, index, count, count', events, from, to, from', to');
  }

  // ----- the grouping test -----

  /** The test a group of the batch has to pass: alone, or few enough and small enough at its own index. */
  predicate GroupOk(env: Envelope, events: seq<Json>, index: nat, from: nat, to: nat) {
    from <= to <= |events| &&
    (to - from <= 1 || (to - from <= MAX_CAPTURE_EVENTS_PER_CHUNK && Fits(env, index, MAX_CAPTURE_BATCH_CHUNKS, events[from..to])))
  }

  function GroupTest(env: Envelope, events: seq<Json>): GroupPredicate {
    (index: nat, from: nat, to: nat) => GroupOk(env, events, index, from, to)
  }

  /** The test, by the text that would be sent: one event always passes, more only up to 999 and 2 MiB, sized with 1000 chunks. */
  lemma GroupOkIs(env: Envelope, events: seq<Json>, index: nat, from: nat, to: nat)
    ensures GroupTest(env, events)(index, from, to) <==>
      && from <= to <= |events|
      && (to - from <= 1
          || (to - from <= 999 &&
              var document := ToJson(Document("capture-batch/v1", env, index, 1_000, events[from..to]));
              Encodable(document) && Utf8Bytes(Render(document)) <= 2 * 1024 * 1024))
  {
    hide CostOf, Render, ToJson, Utf8Bytes;
    if from <= to <= |events| {
      FitsIff(env, index, 1_000, events[from..to]);
    }
  }

  lemma GroupTestIsHereditary(env: Envelope, events: seq<Json>)
    ensures Hereditary(|events|, GroupTest(env, events))
  {
    hide Fits;
    forall index: nat, from: nat, to: nat, from': nat, to': nat |
      from <= from' <= to' <= to <= |events| && GroupOk(env, events, index, from, to)
      ensures GroupOk(env, events, index, from', to')
    {
      if to' - from' > 1 {
        PartFits(env, index, MAX_CAPTURE_BATCH_CHUNKS, MAX_CAPTURE_BATCH_CHUNKS, events, from, to, from', to');
      }
    }
  }

  /** A group of two or more events passes the final byte check: it was sized at its own index with count 1000. */
  lemma LargeGroupsPassFinalCheck(env: Envelope, events: seq<Json>, cuts: seq<nat>, g: nat)
    requires Admissible(|events|, GroupTest(env, events), cuts) && |cuts| <= MAX_CAPTURE_BATCH_CHUNKS
    requires g < |cuts| && cuts[g] - Start(cuts, g) >= 2
    ensures cuts[g] <= |events| && Fits(env, g, |cuts|, events[Start(cuts, g)..cuts[g]])
  {
    hide Fits;
    assert GroupPasses(GroupTest(env, events), cuts, g);
    PartFits(env, g, MAX_CAPTURE_BATCH_CHUNKS, |cuts|, events, Start(cuts, g), cuts[g], Start(cuts, g), cuts[g]);
  }

  // ----- normalization and the builder -----

  /** What is captured as it is: within every budget of the canonicalizer, its text at most 64 KiB. */
  predicate Small(value: Json) {
    Encodable(value) && Utf8Bytes(Render(value)) <= 64 * 1024
  }

  function Oversize(sessionID: string): Json {
    Object([Member("kind", Text("oversize")), Member("reason", Text("event_limit")), Member("session_id", Text(sessionID))])
  }

  function NormalizeCaptureEvent(value: Json, sessionID: string): (event: Json)
    ensures Small(value) ==> event == value
    ensures !Small(value) ==>
      event == Object([Member("kind", Text("oversize")), Member("reason", Text("event_limit")), Member("session_id", Text(sessionID))])
  {
    BytesAreOfText(value);
    var size := EncodedBytes(value);
    if size.Some? && size.value <= MAX_CAPTURE_EVENT_BYTES then value else Oversize(sessionID)
  }

  function Prepare(env: Envelope, value: Json): Json {
    var normalized := NormalizeCaptureEvent(value, env.sessionID);
    if Fits(env, 0, MAX_CAPTURE_BATCH_CHUNKS, [normalized]) then normalized else Oversize(env.sessionID)
  }

  function PrepareAll(env: Envelope, values: seq<Json>): (events: seq<Json>)
    ensures |events| == |values|
    ensures forall i | 0 <= i < |values| :: events[i] == Prepare(env, values[i])
  {
    seq(|values|, i requires 0 <= i < |values| => Prepare(env, values[i]))
  }

  predicate Sha256Hex(s: string) {
    |s| == 64 && forall c <- s :: '0' <= c <= '9' || 'a' <= c <= 'f'
  }

  /** The checks made before any event is looked at; bootstrap and workspace path are taken as valid. */
  predicate InputAccepted(env: Envelope, values: seq<Json>) {
    && Sha256Hex(env.batchID)
    && env.sessionID != "" && Utf8Bytes(env.sessionID) <= MAX_CAPTURE_SESSION_ID_BYTES
    && |values| <= MAX_EVENTS
  }

  /** Input is looked at under a well-formed batch id, a session id of 1 byte to 256 KiB, and at most 10000 events. */
  lemma InputAcceptedIs(env: Envelope, values: seq<Json>)
    ensures InputAccepted(env, values) <==>
      && |env.batchID| == 64 && (forall i | 0 <= i < 64 :: env.batchID[i] in "0123456789abcdef")
      && 1 <= |env.sessionID| && Utf8Bytes(env.sessionID) <= 262_144 && |values| <= 10_000
  {
    hide Utf8Bytes;
    if |env.batchID| == 64 {
      assert forall i | 0 <= i < 64 :: env.batchID[i] in env.batchID;
      assert forall c: char :: ('0' <= c <= '9' || 'a' <= c <= 'f') <==> c in "0123456789abcdef" by {
        forall c: char
          ensures ('0' <= c <= '9' || 'a' <= c <= 'f') <==> c in "0123456789abcdef"
        {
          HexIs(c);
        }
      }
    }
  }

  lemma HexIs(c: char)
    ensures ('0' <= c <= '9' || 'a' <= c <= 'f') <==> c in "0123456789abcdef"
  {
    var digits := "0123456789abcdef";
    if '0' <= c <= '9' {
      assert digits[c as int - 48] == c;
    } else if 'a' <= c <= 'f' {
      assert digits[c as int - 87] == c;
    }
  }

  function Documents(env: Envelope, events: seq<Json>, cuts: seq<nat>): (documents: seq<Document>)
    requires Partition(|events|, cuts)
    ensures |documents| == |cuts|
    ensures forall g {:trigger documents[g]} | 0 <= g < |cuts| ::
              documents[g] == DocumentFor(env, g, |cuts|, events[Start(cuts, g)..cuts[g]])
  {
    seq(|cuts|, g requires 0 <= g < |cuts| => DocumentFor(env, g, |cuts|, events[Start(cuts, g)..cuts[g]]))
  }

  /** The final check of document `g`, at its real index and with the real number of chunks. */
  ghost predicate DocumentFits(env: Envelope, events: seq<Json>, cuts: seq<nat>, g: nat)
    requires Partition(|events|, cuts) && g < |cuts|
  {
    Fits(env, g, |cuts|, events[Start(cuts, g)..cuts[g]])
  }

  method EncodedSize(env: Envelope, chunkIndex: nat, events: seq<Json>) returns (size: nat)
    ensures size <= MAX_CAPTURE_BATCH_BYTES <==> Fits(env, chunkIndex, MAX_CAPTURE_BATCH_CHUNKS, events)
  {
    var encoded := DocumentSize(env, chunkIndex, MAX_CAPTURE_BATCH_CHUNKS, events);
    size := if encoded.Some? then encoded.value else MAX_CAPTURE_BATCH_BYTES + 1;
  }

  method DocumentSize(env: Envelope, index: nat, count: nat, events: seq<Json>) returns (size: Option<nat>)
    ensures (size.Some? && size.value <= MAX_CAPTURE_BATCH_BYTES) <==> Fits(env, index, count, events)
  {
    size := EncodeCanonicalJson(ToJson(DocumentFor(env, index, count, events)));
  }

  /** The grouping loop: events join the current group while the candidate passes the count and size test. */
  method GroupEvents(env: Envelope, events: seq<Json>) returns (groups: seq<seq<Json>>, ghost cuts: seq<nat>)
    ensures Admissible(|events|, GroupTest(env, events), cuts) && Maximal(GroupTest(env, events), cuts)
    ensures |groups| == |cuts|
    ensures forall g | 0 <= g < |cuts| :: GroupIs(events, cuts, g, groups[g])
  {
    hide Fits, Grouping;
    groups, cuts := [], [];
    var current: seq<Json> := [];
    ghost var ok := GroupTest(env, events);
    assert ok(0, 0, 0);
    GroupingStarts(ok, events);
    for i := 0 to |events|
      invariant Grouping(ok, events, i, groups, cuts, current)
    {
      var event := events[i];
      var candidate := current + [event];
      GroupingBounds(ok, events, i, groups, cuts, current);
      var size := EncodedSize(env, |groups|, candidate);
      assert ok(|cuts|, Start(cuts, |cuts|), i + 1) <==>
             |current| == 0 || (|current| < MAX_CAPTURE_EVENTS_PER_CHUNK && size <= MAX_CAPTURE_BATCH_BYTES);
      assert ok(|cuts| + 1, i, i + 1);
      if |current| > 0 && (|current| >= MAX_CAPTURE_EVENTS_PER_CHUNK || size > MAX_CAPTURE_BATCH_BYTES) {
        GroupingCloses(ok, events, i, groups, cuts, current);
        groups := groups + [current];
        cuts := cuts + [i];
        current := [event];
      } else {
        GroupingJoins(ok, events, i, groups, cuts, current);
        current := candidate;
      }
    }
    GroupingBounds(ok, events, |events|, groups, cuts, current);
    GroupingEnds(ok, events, groups, cuts, current);
    groups := groups + [current];
    cuts := cuts + [|events|];
  }

  method PrepareEvents(env: Envelope, values: seq<Json>) returns (events: seq<Json>)
    ensures events == PrepareAll(env, values)
  {
    hide PrepareAll, Fits;
    ghost var all := PrepareAll(env, values);
    events := [];
    EmptySlice(all, 0);
    for i := 0 to |values|
      invariant events == all[0..i]
    {
      var normalized := NormalizeCaptureEvent(values[i], env.sessionID);
      var size := EncodedSize(env, 0, [normalized]);
      GrowSlice(all, 0, i);
      events := events + [if size <= MAX_CAPTURE_BATCH_BYTES then normalized else Oversize(env.sessionID)];
    }
    WholeSlice(all);
  }

  /** Every group becomes a document; one document over the limit refuses the batch. */
  method EncodeDocuments(env: Envelope, groups: seq<seq<Json>>, ghost events: seq<Json>, ghost cuts: seq<nat>)
    returns (result: Result<seq<Document>>)
    requires Partition(|events|, cuts) && |groups| == |cuts|
    requires forall g | 0 <= g < |cuts| :: GroupIs(events, cuts, g, groups[g])
    ensures result.Ok? <==> forall g | 0 <= g < |cuts| :: DocumentFits(env, events, cuts, g)
    ensures result.Ok? ==> result.value == Documents(env, events, cuts)
  {
    hide Fits, Documents;
    ghost var all := Documents(env, events, cuts);
    var documents: seq<Document> := [];
    EmptySlice(all, 0);
    for g := 0 to |groups|
      invariant documents == all[0..g]
      invariant forall k | 0 <= k < g :: DocumentFits(env, events, cuts, k)
    {
      var document := DocumentFor(env, g, |groups|, groups[g]);
      var size := DocumentSize(env, g, |groups|, groups[g]);
      if size.None? || size.value > MAX_CAPTURE_BATCH_BYTES {
        assert !DocumentFits(env, events, cuts, g);
        return Refused;
      }
      GrowSlice(all, 0, g);
      documents := documents + [document];
    }
    WholeSlice(all);
    return Ok(documents);
  }

  /** Some way of cutting the events into groups that pass needs no more documents than a batch may have. */
  ghost predicate Splittable(env: Envelope, events: seq<Json>) {
    exists other :: Admissible(|events|, GroupTest(env, events), other) && |other| <= MAX_CAPTURE_BATCH_CHUNKS
  }

  lemma TooManyIffUnsplittable(env: Envelope, events: seq<Json>, cuts: seq<nat>)
    requires Admissible(|events|, GroupTest(env, events), cuts) && Maximal(GroupTest(env, events), cuts)
    ensures |cuts| <= MAX_CAPTURE_BATCH_CHUNKS <==> Splittable(env, events)
  {
    hide GroupTest, Admissible, Maximal;
    GroupTestIsHereditary(env, events);
    LimitExceededIffUnavoidable(|events|, GroupTest(env, events), cuts, MAX_CAPTURE_BATCH_CHUNKS);
  }

  /** A batch is refused for its number of documents only when no admissible grouping needs at most 1000. */
  method BuildCaptureChunks(env: Envelope, values: seq<Json>) returns (result: Result<seq<Document>>, ghost cuts: seq<nat>)
    ensures InputAccepted(env, values) ==>
              var events := PrepareAll(env, values);
              Admissible(|events|, GroupTest(env, events), cuts) && Maximal(GroupTest(env, events), cuts)
    ensures result.Ok? <==>
            && InputAccepted(env, values)
            && Splittable(env, PrepareAll(env, values))
            && forall g | 0 <= g < |cuts| :: DocumentFits(env, PrepareAll(env, values), cuts, g)
    ensures result.Ok? ==> result.value == Documents(env, PrepareAll(env, values), cuts)
    ensures result.Ok? ==> |result.value| <= 1_000 && forall g | 0 <= g < |result.value| ::
              result.value[g] == Document("capture-batch/v1", env, g, |result.value|, result.value[g].events)
    ensures result.Ok? ==> var all := Concatenated(result.value, |result.value|);
              |all| == |values| && forall i | 0 <= i < |values| :: all[i] == CapturedAs(env, values[i])
  {
    hide PrepareAll, Documents, DocumentFits, Splittable, CapturedAs;
    cuts := [];
    if !InputAccepted(env, values) {
      return Refused, cuts;
    }
    var events := PrepareEvents(env, values);
    var groups;
    groups, cuts := GroupEvents(env, events);
    TooManyIffUnsplittable(env, events, cuts);
    if |groups| > MAX_CAPTURE_BATCH_CHUNKS {
      return Refused, cuts;
    }
    result := EncodeDocuments(env, groups, events, cuts);
    if result.Ok? {
      DocumentsAre(env, values, cuts);
    }
  }

  /** An event stands for itself if it is small and a document of it alone fits, else the placeholder does. */
  function CapturedAs(env: Envelope, value: Json): Json {
    if Small(value) && Fits(env, 0, 1_000, [value]) then value
    else Object([Member("kind", Text("oversize")), Member("reason", Text("event_limit")), Member("session_id", Text(env.sessionID))])
  }

  lemma DocumentsAre(env: Envelope, values: seq<Json>, cuts: seq<nat>)
    requires Partition(|values|, cuts)
    ensures var documents := Documents(env, PrepareAll(env, values), cuts);
            && (forall g | 0 <= g < |documents| ::
                  documents[g] == Document("capture-batch/v1", env, g, |documents|, documents[g].events))
            && Concatenated(documents, |documents|) == PrepareAll(env, values)
            && forall i | 0 <= i < |values| :: PrepareAll(env, values)[i] == CapturedAs(env, values[i])
  {
    hide Fits, Small, CostOf, Render;
    ChunksConserveEvents(env, values, cuts);
  }

  /** Fitting, by the text that would be sent. */
  lemma FitsIff(env: Envelope, index: nat, count: nat, events: seq<Json>)
    ensures var document := ToJson(DocumentFor(env, index, count, events));
            Fits(env, index, count, events) <==> Encodable(document) && Utf8Bytes(Render(document)) <= 2 * 1024 * 1024
  {
    BytesAreOfText(ToJson(DocumentFor(env, index, count, events)));
  }

  function Named(key: string, text: string): string {
    "\"" + key + "\":" + text
  }

  function DocumentParts(d: Document): seq<string> {
    [ Named("batch_id", Literal(d.envelope.batchID)),
      Named("bootstrap", Render(d.envelope.bootstrap)),
      Named("chunk_count", IntText(d.chunkCount)),
      Named("chunk_index", IntText(d.chunkIndex)),
      Named("events", Render(Array(d.events))),
      Named("schema_version", Literal(d.schemaVersion)),
      Named("session_id", Literal(d.envelope.sessionID)) ] +
    match d.envelope.workspacePath
    case None => []
    case Some(path) => [Named("workspace_path", Literal(path))]
  }

  predicate PlainKey(key: string) {
    forall i | 0 <= i < |key| :: Plain(key[i])
  }

  lemma NamesPlain()
    ensures PlainKey("batch_id") && PlainKey("bootstrap") && PlainKey("chunk_count") && PlainKey("chunk_index")
    ensures PlainKey("events") && PlainKey("schema_version") && PlainKey("session_id") && PlainKey("workspace_path")
  {
  }

  lemma KeysPlain(d: Document)
    ensures forall i | 0 <= i < |Members(d)| :: PlainKey(Members(d)[i].key)
  {
    hide PlainKey, IntText;
    NamesPlain();
  }

  lemma NamedIs(m: Member)
    requires PlainKey(m.key)
    ensures Literal(m.key) + ":" + Render(m.value) == Named(m.key, Render(m.value))
  {
    hide Render, EscapedText;
    PlainText(m.key);
  }

  lemma PartsAre(d: Document)
    ensures |DocumentParts(d)| == |Members(d)|
    ensures forall i | 0 <= i < |Members(d)| :: DocumentParts(d)[i] == Named(Members(d)[i].key, Render(Members(d)[i].value))
  {
    hide Named, Literal, RenderItems, IntText;
  }

  /** The text of a document: its named parts in order, as the receiver reads them. */
  lemma DocumentText(d: Document)
    ensures Render(ToJson(d)) == "{" + Joined(DocumentParts(d)) + "}"
  {
    hide Literal, Joined, RenderMembers, RenderItems, Members, DocumentParts, Named, PlainKey;
    var members, parts := Members(d), DocumentParts(d);
    KeysPlain(d);
    PartsAre(d);
    forall i | 0 <= i < |members|
      ensures parts[i] == Literal(members[i].key) + ":" + Render(members[i].value)
    {
      NamedIs(members[i]);
    }
    MembersJoined(members, parts, |members|);
    assert parts[..|members|] == parts;
  }

  // ----- conservation -----

  function Concatenated(documents: seq<Document>, count: nat): seq<Json>
    requires count <= |documents|
  {
    if count == 0 then [] else Concatenated(documents, count - 1) + documents[count - 1].events
  }

  lemma {:induction false} ConcatenatedPrefix(env: Envelope, events: seq<Json>, cuts: seq<nat>, count: nat)
    requires Partition(|events|, cuts) && count <= |cuts|
    ensures Start(cuts, count) <= |events|
    ensures Concatenated(Documents(env, events, cuts), count) == events[..Start(cuts, count)]
  {
    if count > 0 {
      ConcatenatedPrefix(env, events, cuts, count - 1);
      var from, to := Start(cuts, count - 1), cuts[count - 1];
      JoinSlices(events, from, to);
    }
  }

  /** The chunks laid end to end are exactly the prepared events, one per input, in order. */
  lemma ChunksConserveEvents(env: Envelope, values: seq<Json>, cuts: seq<nat>)
    requires Partition(|values|, cuts)
    ensures var documents := Documents(env, PrepareAll(env, values), cuts);
            Concatenated(documents, |documents|) == PrepareAll(env, values)
  {
    var events := PrepareAll(env, values);
    ConcatenatedPrefix(env, events, cuts, |cuts|);
  }
}
