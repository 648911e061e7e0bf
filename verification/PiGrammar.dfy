/** What holds of a Pi window after every run: its stream's grammar, its quota and its byte count. */
module PiGrammar {
  import opened Util
  import opened PiReducer

  // ----- the grammar of the stream -----

  /** Records are numbered 1 to n and carry the coordinates of the window. */
  ghost predicate Numbered(w: Window) {
    && w.recordCount == |w.emitted| && w.nextEventID == |w.emitted| + 1
    && forall i | 0 <= i < |w.emitted| :: w.emitted[i].eventID == i + 1 && w.emitted[i].window == w.coordinates
  }

  ghost predicate PairedAt(s: seq<Record>, i: nat)
    requires i < |s|
  {
    && (s[i].body.ToolStarted? ==> i + 1 < |s| && s[i + 1].body == ToolFinished(s[i].body.callID))
    && (s[i].body.ToolFinished? ==> i > 0 && s[i - 1].body.ToolStarted? && s[i - 1].body.callID == s[i].body.callID)
  }

  /** Each `tool_started` is followed at once by the `tool_finished` of its call, and none stands alone. */
  ghost predicate Paired(s: seq<Record>) {
    forall i | 0 <= i < |s| :: PairedAt(s, i)
  }

  ghost predicate EachCallOnce(s: seq<Record>) {
    forall i, j | 0 <= i < j < |s| && s[i].body.ToolStarted? && s[j].body.ToolStarted? ::
      s[i].body.callID != s[j].body.callID
  }

  /** A `session_finished` can only come last. */
  ghost predicate FinishedLast(s: seq<Record>) {
    forall i | 0 <= i < |s| - 1 :: !s[i].body.SessionFinished?
  }

  predicate EndsFinished(s: seq<Record>) {
    |s| > 0 && s[|s| - 1].body.SessionFinished?
  }

  ghost predicate Degraded(s: seq<Record>) {
    exists i | 0 <= i < |s| :: s[i].body.CoverageDegraded?
  }

  ghost predicate StreamOk(w: Window) {
    && Numbered(w) && Paired(w.emitted) && EachCallOnce(w.emitted) && FinishedLast(w.emitted)
    && (EndsFinished(w.emitted) <==> w.finished)
    && (forall r <- w.emitted :: r.body.ToolStarted? ==> r.body.callID in w.final)
  }

  /** The quota, and the notice that every suppression and every disabling leaves. */
  ghost predicate QuotaOk(w: Window) {
    && |w.emitted| <= MAX_REDUCED_RECORDS_PER_WINDOW
    && (!w.finished ==> |w.emitted| < MAX_REDUCED_RECORDS_PER_WINDOW)
    && (w.disabled || w.overflowReported ==> Degraded(w.emitted))
    && (!w.finished && |w.emitted| == MAX_REDUCED_RECORDS_PER_WINDOW - 1 ==> Degraded(w.emitted))
  }

  /** Calls are pending or final, never both, at most 1000, at 192 bytes each. */
  ghost predicate CallsOk(w: Window) {
    && w.pending.Keys !! w.final.Keys
    && |w.pending| + |w.final| <= MAX_CALLS_PER_WINDOW
    && w.stateBytes == CALL_STATE_OVERHEAD_BYTES * (|w.pending| + |w.final|)
    && (forall c <- w.pending :: w.pending[c].bytes == CALL_STATE_OVERHEAD_BYTES && w.pending[c].start.callID == c)
  }

  ghost predicate WindowOk(w: Window) {
    StreamOk(w) && QuotaOk(w) && CallsOk(w)
  }

  // ----- emitting -----

  predicate Plain(body: Body) {
    !body.ToolStarted? && !body.ToolFinished? && !body.SessionFinished?
  }

  lemma PairedMore(s: seq<Record>, t: seq<Record>)
    requires Paired(s) && Paired(t)
    ensures Paired(s + t)
  {
    forall i | 0 <= i < |s + t|
      ensures PairedAt(s + t, i)
    {
      if i < |s| {
        assert PairedAt(s, i);
      } else {
        assert PairedAt(t, i - |s|);
      }
    }
  }

  lemma OnceMore(s: seq<Record>, t: seq<Record>)
    requires EachCallOnce(s) && EachCallOnce(t)
    requires forall a <- s, b <- t :: a.body.ToolStarted? && b.body.ToolStarted? ==> a.body.callID != b.body.callID
    ensures EachCallOnce(s + t)
  {
    forall i, j | 0 <= i < j < |s + t| && (s + t)[i].body.ToolStarted? && (s + t)[j].body.ToolStarted?
      ensures (s + t)[i].body.callID != (s + t)[j].body.callID
    {
      if i < |s| <= j {
        assert (s + t)[i] in s && (s + t)[j] in t;
      }
    }
  }

  lemma FinishedLastMore(s: seq<Record>, t: seq<Record>)
    requires FinishedLast(s) && !EndsFinished(s) && FinishedLast(t) && |t| > 0
    ensures FinishedLast(s + t) && (EndsFinished(s + t) <==> EndsFinished(t))
  {
  }

  lemma DegradedMore(s: seq<Record>, t: seq<Record>)
    ensures Degraded(s) || Degraded(t) ==> Degraded(s + t)
  {
    assert forall i | 0 <= i < |s| :: (s + t)[i] == s[i];
    assert forall i | 0 <= i < |t| :: (s + t)[|s| + i] == t[i];
  }

  /** Records are emitted in a block that is in order by itself and repeats no call. */
  lemma EmitBlock(w: Window, w': Window, block: seq<Record>)
    requires StreamOk(w) && !w.finished && |block| > 0
    requires w'.emitted == w.emitted + block && Numbered(w') && w'.final == w.final
    requires Paired(block) && EachCallOnce(block) && FinishedLast(block) && (EndsFinished(block) <==> w'.finished)
    requires forall a <- w.emitted, b <- block :: a.body.ToolStarted? && b.body.ToolStarted? ==> a.body.callID != b.body.callID
    requires forall r <- block :: r.body.ToolStarted? ==> r.body.callID in w.final
    ensures StreamOk(w')
    ensures Degraded(w.emitted) || Degraded(block) ==> Degraded(w'.emitted)
  {
    hide Paired, EachCallOnce, FinishedLast, EndsFinished, Numbered, Degraded;
    PairedMore(w.emitted, block);
    OnceMore(w.emitted, block);
    FinishedLastMore(w.emitted, block);
    DegradedMore(w.emitted, block);
  }

  lemma NumberedNext(w: Window, body: Body)
    requires Numbered(w)
    ensures Numbered(Materialize(w, body))
  {
  }

  lemma EmitPlain(w: Window, body: Body)
    requires StreamOk(w) && !w.finished && Plain(body)
    ensures StreamOk(Materialize(w, body))
    ensures Degraded(w.emitted) || body.CoverageDegraded? ==> Degraded(Materialize(w, body).emitted)
  {
    hide StreamOk;
    StreamParts(w);
    NumberedNext(w, body);
    var block := [Record(w.coordinates, w.nextEventID, body)];
    assert block[0].body == body;
    EmitBlock(w, Materialize(w, body), block);
  }

  lemma StreamParts(w: Window)
    requires StreamOk(w)
    ensures Numbered(w)
  {
  }

  lemma EmitFinish(w: Window, why: string)
    requires StreamOk(w) && !w.finished
    ensures StreamOk(Materialize(w, SessionFinished(why)).(finished := true))
    ensures Degraded(w.emitted) ==> Degraded(Materialize(w, SessionFinished(why)).emitted)
  {
    hide StreamOk, Numbered;
    StreamParts(w);
    NumberedNext(w, SessionFinished(why));
    FinishNumbered(Materialize(w, SessionFinished(why)));
    var block := [Record(w.coordinates, w.nextEventID, SessionFinished(why))];
    assert block[0].body == SessionFinished(why);
    EmitBlock(w, Materialize(w, SessionFinished(why)).(finished := true), block);
  }

  lemma FinishNumbered(w: Window)
    requires Numbered(w)
    ensures Numbered(w.(finished := true))
  {
  }

  lemma EmitPair(w: Window, c: string, tool: string)
    requires StreamOk(w) && !w.finished && c in w.final
    requires forall r <- w.emitted :: r.body.ToolStarted? ==> r.body.callID != c
    ensures StreamOk(MaterializeAll(w, [ToolStarted(c, tool), ToolFinished(c)]))
    ensures Degraded(w.emitted) ==> Degraded(MaterializeAll(w, [ToolStarted(c, tool), ToolFinished(c)]).emitted)
  {
    hide StreamOk, Numbered, Degraded;
    StreamParts(w);
    PairIs(w, ToolStarted(c, tool), ToolFinished(c));
    NumberedNext(w, ToolStarted(c, tool));
    NumberedNext(Materialize(w, ToolStarted(c, tool)), ToolFinished(c));
    var first, second := Record(w.coordinates, w.nextEventID, ToolStarted(c, tool)), Record(w.coordinates, w.nextEventID + 1, ToolFinished(c));
    var block := [first, second];
    assert w.emitted + [first] + [second] == w.emitted + block;
    PairBlock(first, second, c);
    EmitBlock(w, MaterializeAll(w, [ToolStarted(c, tool), ToolFinished(c)]), block);
  }

  lemma PairBlock(first: Record, second: Record, c: string)
    requires first.body.ToolStarted? && first.body.callID == c && second.body == ToolFinished(c)
    ensures Paired([first, second]) && EachCallOnce([first, second]) && FinishedLast([first, second])
    ensures !EndsFinished([first, second])
  {
  }

  lemma PairIs(w: Window, a: Body, b: Body)
    ensures MaterializeAll(w, [a, b]) == Materialize(Materialize(w, a), b)
  {
    hide Materialize;
    assert [a, b][1..] == [b];
    OneIs(Materialize(w, a), b);
  }

  lemma OneIs(w: Window, a: Body)
    ensures MaterializeAll(w, [a]) == Materialize(w, a)
  {
    hide Materialize;
    assert [a][1..] == [];
  }
}
