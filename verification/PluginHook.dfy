/** The plugin object: the `event` hook over its reducer and its runtime. */
module PluginHooks {
  import opened Util
  import opened Transport
  import opened CaptureRuntime
  import opened PluginRuntimes
  import opened EventReducers
  import opened PluginEvents
  import R = OpenCodeReducer
  import RR = ReducerRuns

  class OpenCodePlugin {
    const reducer: OpenCodeEventReducer
    const runtime: PluginRuntime

    ghost predicate Valid()
      reads runtime
    {
      runtime.Valid()
    }

    ghost function State(): Plugin
      reads reducer, runtime, runtime.transport
    {
      Plugin(reducer.State(), runtime.State())
    }

    constructor ()
      ensures Valid() && State() == START
    {
      reducer := new OpenCodeEventReducer();
      runtime := new PluginRuntime();
    }

    /** The loop over the reduced records: what is kept, and the sessions that end. */
    method Filter(records: seq<R.Record>) returns (kept: seq<R.Record>, terminalSessions: set<string>)
      modifies reducer
      ensures (reducer.State(), kept) == Filtered(old(reducer.State()), records)
      ensures forall sid :: sid in terminalSessions <==> Ends(records, sid)
    {
      kept, terminalSessions := [], {};
      ghost var all := Filtered(reducer.State(), records);
      NothingBefore(all);
      var i := 0;
      while i < |records|
        invariant i <= |records|
        invariant forall sid :: sid in terminalSessions <==> Ends(records[..i], sid)
        invariant all == Following(kept, Filtered(reducer.State(), records[i..]))
      {
        var record := records[i];
        assert records[i..][1..] == records[i + 1..];
        EndsMore(records[..i], record);
        assert records[..i + 1] == records[..i] + [record];
        ghost var before := reducer.State();
        if record.SessionFinished? {
          terminalSessions := terminalSessions + {record.sessionID};
          FollowingOne(kept, record, Filtered(before, records[i + 1..]));
          kept := kept + [record];
        } else {
          var finalized := reducer.FinalizedSession(record.sessionID);
          FollowingOne(kept, record, Filtered(reducer.State(), records[i + 1..]));
          if !finalized {
            kept := kept + [record];
          }
        }
        i := i + 1;
      }
      WholeSlice(records);
      FollowingEnd(kept, reducer.State());
    }

    /** `event` up to its await; `encoded` are the kept records as they are normalized and encoded. */
    method Event(e: R.Event, encoded: seq<Record>) returns (kept: seq<R.Record>)
      requires Valid() && forall x <- encoded :: x.key == Session(RR.SessionOf(e))
      modifies reducer, runtime, runtime.transport
      ensures Valid() && kept == Reported(old(reducer.State()), e).1
      ensures State() == Handle(old(State()), e, encoded)
    {
      hide R.Reduce, Filtered, R.TouchFinalized, AppendAll, CaptureRuntime.ScheduleFlush, HasPendingGap;
      var k := Session(RR.SessionOf(e));
      var records := reducer.Reduce(e);
      var terminalSessions;
      kept, terminalSessions := Filter(records);
      var wanted := false;
      if IsTarget(e) {
        var finalized := reducer.FinalizedSession(e.sessionID);
        wanted := !finalized || e.sessionID in terminalSessions;
      }
      runtime.AppendRecords(k, encoded);
      if wanted {
        var gap := runtime.transport.HasPendingGap(k);
        var buffered := k in runtime.buffers && |runtime.buffers[k].records| > 0;
        if |encoded| > 0 || buffered || k in runtime.pendingFlushes || gap {
          runtime.ScheduleFlush(k, true);
        }
      }
    }
  }

  lemma FollowingOne(kept: seq<R.Record>, record: R.Record, rest: (R.Reducer, seq<R.Record>))
    ensures Following(kept, (rest.0, [record] + rest.1)) == Following(kept + [record], rest)
  {
    assert kept + ([record] + rest.1) == kept + [record] + rest.1;
  }

  lemma FollowingEnd(kept: seq<R.Record>, s: R.Reducer)
    ensures Following(kept, Filtered(s, [])) == (s, kept)
  {
    assert kept + [] == kept;
  }

  lemma EndsMore(records: seq<R.Record>, record: R.Record)
    ensures forall sid :: Ends(records + [record], sid) <==>
              Ends(records, sid) || (record.SessionFinished? && record.sessionID == sid)
  {
  }
}
