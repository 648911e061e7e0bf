/** The Pi extension object, each method tied to the function it computes in `PiExtension`. */
module PiExtensionRuntimes {
  import opened Util
  import opened Transport
  import opened BatchTransports
  import opened PiWindowReducers
  import RuntimeBytes
  import P = PiReducer
  import E = PiExtension
  import opened PiExtension

  /** The active window; `records` and `bytes` are rewritten by appends and flushes. */
  class ActiveWindow {
    const reducer: PiWindowReducer
    var records: seq<Record>
    var bytes: nat

    ghost function State(): Active
      reads this, reducer
    {
      Active(reducer.State(), records, bytes)
    }

    constructor (coordinates: P.Coordinates)
      ensures fresh(reducer) && reducer.Valid()
      ensures State() == Active(P.Initial(coordinates), [], 0)
    {
      reducer := new PiWindowReducer(coordinates);
      records, bytes := [], 0;
    }
  }

  /** Adds up encoded sizes, as the loops of `#flush` and `#append` do. */
  method TotalBytes(records: seq<Record>) returns (bytes: nat)
    ensures bytes == RuntimeBytes.RecordBytes(records)
  {
    bytes := 0;
    var i := 0;
    while i < |records|
      invariant i <= |records| && bytes == RuntimeBytes.RecordBytes(records[..i])
    {
      assert records[..i + 1][..i] == records[..i];
      bytes := bytes + records[i].bytes;
      i := i + 1;
    }
    WholeSlice(records);
  }

  class PiExtensionRuntime {
    const transport: BatchTransport
    var active: ActiveWindow?

    ghost function State(): Extension
      reads this, transport, active, if active == null then {} else {active.reducer}
    {
      Extension(if active == null then None else Some(active.State()), transport.State())
    }

    ghost predicate Valid()
      reads this, active, if active == null then {} else {active.reducer}
    {
      active != null ==> active.reducer.Valid()
    }

    constructor ()
      ensures Valid() && fresh(transport) && State() == E.INITIAL
    {
      transport := new BatchTransport(Poison);
      active := null;
    }

    /** `WindowedBatchTransport.flush` from start to end. */
    method FlushBatch(k: Key, records: seq<Record>, force: bool, world: World) returns (result: FlushResult)
      modifies transport
      ensures (transport.State(), result) == FlushAll(old(transport.State()), k, records, force, world)
    {
      hide Begin, StartWrite, SettleWrite, Finish;
      var gap := if k in transport.pendingGaps || transport.globalGapPoison then [GapNotice(k)] else [];
      var begun := transport.FlushBegin(k, records, force, world.build(transport.log, gap + Payloads(records)));
      if begun.Finished? {
        return begun.result;
      }
      var flight := begun.flight;
      FlightStarts(old(transport.State()), k, records, force, world.build(old(transport.log), gap + Payloads(records)));
      flight := WriteChunks(flight, world);
      result := transport.FlushFinish(flight);
    }

    /** The loop over the chunks. */
    method WriteChunks(begun: Flight, world: World) returns (flight: Flight)
      requires !begun.writing && begun.next <= |begun.chunks|
      modifies transport
      ensures (transport.State(), flight) == WriteAll(old(transport.State()), begun, world)
      ensures flight.next == |flight.chunks| && !flight.writing
    {
      flight := begun;
      while flight.next < |flight.chunks|
        invariant !flight.writing && flight.next <= |flight.chunks|
        invariant WriteAll(old(transport.State()), begun, world) == WriteAll(transport.State(), flight, world)
        decreases |flight.chunks| - flight.next
      {
        flight := transport.WriteStart(flight);
        if flight.writing {
          flight := transport.WriteSettled(flight, world.ok(transport.log, flight.next));
        }
      }
    }

    method Flush(a: ActiveWindow, force: bool, world: World)
      modifies a, transport
      ensures (transport.State(), a.State()) == E.Flush(old(transport.State()), old(a.State()), force, world)
    {
      hide FlushAll, P.Do;
      var records := a.records;
      if !force && |records| == 0 {
        return;
      }
      var terminals := Terminals(records);
      a.records, a.bytes := [], 0;
      var result := FlushBatch(KeyOf(a.reducer.coordinates), records, force, world);
      if result.NotStarted? && |terminals| > 0 {
        a.records := terminals;
        a.bytes := TotalBytes(terminals);
      }
    }

    method Append(a: ActiveWindow, reduced: seq<PiRecord>, world: World)
      modifies a, transport
      ensures (transport.State(), a.State()) == E.Append(old(transport.State()), old(a.State()), reduced, world)
    {
      hide E.Flush, Group;
      var group := Group(KeyOf(a.reducer.coordinates), reduced, world);
      TakeIn(group);
      var groupBytes := TotalBytes(group);
      if |a.records| > 0 && a.bytes + groupBytes > MAX_SESSION_BUFFER_BYTES {
        Flush(a, false, world);
      }
      a.records := a.records + group;
      a.bytes := a.bytes + groupBytes;
    }

    method TakeIn(group: seq<Record>)
      modifies transport
      ensures transport.State() == TakeAll(old(transport.State()), group)
    {
      var i := 0;
      while i < |group|
        invariant i <= |group| && TakeAll(old(transport.State()), group) == TakeAll(transport.State(), group[i..])
      {
        assert group[i..][0] == group[i] && group[i..][1..] == group[i + 1..];
        transport.log := Then(transport.log, Took(group[i]));
        i := i + 1;
      }
    }

    method DegradeActive(reason: P.Reason, world: World)
      requires Valid()
      modifies transport, active, if active == null then {} else {active.reducer}
      ensures Valid() && State() == DegradeAndFlush(old(State()), reason, world)
    {
      hide E.Flush, E.Append, P.Degrade;
      if active == null {
        return;
      }
      ghost var was := active.reducer.State();
      var records := active.reducer.Degrade(reason);
      OutputIs(was, active.reducer.State(), records);
      Append(active, records, world);
      Flush(active, false, world);
    }

    method SessionStart(input: StartInput, world: World)
      requires Valid()
      modifies this`active, transport, active, if active == null then {} else {active.reducer}
      ensures Valid() && State() == StartSession(old(State()), input, world)
    {
      hide E.Flush, DegradeAndFlush;
      if input.Malformed? {
        DegradeActive(P.MissingField, world);
        return;
      }
      DegradeActive(P.InvalidTransition, world);
      if active != null && |active.records| > 0 {
        return;
      }
      active := null;
      if input.discriminator.None? {
        return;
      }
      var started := new ActiveWindow(P.Coordinates(input.sessionID, input.discriminator.value));
      active := started;
      Flush(started, true, world);
    }

    method ObservedEvent(step: E.Step, world: World)
      requires Valid() && step.Observed?
      modifies this`active, transport, active, if active == null then {} else {active.reducer}
      ensures Valid() && State() == Observe(old(State()), step, world)
    {
      hide E.Flush, E.Append, P.Degrade, P.Reduce;
      var a := active;
      if a == null {
        return;
      }
      ghost var was := a.reducer.State();
      var records;
      if step.matches {
        records := a.reducer.Reduce(step.event);
      } else {
        records := a.reducer.Degrade(P.MissingField);
      }
      OutputIs(was, a.reducer.State(), records);
      Append(a, records, world);
      if step.flushBoundary {
        Flush(a, false, world);
      }
      if step.closesWindow && a.reducer.finished && |a.records| == 0 {
        active := null;
      }
    }
  }

  lemma FlightStarts(t: State, k: Key, records: seq<Record>, force: bool, build: Option<seq<seq<Event>>>)
    ensures var begun := Begin(t, k, records, force, build).1;
            begun.Flying? ==> !begun.flight.writing && begun.flight.next == 0
  {
  }

  lemma OutputIs(was: P.Window, now: P.Window, records: seq<PiRecord>)
    requires now.emitted == was.emitted + records
    ensures P.Output(was, now) == records
  {
  }
}
