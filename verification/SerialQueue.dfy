/** The serial session queue. */
module SerialQueue {
  // Per key, operations run one at a time in the order they were submitted,
  // whatever the earlier ones do.
  //
  // A promise is a ticket; the queue keeps only the newest ticket of each key.

  import opened Util

  datatype Stage = Waiting | Running | Settled(ok: bool)

  /** One submitted operation; `prior` is the tail it was chained to, `cleaned` that its clean-up ran. */
  datatype Operation = Operation(key: string, prior: Option<nat>, stage: Stage, cleaned: bool)

  datatype Queue = Queue(tails: map<string, nat>, operations: seq<Operation>)

  const EMPTY := Queue(map[], [])

  datatype Step = Run(key: string) | Begin(ticket: nat) | Finish(ticket: nat, ok: bool) | CleanUp(ticket: nat)

  predicate Done(q: Queue, ticket: nat)
    requires ticket < |q.operations|
  {
    q.operations[ticket].stage.Settled?
  }

  predicate Enabled(q: Queue, step: Step) {
    match step
    case Run(_) => true
    case Begin(t) =>
      && t < |q.operations| && q.operations[t].stage.Waiting?
      && var prior := q.operations[t].prior;
      prior.Some? ==> prior.value < |q.operations| && Done(q, prior.value)
    case Finish(t, _) => t < |q.operations| && q.operations[t].stage.Running?
    case CleanUp(t) => t < |q.operations| && q.operations[t].stage.Settled? && !q.operations[t].cleaned
  }

  function SetOperation(q: Queue, t: nat, op: Operation): Queue
    requires t < |q.operations|
  {
    q.(operations := q.operations[t := op])
  }

  function Do(q: Queue, step: Step): Queue
    requires Enabled(q, step)
  {
    match step
    case Run(k) =>
      Queue(q.tails[k := |q.operations|], q.operations + [Operation(k, Get(q.tails, k), Waiting, false)])
    case Begin(t) => SetOperation(q, t, q.operations[t].(stage := Running))
    case Finish(t, ok) => SetOperation(q, t, q.operations[t].(stage := Settled(ok)))
    case CleanUp(t) =>
      var k := q.operations[t].key;
      SetOperation(q, t, q.operations[t].(cleaned := true))
        .(tails := if Get(q.tails, k) == Some(t) then q.tails - {k} else q.tails)
  }

  // ----- the invariant -----

  /** Operation `u` of the same key was submitted before `t`. */
  predicate Before(q: Queue, u: nat, t: nat) {
    u < t < |q.operations| && q.operations[u].key == q.operations[t].key
  }

  /** An operation is chained to the operation of its key submitted just before, unless all those are done. */
  ghost predicate Chained(q: Queue, t: nat)
    requires t < |q.operations|
  {
    match q.operations[t].prior
    case None => forall u | Before(q, u, t) :: Done(q, u)
    case Some(p) => Before(q, p, t) && forall u: nat | Before(q, u, t) :: u <= p
  }

  /** A begun operation has every earlier operation of its key behind it. */
  ghost predicate InTurn(q: Queue, t: nat)
    requires t < |q.operations|
  {
    !q.operations[t].stage.Waiting? ==> forall u | Before(q, u, t) :: Done(q, u)
  }

  /** The tail of a key is its newest operation; without a tail all its operations are done and cleaned up. */
  ghost predicate TailOk(q: Queue, k: string) {
    if k in q.tails then
      && q.tails[k] < |q.operations| && q.operations[q.tails[k]].key == k && !q.operations[q.tails[k]].cleaned
      && forall u | 0 <= u < |q.operations| && q.operations[u].key == k :: u <= q.tails[k]
    else forall u | 0 <= u < |q.operations| && q.operations[u].key == k :: Done(q, u)
  }

  ghost predicate QueueOk(q: Queue) {
    && (forall t | 0 <= t < |q.operations| :: Chained(q, t) && InTurn(q, t))
    && (forall t | 0 <= t < |q.operations| :: q.operations[t].cleaned ==> Done(q, t))
    && (forall k :: TailOk(q, k))
  }

  /** Nothing settled is ever unsettled, and tickets keep their keys and their chain. */
  ghost predicate Later(q: Queue, q': Queue) {
    && |q.operations| <= |q'.operations|
    && forall t | 0 <= t < |q.operations| ::
         && q'.operations[t].key == q.operations[t].key && q'.operations[t].prior == q.operations[t].prior
         && (Done(q, t) ==> Done(q', t))
  }

  lemma StepLater(q: Queue, step: Step)
    requires Enabled(q, step)
    ensures Later(q, Do(q, step))
  {
  }

  lemma RunOk(q: Queue, k: string)
    requires QueueOk(q)
    ensures QueueOk(Do(q, Run(k)))
  {
    var q' := Do(q, Run(k));
    var n := |q.operations|;
    assert TailOk(q, k);
    forall t | 0 <= t < n + 1
      ensures Chained(q', t) && InTurn(q', t)
    {
      assert forall u: nat | Before(q', u, t) :: u < n && q'.operations[u] == q.operations[u];
      if t < n {
        assert Chained(q, t) && InTurn(q, t);
        assert forall u :: Before(q', u, t) <==> Before(q, u, t);
      }
    }
    forall j
      ensures TailOk(q', j)
    {
      assert TailOk(q, j);
    }
  }

  /** A step on one operation that keeps its key and chain. */
  lemma SettingOk(q: Queue, t: nat, op: Operation)
    requires QueueOk(q) && t < |q.operations|
    requires op.key == q.operations[t].key && op.prior == q.operations[t].prior && op.cleaned == q.operations[t].cleaned
    requires Done(q, t) ==> op.stage.Settled?
    requires !op.stage.Waiting? ==> forall u | Before(q, u, t) :: Done(q, u)
    ensures QueueOk(SetOperation(q, t, op))
  {
    var q' := SetOperation(q, t, op);
    assert forall u, v :: Before(q', u, v) <==> Before(q, u, v);
    forall v | 0 <= v < |q.operations|
      ensures Chained(q', v) && InTurn(q', v)
    {
      assert Chained(q, v) && InTurn(q, v);
    }
    forall j
      ensures TailOk(q', j)
    {
      assert TailOk(q, j);
    }
  }

  lemma BeginOk(q: Queue, t: nat)
    requires QueueOk(q) && Enabled(q, Begin(t))
    ensures QueueOk(Do(q, Begin(t)))
  {
    assert Chained(q, t);
    var prior := q.operations[t].prior;
    forall u | Before(q, u, t)
      ensures Done(q, u)
    {
      if prior.Some? && u < prior.value {
        assert InTurn(q, prior.value) && Before(q, u, prior.value);
      }
    }
    SettingOk(q, t, q.operations[t].(stage := Running));
  }

  lemma FinishOk(q: Queue, t: nat, ok: bool)
    requires QueueOk(q) && Enabled(q, Finish(t, ok))
    ensures QueueOk(Do(q, Finish(t, ok)))
  {
    assert InTurn(q, t);
    SettingOk(q, t, q.operations[t].(stage := Settled(ok)));
  }

  /** The clean-up of an operation that is no longer the tail leaves the tail alone. */
  lemma CleanUpOk(q: Queue, t: nat)
    requires QueueOk(q) && Enabled(q, CleanUp(t))
    ensures QueueOk(Do(q, CleanUp(t)))
  {
    var q' := Do(q, CleanUp(t));
    var k := q.operations[t].key;
    assert forall u, v :: Before(q', u, v) <==> Before(q, u, v);
    forall v | 0 <= v < |q.operations|
      ensures Chained(q', v) && InTurn(q', v)
    {
      assert Chained(q, v) && InTurn(q, v);
    }
    assert TailOk(q, k) && InTurn(q, t);
    forall j
      ensures TailOk(q', j)
    {
      assert TailOk(q, j);
      if j == k && k !in q'.tails && k in q.tails {
        forall u | 0 <= u < |q.operations| && q.operations[u].key == k
          ensures Done(q', u)
        {
          assert u == t || Before(q, u, t);
        }
      }
    }
  }

  lemma StepOk(q: Queue, step: Step)
    requires QueueOk(q) && Enabled(q, step)
    ensures QueueOk(Do(q, step))
  {
    hide QueueOk, Do, Enabled;
    match step
    case Run(k) => RunOk(q, k);
    case Begin(t) => BeginOk(q, t);
    case Finish(t, ok) => FinishOk(q, t, ok);
    case CleanUp(t) => CleanUpOk(q, t);
  }

  // ----- runs -----

  ghost predicate IsRun(q: Queue, steps: seq<Step>)
    decreases |steps|
  {
    |steps| > 0 ==> Enabled(q, steps[0]) && IsRun(Do(q, steps[0]), steps[1..])
  }

  ghost function After(q: Queue, steps: seq<Step>): Queue
    requires IsRun(q, steps)
    decreases |steps|
  {
    if |steps| == 0 then q else After(Do(q, steps[0]), steps[1..])
  }

  lemma LaterTrans(a: Queue, b: Queue, c: Queue)
    requires Later(a, b) && Later(b, c)
    ensures Later(a, c)
  {
  }

  lemma {:induction false} AfterOk(q: Queue, steps: seq<Step>)
    requires QueueOk(q) && IsRun(q, steps)
    ensures QueueOk(After(q, steps)) && Later(q, After(q, steps))
    decreases |steps|
  {
    hide QueueOk, Do, Enabled;
    if |steps| == 0 {
      LaterSelf(q);
    } else {
      StepOk(q, steps[0]);
      StepLater(q, steps[0]);
      AfterOk(Do(q, steps[0]), steps[1..]);
      LaterTrans(q, Do(q, steps[0]), After(q, steps));
    }
  }

  lemma LaterSelf(q: Queue)
    ensures Later(q, q)
  {
  }

  lemma EmptyOk()
    ensures QueueOk(EMPTY)
  {
  }

  /** Per key, operations begin in the order of submission, and only when all earlier ones have settled, well or not. */
  lemma FirstInFirstOut(steps: seq<Step>, u: nat, t: nat)
    requires IsRun(EMPTY, steps)
    requires Before(After(EMPTY, steps), u, t) && !After(EMPTY, steps).operations[t].stage.Waiting?
    ensures Done(After(EMPTY, steps), u)
  {
    EmptyOk();
    AfterOk(EMPTY, steps);
    assert InTurn(After(EMPTY, steps), t);
  }

  /** At most one operation of a key runs at any time. */
  lemma MutualExclusion(steps: seq<Step>, t: nat, u: nat)
    requires IsRun(EMPTY, steps)
    requires var q := After(EMPTY, steps);
             && t < |q.operations| && u < |q.operations| && q.operations[t].key == q.operations[u].key
             && q.operations[t].stage.Running? && q.operations[u].stage.Running?
    ensures t == u
  {
    if u < t {
      FirstInFirstOut(steps, u, t);
    } else if t < u {
      FirstInFirstOut(steps, t, u);
    }
  }

  /** An operation that has not settled is never forgotten: its key still has a tail, at it or after it. */
  lemma TailCovers(steps: seq<Step>, t: nat)
    requires IsRun(EMPTY, steps) && t < |After(EMPTY, steps).operations| && !Done(After(EMPTY, steps), t)
    ensures var q := After(EMPTY, steps); q.operations[t].key in q.tails && t <= q.tails[q.operations[t].key]
  {
    EmptyOk();
    AfterOk(EMPTY, steps);
    assert TailOk(After(EMPTY, steps), After(EMPTY, steps).operations[t].key);
  }

  /** Once every operation is cleaned up the table is empty again. */
  lemma NothingLeft(steps: seq<Step>)
    requires IsRun(EMPTY, steps)
    requires forall t | 0 <= t < |After(EMPTY, steps).operations| :: After(EMPTY, steps).operations[t].cleaned
    ensures After(EMPTY, steps).tails == map[]
  {
    EmptyOk();
    AfterOk(EMPTY, steps);
    var q := After(EMPTY, steps);
    forall k
      ensures k !in q.tails
    {
      assert TailOk(q, k);
    }
  }

  /** `drain`: when the tails it saw have settled, so has everything submitted before it was called. */
  lemma DrainWaitsForAll(q: Queue, steps: seq<Step>, t: nat)
    requires QueueOk(q) && IsRun(q, steps) && t < |q.operations|
    requires forall k <- q.tails :: q.tails[k] < |After(q, steps).operations| && Done(After(q, steps), q.tails[k])
    ensures t < |After(q, steps).operations| && Done(After(q, steps), t)
  {
    AfterOk(q, steps);
    var q' := After(q, steps);
    var k := q.operations[t].key;
    assert TailOk(q, k);
    if k in q.tails && t != q.tails[k] {
      assert Before(q', t, q.tails[k]) && InTurn(q', q.tails[k]);
    }
  }

  /** Something can always happen while an operation has not settled: the queue cannot deadlock. */
  lemma Progress(q: Queue, t: nat)
    requires QueueOk(q) && t < |q.operations| && !Done(q, t)
    ensures exists u :: Enabled(q, Begin(u)) || Enabled(q, Finish(u, true))
    decreases t
  {
    assert Chained(q, t);
    var op := q.operations[t];
    if op.stage.Running? {
      assert Enabled(q, Finish(t, true));
    } else if op.prior.Some? && !Done(q, op.prior.value) {
      Progress(q, op.prior.value);
    } else {
      assert Enabled(q, Begin(t));
    }
  }

  // ----- the object -----

  /** No key waits for another: an operation may begin as soon as the earlier ones of its own key have settled. */
  lemma BeginsWhenFree(q: Queue, t: nat)
    requires QueueOk(q) && t < |q.operations| && q.operations[t].stage.Waiting?
    requires forall u | Before(q, u, t) :: Done(q, u)
    ensures Enabled(q, Begin(t))
  {
    assert Chained(q, t);
  }

  class SerialSessionQueue {
    var tails: map<string, nat>
    /** The promises made so far; the source only holds on to them through the tails. */
    var operations: seq<Operation>

    function State(): Queue
      reads this
    {
      Queue(tails, operations)
    }

    constructor ()
      ensures State() == EMPTY
    {
      tails, operations := map[], [];
    }

    /** `run`: chained to the key's tail, and the tail from now on. */
    method Submit(key: string) returns (ticket: nat)
      modifies this
      ensures State() == Do(old(State()), Run(key)) && ticket == |old(operations)|
    {
      var prior := Get(tails, key);
      ticket := |operations|;
      operations := operations + [Operation(key, prior, Waiting, false)];
      tails := tails[key := ticket];
    }

    /** The continuation chained to the prior promise. */
    method PriorSettled(ticket: nat)
      requires Enabled(State(), Begin(ticket))
      modifies this`operations
      ensures State() == Do(old(State()), Begin(ticket))
    {
      operations := operations[ticket := operations[ticket].(stage := Running)];
    }

    method OperationSettled(ticket: nat, ok: bool)
      requires Enabled(State(), Finish(ticket, ok))
      modifies this`operations
      ensures State() == Do(old(State()), Finish(ticket, ok))
    {
      operations := operations[ticket := operations[ticket].(stage := Settled(ok))];
    }

    /** The clean-up: it removes the tail only when the tail is still its own. */
    method TailSettled(ticket: nat)
      requires Enabled(State(), CleanUp(ticket))
      modifies this
      ensures State() == Do(old(State()), CleanUp(ticket))
    {
      var key := operations[ticket].key;
      operations := operations[ticket := operations[ticket].(cleaned := true)];
      if Get(tails, key) == Some(ticket) {
        tails := tails - {key};
      }
    }
  }
}
