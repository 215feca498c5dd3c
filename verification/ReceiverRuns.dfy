/** Captures over every interleaving of registration, observation, cancellation and close. */
module ReceiverRuns {
  import opened Options
  import opened Rtp
  import opened StreamModel
  import opened StreamSafety
  import opened ReceiverModel
  import opened StreamRuns

  datatype Step =
    | DoRegister
    | DoObserve(packet: Packet, observedAt: int)
    | DoRemove(id: nat)
    | DoClose

  /** The receiver with the log of what it was shown: `observed[g - 1]` is observation number `g`,
      and `since[w]` is how many observations waiter `w` was registered after. */
  datatype World = World(receiver: Receiver, observed: seq<Packet>, since: map<nat, nat>)

  const NEW_WORLD := World(NEW_RECEIVER, [], map[])

  function Do(w: World, step: Step): World {
    match step
    case DoRegister =>
      var (r, registration) := Register(w.receiver);
      World(r, w.observed, if registration.Registered? then w.since[registration.id := |w.observed|] else w.since)
    case DoObserve(p, at) =>
      World(Observe(w.receiver, p, at), if w.receiver.closed then w.observed else w.observed + [p], w.since)
    case DoRemove(id) => w.(receiver := RemoveWaiter(w.receiver, id))
    case DoClose => w.(receiver := Close(w.receiver))
  }

  function RunReceiver(steps: seq<Step>): World {
    if steps == [] then NEW_WORLD else Do(RunReceiver(steps[..|steps| - 1]), steps[|steps| - 1])
  }

  ghost function Log(observed: seq<Packet>): set<Sighting> {
    set i | 0 <= i < |observed| :: Sighting(observed[i], i + 1)
  }

  /** The frame handed to waiter `id` was made only from packets observed after its registration. */
  ghost predicate FreshFor(w: World, id: nat)
    requires id in w.since
  {
    id in w.receiver.results && w.receiver.results[id].CapturedFrame? ==>
      Legitimate(w.receiver.results[id].data, Log(w.observed), w.since[id])
  }

  ghost predicate WorldInv(w: World) {
    var r := w.receiver;
    && Inv(r.stream, Log(w.observed))
    && r.generation == |w.observed|
    && (r.waiter.None? ==> r.stream.pending.None?)
    && (r.closed ==> r.waiter.None?)
    && (forall id: nat :: id in w.since <==> id < r.registered)
    && (forall id | id in r.results :: id in w.since)
    && (forall id | id in w.since :: w.since[id] <= |w.observed|)
    && (r.waiter.Some? ==>
          && r.waiter.value.id in w.since && r.waiter.value.id !in r.results
          && w.since[r.waiter.value.id] == r.waiter.value.watermark)
    && (forall id | id in w.since :: FreshFor(w, id))
  }

  lemma LogGrows(observed: seq<Packet>, p: Packet)
    ensures Log(observed) <= Log(observed + [p])
    ensures Sighting(p, |observed| + 1) in Log(observed + [p])
  {
    forall o | o in Log(observed)
      ensures o in Log(observed + [p])
    {
      assert (observed + [p])[o.generation - 1] == o.packet;
    }
    assert (observed + [p])[|observed|] == p;
  }

  lemma LegitimateGrows(data: Bytes, small: set<Sighting>, large: set<Sighting>, watermark: nat)
    requires Legitimate(data, small, watermark) && small <= large
    ensures Legitimate(data, large, watermark)
  {
    hide MadeFrom;
    var sps: Option<Bytes>, pps: Option<Bytes> :| MadeOf(data, sps, pps, small, watermark);
    var frame: seq<Packet> :| MadeFrom(data, Origin(frame, sps, pps)) && WholeFrame(frame, small, watermark);
    assert WholeFrame(frame, large, watermark);
    assert MadeOf(data, sps, pps, large, watermark);
  }

  lemma FreshGrows(w: World, p: Packet, id: nat)
    requires id in w.since && FreshFor(w, id)
    ensures FreshFor(w.(observed := w.observed + [p]), id)
  {
    hide Legitimate;
    LogGrows(w.observed, p);
    if id in w.receiver.results && w.receiver.results[id].CapturedFrame? {
      LegitimateGrows(w.receiver.results[id].data, Log(w.observed), Log(w.observed + [p]), w.since[id]);
    }
  }

  lemma Retains(data: Bytes, retained: Stream, hist: set<Sighting>, watermark: nat)
    requires MadeOf(data, retained.sps, retained.pps, hist, watermark)
    ensures Legitimate(data, hist, watermark)
  {
    hide MadeOf;
  }

  lemma ObserveKeeps(w: World, p: Packet, observedAt: int)
    requires WorldInv(w) && !w.receiver.closed
    ensures WorldInv(Do(w, DoObserve(p, observedAt)))
  {
    hide Process, Drain, EndWait, Inv, Legitimate, Log, MadeOf, Retaining;
    var r := w.receiver;
    var hist := Log(w.observed + [p]);
    var generation := r.generation + 1;
    LogGrows(w.observed, p);
    InvGrows(r.stream, Log(w.observed), hist);
    forall id | id in w.since
      ensures FreshFor(w.(observed := w.observed + [p]), id)
    {
      FreshGrows(w, p, id);
    }
    if r.waiter.None? {
      DrainKeeps(r.stream, p, generation, observedAt, hist);
    } else {
      var o := Process(r.stream, p, generation, r.waiter.value.watermark, observedAt, true);
      ProcessKeeps(r.stream, p, generation, r.waiter.value.watermark, observedAt, true, hist);
      EndWaitKeeps(o.stream, hist);
      if o.data.Some? {
        Retains(o.data.value, Retaining(r.stream, p, r.waiter.value.watermark, observedAt, true), hist, r.waiter.value.watermark);
      }
    }
  }

  lemma RegisterKeeps(w: World)
    requires WorldInv(w)
    ensures WorldInv(Do(w, DoRegister))
  {
    hide Inv, Legitimate, Log, BeginWait;
    BeginWaitKeeps(w.receiver.stream, Log(w.observed));
    assert forall id | id in w.since :: FreshFor(w, id);
  }

  lemma RemoveKeeps(w: World, id: nat)
    requires WorldInv(w)
    ensures WorldInv(Do(w, DoRemove(id)))
  {
    hide Inv, Legitimate, Log, EndWait;
    EndWaitKeeps(w.receiver.stream, Log(w.observed));
    assert forall id | id in w.since :: FreshFor(w, id);
  }

  lemma CloseKeeps(w: World)
    requires WorldInv(w)
    ensures WorldInv(Do(w, DoClose))
  {
    hide Inv, Legitimate, Log, EndWait;
    EndWaitKeeps(w.receiver.stream, Log(w.observed));
    assert forall id | id in w.since :: FreshFor(w, id);
  }

  lemma StepKeeps(w: World, step: Step)
    requires WorldInv(w)
    ensures WorldInv(Do(w, step))
  {
    match step
    case DoRegister => RegisterKeeps(w);
    case DoObserve(p, at) =>
      if !w.receiver.closed {
        ObserveKeeps(w, p, at);
      }
    case DoRemove(id) => RemoveKeeps(w, id);
    case DoClose => CloseKeeps(w);
  }

  lemma {:induction false} EveryInterleaving(steps: seq<Step>)
    ensures WorldInv(RunReceiver(steps))
  {
    hide Do, WorldInv;
    if steps == [] {
      NewWorldInv();
    } else {
      EveryInterleaving(steps[..|steps| - 1]);
      StepKeeps(RunReceiver(steps[..|steps| - 1]), steps[|steps| - 1]);
    }
  }

  lemma NewWorldInv()
    ensures WorldInv(NEW_WORLD)
  {
    NewStreamInv(Log([]));
  }

  /** Whatever the interleaving: a delivered frame contains only packets observed after its waiter
      registered, nothing is pending while nobody waits, and the registered waiter's channel is
      empty, so the send under the lock cannot block. */
  lemma CaptureFreshness(steps: seq<Step>)
    ensures var w := RunReceiver(steps);
            var r := w.receiver;
            (&& (forall id | id in r.results && r.results[id].CapturedFrame? ::
                   id in w.since && Legitimate(r.results[id].data, Log(w.observed), w.since[id]))
             && (r.waiter.None? ==> r.stream.pending.None?)
             && (r.waiter.Some? ==> r.waiter.value.id !in r.results)
             && (r.closed ==> r.waiter.None?))
  {
    hide Legitimate, Do, Inv;
    EveryInterleaving(steps);
    var w := RunReceiver(steps);
    forall id | id in w.receiver.results && w.receiver.results[id].CapturedFrame?
      ensures id in w.since && Legitimate(w.receiver.results[id].data, Log(w.observed), w.since[id])
    {
      assert id in w.since;
      assert FreshFor(w, id);
    }
  }

  /** A result, once sent, is never replaced: every waiter gets at most one. */
  lemma {:induction false} AtMostOneResult(steps: seq<Step>, later: seq<Step>, id: nat)
    requires id in RunReceiver(steps).receiver.results
    ensures id in RunReceiver(steps + later).receiver.results
    ensures RunReceiver(steps + later).receiver.results[id] == RunReceiver(steps).receiver.results[id]
    decreases |later|
  {
    if later == [] {
      assert steps + later == steps;
    } else {
      var n := |later| - 1;
      AtMostOneResult(steps, later[..n], id);
      EveryInterleaving(steps + later[..n]);
      assert (steps + later)[..|steps + later| - 1] == steps + later[..n];
      OneStepKeepsResults(RunReceiver(steps + later[..n]), later[n], id);
    }
  }

  lemma OneStepKeepsResults(w: World, step: Step, id: nat)
    requires WorldInv(w) && id in w.receiver.results
    ensures id in Do(w, step).receiver.results
    ensures Do(w, step).receiver.results[id] == w.receiver.results[id]
  {
    hide Process, Drain, BeginWait, EndWait, Inv, FreshFor;
  }
}
