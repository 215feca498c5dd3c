/** One capture at a time over the assembler: `Capture` registers a waiter and blocks on its
    channel; `Observe`, cancellation and `Close` run under the receiver's lock. Each locked section
    is one step. */
module ReceiverModel {
  import opened Options
  import opened Rtp
  import opened StreamModel

  datatype Captured = CapturedFrame(data: Bytes, at: int) | CaptureClosed

  datatype Waiter = Waiter(id: nat, watermark: nat)

  /** `results` is what has been sent to each waiter's one-slot channel; `registered` counts the
      waiters ever created and names the next one. */
  datatype Receiver = Receiver(
    stream: Stream, generation: nat, waiter: Option<Waiter>, closed: bool, registered: nat, results: map<nat, Captured>)

  datatype Registration = Registered(id: nat) | SessionClosed | VideoBusy

  const NEW_RECEIVER := Receiver(NEW_STREAM, 0, None, false, 0, map[])

  function Register(r: Receiver): (Receiver, Registration) {
    if r.closed then (r, SessionClosed)
    else if r.waiter.Some? then (r, VideoBusy)
    else
      (r.(stream := BeginWait(r.stream), waiter := Some(Waiter(r.registered, r.generation)), registered := r.registered + 1),
       Registered(r.registered))
  }

  function Observe(r: Receiver, p: Packet, observedAt: int): Receiver {
    if r.closed then r
    else
      var generation := r.generation + 1;
      if r.waiter.None? then r.(generation := generation, stream := Drain(r.stream, p, observedAt))
      else
        var waiter := r.waiter.value;
        var o := Process(r.stream, p, generation, waiter.watermark, observedAt, true);
        if o.data.None? then r.(generation := generation, stream := o.stream)
        else
          var at := if EndWait(o.stream).candidateAt == 0 then observedAt else EndWait(o.stream).candidateAt;
          r.(generation := generation, waiter := None, stream := EndWait(o.stream),
             results := r.results[waiter.id := CapturedFrame(o.data.value, at)])
  }

  function Close(r: Receiver): Receiver {
    if r.closed then r
    else
      r.(closed := true, waiter := None, stream := EndWait(r.stream),
         results := if r.waiter.Some? then r.results[r.waiter.value.id := CaptureClosed] else r.results)
  }

  /** Cancellation of waiter `id`; it does nothing when that waiter has already been served. */
  function RemoveWaiter(r: Receiver, id: nat): Receiver {
    if r.waiter.Some? && r.waiter.value.id == id then r.(waiter := None, stream := EndWait(r.stream)) else r
  }
}

module VideoReceivers {
  import opened Options
  import opened Rtp
  import opened H264Assembler
  import R = ReceiverModel

  /** A registered capture and its one-slot result channel. */
  class VideoWaiter {
    const id: nat
    const watermark: nat
    var result: Option<R.Captured>

    constructor (id: nat, watermark: nat)
      ensures this.id == id && this.watermark == watermark && result == None
    {
      this.id, this.watermark, result := id, watermark, None;
    }

    /** A send into the empty slot never blocks. */
    method Send(captured: R.Captured)
      requires result == None
      modifies this
      ensures result == Some(captured)
    {
      result := Some(captured);
    }
  }

  /** `registered` names the waiters, whose identity is an address in the program; `results` is the
      content of all channels ever handed out. */
  class VideoReceiver {
    const stream: H264Stream
    var generation: nat
    var waiter: VideoWaiter?
    var closed: bool
    var registered: nat
    ghost var results: map<nat, R.Captured>

    ghost function View(): R.Receiver
      reads this, stream, stream.pending, stream.draining, waiter
    {
      R.Receiver(stream.View(), generation,
                 if waiter == null then None else Some(R.Waiter(waiter.id, waiter.watermark)), closed, registered, results)
    }

    /** Nothing has been sent to the registered waiter. */
    ghost predicate Valid()
      reads this, waiter
    {
      waiter != null ==> waiter.result == None
    }

    constructor ()
      ensures Valid() && View() == R.NEW_RECEIVER && fresh(stream)
    {
      stream := new H264Stream();
      generation, waiter, closed, registered, results := 0, null, false, 0, map[];
    }

    /** The locked section of `Capture`. */
    method Register() returns (registration: R.Registration)
      requires Valid()
      modifies this, stream.draining
      ensures Valid()
      ensures (View(), registration) == R.Register(old(View()))
      ensures registration.Registered? ==> waiter != null && fresh(waiter)
    {
      if closed {
        return R.SessionClosed;
      }
      if waiter != null {
        return R.VideoBusy;
      }
      stream.BeginWait();
      waiter := new VideoWaiter(registered, generation);
      registration := R.Registered(registered);
      registered := registered + 1;
    }

    method Observe(packet: Packet, observedAt: int)
      requires Valid()
      modifies this, stream, stream.pending, stream.draining, waiter
      ensures Valid() && (waiter == null || waiter == old(waiter))
      ensures View() == R.Observe(old(View()), packet, observedAt)
      ensures old(waiter) != null && waiter == null ==>
                old(waiter).result == Some(results[old(waiter).id])
    {
      hide M.Drain, M.Process, M.EndWait;
      if closed {
        return;
      }
      generation := generation + 1;
      if waiter == null {
        stream.Drain(packet, observedAt);
        return;
      }
      var data := stream.Push(packet, generation, waiter.watermark, observedAt);
      if data == None {
        return;
      }
      var served := waiter;
      waiter := null;
      stream.EndWait();
      var capturedAt := stream.candidateAt;
      if capturedAt == 0 {
        capturedAt := observedAt;
      }
      served.Send(R.CapturedFrame(data.value, capturedAt));
      results := results[served.id := served.result.value];
    }

    method Close()
      requires Valid()
      modifies this, stream, waiter
      ensures Valid() && (waiter == null || old(closed))
      ensures View() == R.Close(old(View()))
    {
      if closed {
        return;
      }
      closed := true;
      var served := waiter;
      waiter := null;
      stream.EndWait();
      if served != null {
        served.Send(R.CaptureClosed);
        results := results[served.id := R.CaptureClosed];
      }
    }

    method RemoveWaiter(w: VideoWaiter)
      requires Valid()
      requires waiter != null && waiter.id == w.id ==> waiter == w
      modifies this, stream
      ensures Valid()
      ensures View() == R.RemoveWaiter(old(View()), w.id)
    {
      if waiter == w {
        waiter := null;
        stream.EndWait();
      }
    }
  }
}
