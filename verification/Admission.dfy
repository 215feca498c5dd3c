/** The manager's admission to one device: the latch between ordinary and lifecycle work, and the
    permits. Each locked section and each permit operation is one step. */
module AdmissionModel {

  datatype Limits = Limits(operations: nat, perDevice: nat, captures: nat)

  /** `operations` and `captures` are shared with the other devices. */
  datatype Admission = Admission(lifecycle: bool, ordinary: nat, operations: nat, deviceOps: nat, captures: nat, closed: bool)

  datatype Verdict = Admitted | SessionClosed | Busy

  const NEW_ADMISSION := Admission(false, 0, 0, 0, 0, false)

  /** All three permits, or none. */
  function BeginOrdinary(a: Admission, l: Limits): (Admission, Verdict) {
    if a.closed then (a, SessionClosed)
    else if a.lifecycle || a.operations >= l.operations || a.deviceOps >= l.perDevice then (a, Busy)
    else (a.(ordinary := a.ordinary + 1, operations := a.operations + 1, deviceOps := a.deviceOps + 1), Admitted)
  }

  function BeginLifecycle(a: Admission): (Admission, Verdict) {
    if a.closed then (a, SessionClosed)
    else if a.lifecycle || a.ordinary != 0 then (a, Busy)
    else (a.(lifecycle := true), Admitted)
  }

  function Less(n: nat): nat { if n == 0 then 0 else n - 1 }
}

module Admissions {
  import opened AdmissionModel

  /** A counting semaphore whose acquisition never waits. */
  class Permits {
    const capacity: nat
    var held: nat

    constructor (capacity: nat)
      ensures this.capacity == capacity && held == 0
    {
      this.capacity, held := capacity, 0;
    }

    method TryAcquire() returns (ok: bool)
      modifies this
      ensures ok <==> old(held) < capacity
      ensures held == old(held) + if ok then 1 else 0
    {
      ok := held < capacity;
      if ok {
        held := held + 1;
      }
    }

    method Release()
      requires held > 0
      modifies this
      ensures held == old(held) - 1
    {
      held := held - 1;
    }
  }

  class DeviceAdmission {
    const operations: Permits
    const deviceOps: Permits
    const captures: Permits
    var lifecycle: bool
    var ordinary: nat
    var closed: bool

    ghost function View(): Admission
      reads this, operations, deviceOps, captures
    {
      Admission(lifecycle, ordinary, operations.held, deviceOps.held, captures.held, closed)
    }

    ghost function Bounds(): Limits
    {
      Limits(operations.capacity, deviceOps.capacity, captures.capacity)
    }

    ghost predicate Valid() {
      operations != deviceOps && operations != captures && deviceOps != captures
    }

    constructor (limits: Limits)
      ensures Valid() && View() == NEW_ADMISSION && Bounds() == limits
    {
      operations := new Permits(limits.operations);
      deviceOps := new Permits(limits.perDevice);
      captures := new Permits(limits.captures);
      lifecycle, ordinary, closed := false, 0, false;
    }

    /** The locked section of an ordinary operation: a permit taken in vain is given back. */
    method BeginOrdinary() returns (verdict: Verdict)
      requires Valid()
      modifies this, operations, deviceOps
      ensures (View(), verdict) == AdmissionModel.BeginOrdinary(old(View()), Bounds())
    {
      if closed {
        return SessionClosed;
      }
      if lifecycle {
        return Busy;
      }
      var ok := operations.TryAcquire();
      if !ok {
        return Busy;
      }
      ok := deviceOps.TryAcquire();
      if !ok {
        operations.Release();
        return Busy;
      }
      ordinary := ordinary + 1;
      verdict := Admitted;
    }

    method BeginLifecycle() returns (verdict: Verdict)
      requires Valid()
      modifies this
      ensures (View(), verdict) == AdmissionModel.BeginLifecycle(old(View()))
    {
      if closed {
        return SessionClosed;
      }
      if lifecycle || ordinary != 0 {
        return Busy;
      }
      lifecycle := true;
      verdict := Admitted;
    }
  }
}

/** The latch and the permits over every interleaving of operations on the device and of what other
    devices do with the shared permits. */
module AdmissionRuns {
  import opened AdmissionModel

  /** An ordinary operation gives its permits back before it leaves the latch; so does a lifecycle one. */
  datatype Stage = Working(capturing: bool) | Freed | Latched(permit: bool)

  datatype World = World(a: Admission, threads: map<nat, Stage>, otherOps: nat, otherCaptures: nat)

  const NEW_WORLD := World(NEW_ADMISSION, map[], 0, 0)

  datatype Step =
    | EnterOrdinary(t: nat)
    | TakeCapture(t: nat)
    | FreePermits(t: nat)
    | LeaveOrdinary(t: nat)
    | EnterLifecycle(t: nat)
    | TakePermit(t: nat)
    | FreePermit(t: nat)
    | LeaveLifecycle(t: nat)
    | OtherTakes
    | OtherFrees
    | OtherCaptures
    | OtherUncaptures
    | CloseManager

  predicate Is(w: World, t: nat, stage: Stage) {
    t in w.threads && w.threads[t] == stage
  }

  predicate Possible(w: World, l: Limits, s: Step) {
    match s
    case EnterOrdinary(t) => t !in w.threads
    case TakeCapture(t) => Is(w, t, Working(false)) && w.a.captures < l.captures
    case FreePermits(t) => t in w.threads && w.threads[t].Working?
    case LeaveOrdinary(t) => Is(w, t, Freed)
    case EnterLifecycle(t) => t !in w.threads
    case TakePermit(t) => Is(w, t, Latched(false)) && w.a.operations < l.operations
    case FreePermit(t) => Is(w, t, Latched(true))
    case LeaveLifecycle(t) => Is(w, t, Latched(false))
    case OtherTakes => w.a.operations < l.operations
    case OtherFrees => w.otherOps > 0
    case OtherCaptures => w.a.captures < l.captures
    case OtherUncaptures => w.otherCaptures > 0
    case CloseManager => true
  }

  function Do(w: World, l: Limits, s: Step): World {
    match s
    case EnterOrdinary(t) =>
      var (a, verdict) := BeginOrdinary(w.a, l);
      if verdict.Admitted? then w.(a := a, threads := w.threads[t := Working(false)]) else w
    case TakeCapture(t) => w.(a := w.a.(captures := w.a.captures + 1), threads := w.threads[t := Working(true)])
    case FreePermits(t) =>
      var capturing := t in w.threads && w.threads[t] == Working(true);
      w.(a := w.a.(captures := if capturing then Less(w.a.captures) else w.a.captures, deviceOps := Less(w.a.deviceOps), operations := Less(w.a.operations)),
         threads := w.threads[t := Freed])
    case LeaveOrdinary(t) => w.(a := w.a.(ordinary := Less(w.a.ordinary)), threads := w.threads - {t})
    case EnterLifecycle(t) =>
      var (a, verdict) := BeginLifecycle(w.a);
      if verdict.Admitted? then w.(a := a, threads := w.threads[t := Latched(false)]) else w
    case TakePermit(t) => w.(a := w.a.(operations := w.a.operations + 1), threads := w.threads[t := Latched(true)])
    case FreePermit(t) => w.(a := w.a.(operations := Less(w.a.operations)), threads := w.threads[t := Latched(false)])
    case LeaveLifecycle(t) => w.(a := w.a.(lifecycle := false), threads := w.threads - {t})
    case OtherTakes => w.(a := w.a.(operations := w.a.operations + 1), otherOps := w.otherOps + 1)
    case OtherFrees => w.(a := w.a.(operations := Less(w.a.operations)), otherOps := Less(w.otherOps))
    case OtherCaptures => w.(a := w.a.(captures := w.a.captures + 1), otherCaptures := w.otherCaptures + 1)
    case OtherUncaptures => w.(a := w.a.(captures := Less(w.a.captures)), otherCaptures := Less(w.otherCaptures))
    case CloseManager => w.(a := w.a.(closed := true))
  }

  function Run(l: Limits, steps: seq<Step>): World {
    if steps == [] then NEW_WORLD else Do(Run(l, steps[..|steps| - 1]), l, steps[|steps| - 1])
  }

  predicate IsRun(l: Limits, steps: seq<Step>) {
    steps == [] || (IsRun(l, steps[..|steps| - 1]) && Possible(Run(l, steps[..|steps| - 1]), l, steps[|steps| - 1]))
  }

  // ---- Who holds what ----

  function Ordinaries(threads: map<nat, Stage>): set<nat> {
    set t | t in threads && !threads[t].Latched?
  }

  function Workers(threads: map<nat, Stage>): set<nat> {
    set t | t in threads && threads[t].Working?
  }

  function Capturers(threads: map<nat, Stage>): set<nat> {
    set t | t in threads && threads[t] == Working(true)
  }

  function Lifecycles(threads: map<nat, Stage>): set<nat> {
    set t | t in threads && threads[t].Latched?
  }

  function Permitted(threads: map<nat, Stage>): set<nat> {
    set t | t in threads && threads[t] == Latched(true)
  }

  /** Every counter counts its holders, and the latch has one side at a time. */
  ghost predicate WorldInv(w: World, l: Limits) {
    && w.a.ordinary == |Ordinaries(w.threads)|
    && w.a.deviceOps == |Workers(w.threads)| <= l.perDevice
    && w.a.operations == |Workers(w.threads)| + |Permitted(w.threads)| + w.otherOps <= l.operations
    && w.a.captures == |Capturers(w.threads)| + w.otherCaptures <= l.captures
    && |Lifecycles(w.threads)| == (if w.a.lifecycle then 1 else 0)
    && (w.a.lifecycle ==> w.a.ordinary == 0)
  }

  /** How a set changes when one thread moves. */
  lemma Moved(before: set<nat>, after: set<nat>, t: nat)
    requires forall x | x != t :: x in before <==> x in after
    ensures |after| + (if t in before then 1 else 0) == |before| + (if t in after then 1 else 0)
  {
    assert before - {t} == after - {t};
    assert t in before ==> before == (before - {t}) + {t};
    assert t in after ==> after == (after - {t}) + {t};
    assert t !in before ==> before - {t} == before;
    assert t !in after ==> after - {t} == after;
  }

  lemma AllMoved(a: map<nat, Stage>, b: map<nat, Stage>, t: nat)
    requires forall x | x != t :: (x in a <==> x in b) && (x in a ==> b[x] == a[x])
    ensures |Ordinaries(b)| + (if t in Ordinaries(a) then 1 else 0) == |Ordinaries(a)| + (if t in Ordinaries(b) then 1 else 0)
    ensures |Workers(b)| + (if t in Workers(a) then 1 else 0) == |Workers(a)| + (if t in Workers(b) then 1 else 0)
    ensures |Capturers(b)| + (if t in Capturers(a) then 1 else 0) == |Capturers(a)| + (if t in Capturers(b) then 1 else 0)
    ensures |Lifecycles(b)| + (if t in Lifecycles(a) then 1 else 0) == |Lifecycles(a)| + (if t in Lifecycles(b) then 1 else 0)
    ensures |Permitted(b)| + (if t in Permitted(a) then 1 else 0) == |Permitted(a)| + (if t in Permitted(b) then 1 else 0)
  {
    Moved(Ordinaries(a), Ordinaries(b), t);
    Moved(Workers(a), Workers(b), t);
    Moved(Capturers(a), Capturers(b), t);
    Moved(Lifecycles(a), Lifecycles(b), t);
    Moved(Permitted(a), Permitted(b), t);
  }

  lemma OrdinaryStepKeeps(w: World, l: Limits, s: Step)
    requires WorldInv(w, l) && Possible(w, l, s) && (s.EnterOrdinary? || s.TakeCapture? || s.FreePermits? || s.LeaveOrdinary?)
    ensures WorldInv(Do(w, l, s), l)
  {
    AllMoved(w.threads, Do(w, l, s).threads, s.t);
    Memberships(w.threads, s.t);
    Memberships(Do(w, l, s).threads, s.t);
    hide Ordinaries, Workers, Capturers, Lifecycles, Permitted;
  }

  lemma LifecycleStepKeeps(w: World, l: Limits, s: Step)
    requires WorldInv(w, l) && Possible(w, l, s) && (s.EnterLifecycle? || s.TakePermit? || s.FreePermit? || s.LeaveLifecycle?)
    ensures WorldInv(Do(w, l, s), l)
  {
    AllMoved(w.threads, Do(w, l, s).threads, s.t);
    Memberships(w.threads, s.t);
    Memberships(Do(w, l, s).threads, s.t);
    hide Ordinaries, Workers, Capturers, Lifecycles, Permitted;
  }

  lemma Memberships(threads: map<nat, Stage>, t: nat)
    ensures t in Ordinaries(threads) <==> t in threads && !threads[t].Latched?
    ensures t in Workers(threads) <==> t in threads && threads[t].Working?
    ensures t in Capturers(threads) <==> t in threads && threads[t] == Working(true)
    ensures t in Lifecycles(threads) <==> t in threads && threads[t].Latched?
    ensures t in Permitted(threads) <==> t in threads && threads[t] == Latched(true)
    ensures t in Workers(threads) ==> |Workers(threads)| != 0
    ensures t in Capturers(threads) ==> |Capturers(threads)| != 0
    ensures t in Ordinaries(threads) ==> |Ordinaries(threads)| != 0
    ensures t in Permitted(threads) ==> |Permitted(threads)| != 0
  {
  }

  lemma StepKeeps(w: World, l: Limits, s: Step)
    requires WorldInv(w, l) && Possible(w, l, s)
    ensures WorldInv(Do(w, l, s), l)
  {
    if s.EnterOrdinary? || s.TakeCapture? || s.FreePermits? || s.LeaveOrdinary? {
      OrdinaryStepKeeps(w, l, s);
    } else if s.EnterLifecycle? || s.TakePermit? || s.FreePermit? || s.LeaveLifecycle? {
      LifecycleStepKeeps(w, l, s);
    }
    hide Ordinaries, Workers, Capturers, Lifecycles, Permitted;
  }

  lemma NewWorldInv(l: Limits)
    ensures WorldInv(NEW_WORLD, l)
  {
    assert Ordinaries(map[]) == {} && Workers(map[]) == {} && Capturers(map[]) == {} && Lifecycles(map[]) == {} && Permitted(map[]) == {};
  }

  lemma {:induction false} EveryInterleaving(l: Limits, steps: seq<Step>)
    requires IsRun(l, steps)
    ensures WorldInv(Run(l, steps), l)
    decreases |steps|
  {
    hide WorldInv, Do, Possible;
    if steps == [] {
      NewWorldInv(l);
    } else {
      EveryInterleaving(l, steps[..|steps| - 1]);
      StepKeeps(Run(l, steps[..|steps| - 1]), l, steps[|steps| - 1]);
    }
  }

  /** In every interleaving ordinary and lifecycle work exclude each other, at most one lifecycle
      operation is under way, no limit is exceeded, and when nothing is under way on the device nothing
      of it is still counted. */
  lemma LatchExcludes(l: Limits, steps: seq<Step>, a: nat, b: nat)
    requires IsRun(l, steps)
    ensures var w := Run(l, steps);
            (&& (a in Lifecycles(w.threads) && b in Lifecycles(w.threads) ==> a == b)
             && !(a in Lifecycles(w.threads) && b in Ordinaries(w.threads))
             && w.a.operations <= l.operations && w.a.deviceOps <= l.perDevice && w.a.captures <= l.captures
             && (w.threads == map[] ==> !w.a.lifecycle && w.a.ordinary == 0 && w.a.deviceOps == 0 && w.a.operations == w.otherOps && w.a.captures == w.otherCaptures))
  {
    EveryInterleaving(l, steps);
    var w := Run(l, steps);
    if a in Lifecycles(w.threads) && b in Lifecycles(w.threads) && a != b {
      Pair(Lifecycles(w.threads), a, b);
    }
    NonEmpty(Lifecycles(w.threads), a);
    NonEmpty(Ordinaries(w.threads), b);
    hide Run, IsRun;
  }

  lemma NonEmpty(s: set<nat>, a: nat)
    ensures a in s ==> |s| != 0
  {
  }

  lemma Pair(s: set<nat>, a: nat, b: nat)
    requires a in s && b in s && a != b
    ensures |s| >= 2
  {
    assert s == {a, b} + (s - {a, b});
    assert |{a, b}| == 2;
  }
}
