/** jni/libdevmgr/dev/DeviceCenter.cpp: the list of devices, the list of observers, and what the
    observers are told. */
module DeviceCenter {
  import opened Basics
  import opened Objects
  import opened Reconcile

  type Device = PObject<string>          // `it` is the id
  type Observer = PObject<int>

  datatype Status = Success | AlreadyExists | NotFound

  datatype Event<D> = Attached(dev: D) | Detached(dev: D)

  /** The history of callbacks; Joined marks a registration. */
  datatype Note<D, O> = Joined(obs: O) | Told(obs: O, event: Event<D>)

  datatype Center<D, O> = Center(devices: seq<D>, observers: seq<O>, log: seq<Note<D, O>>)

  // ---------------------------------------------------------------- the operations on values

  function IndexOf<T(==)>(s: seq<T>, x: T): (i: nat)
    ensures i <= |s| && (i < |s| ==> s[i] == x) && x !in s[..i] && (i == |s| <==> x !in s)
  {
    if s == [] || s[0] == x then 0 else 1 + IndexOf(s[1..], x)
  }

  function Remove<T(==)>(s: seq<T>, x: T): seq<T> {
    var i := IndexOf(s, x);
    if i < |s| then Without(s, i) else s
  }

  function TellAll<D, O>(obs: seq<O>, e: Event<D>): seq<Note<D, O>> {
    seq(|obs|, i requires 0 <= i < |obs| => Told(obs[i], e))
  }

  function TellOf<D, O>(o: O, devs: seq<D>): seq<Note<D, O>> {
    seq(|devs|, i requires 0 <= i < |devs| => Told(o, Attached(devs[i])))
  }

  function Attach<D(==), O>(c: Center<D, O>, d: D): Center<D, O> {
    if d in c.devices then c
    else Center(c.devices + [d], c.observers, c.log + TellAll(c.observers, Attached(d)))
  }

  function Detach<D(==), O>(c: Center<D, O>, d: D): Center<D, O> {
    if d !in c.devices then c
    else Center(Remove(c.devices, d), c.observers, c.log + TellAll(c.observers, Detached(d)))
  }

  function Register<D, O(==)>(c: Center<D, O>, o: O): Center<D, O> {
    if o in c.observers then c
    else Center(c.devices, c.observers + [o], c.log + [Joined(o)] + TellOf(o, c.devices))
  }

  function Unregister<D, O(==)>(c: Center<D, O>, o: O): Center<D, O> {
    c.(observers := Remove(c.observers, o))
  }

  // ---------------------------------------------------------------- what an observer knows

  /** What `o` was told since it registered last. */
  function Since<D, O(==)>(log: seq<Note<D, O>>, o: O): seq<Event<D>> {
    if log == [] then []
    else
      var before, last := log[..|log| - 1], log[|log| - 1];
      if last.obs != o then Since(before, o)
      else if last.Joined? then []
      else Since(before, o) + [last.event]
  }

  /** The device list an observer can build from what it was told. */
  function Replay<D(==)>(events: seq<Event<D>>): seq<D> {
    if events == [] then []
    else
      var before := Replay(events[..|events| - 1]);
      match events[|events| - 1]
      case Attached(d) => before + [d]
      case Detached(d) => Remove(before, d)
  }

  ghost predicate CenterInv<D, O>(c: Center<D, O>) {
    && NoDup(c.devices) && NoDup(c.observers)
    && forall o | o in c.observers :: Replay(Since(c.log, o)) == c.devices
  }

  lemma SinceOne<D, O>(log: seq<Note<D, O>>, n: Note<D, O>, o: O)
    ensures Since(log + [n], o)
         == if n.obs != o then Since(log, o) else if n.Joined? then [] else Since(log, o) + [n.event]
  {
  }

  lemma {:induction false} SinceTellAll<D, O>(log: seq<Note<D, O>>, obs: seq<O>, e: Event<D>, o: O)
    requires NoDup(obs)
    ensures Since(log + TellAll(obs, e), o) == if o in obs then Since(log, o) + [e] else Since(log, o)
  {
    if obs == [] {
      assert log + TellAll(obs, e) == log;
    } else {
      var n := |obs| - 1;
      SinceTellAll(log, obs[..n], e, o);
      assert log + TellAll(obs, e) == (log + TellAll(obs[..n], e)) + [Told(obs[n], e)];
      SinceOne(log + TellAll(obs[..n], e), Told(obs[n], e), o);
      assert obs == obs[..n] + [obs[n]];
    }
  }

  lemma {:induction false} SinceTellOf<D, O>(log: seq<Note<D, O>>, p: O, devs: seq<D>, o: O)
    ensures o != p ==> Since(log + [Joined(p)] + TellOf(p, devs), o) == Since(log, o)
    ensures o == p ==> Replay(Since(log + [Joined(p)] + TellOf(p, devs), o)) == devs
  {
    var joined := log + [Joined(p)];
    if devs == [] {
      SinceOne(log, Joined(p), o);
      assert joined + TellOf(p, devs) == joined;
    } else {
      var n := |devs| - 1;
      SinceTellOf(log, p, devs[..n], o);
      assert joined + TellOf(p, devs) == (joined + TellOf(p, devs[..n])) + [Told(p, Attached(devs[n]))];
      SinceOne(joined + TellOf(p, devs[..n]), Told(p, Attached(devs[n])), o);
      assert devs == devs[..n] + [devs[n]];
    }
  }

  datatype Op<D, O> = OpAttach(dev: D) | OpDetach(dev: D) | OpRegister(obs: O) | OpUnregister(obs: O)

  function Do<D(==), O(==)>(c: Center<D, O>, op: Op<D, O>): Center<D, O> {
    match op
    case OpAttach(d) => Attach(c, d)
    case OpDetach(d) => Detach(c, d)
    case OpRegister(o) => Register(c, o)
    case OpUnregister(o) => Unregister(c, o)
  }

  function DoAll<D(==), O(==)>(c: Center<D, O>, ops: seq<Op<D, O>>): Center<D, O> {
    if ops == [] then c else Do(DoAll(c, ops[..|ops| - 1]), ops[|ops| - 1])
  }

  lemma KeepCenterInv<D, O>(c: Center<D, O>, op: Op<D, O>)
    requires CenterInv(c)
    ensures CenterInv(Do(c, op))
  {
    var c' := Do(c, op);
    forall o | o in c'.observers ensures Replay(Since(c'.log, o)) == c'.devices {
      match op
      case OpAttach(d) => SinceTellAll(c.log, c.observers, Attached(d), o);
      case OpDetach(d) => SinceTellAll(c.log, c.observers, Detached(d), o);
      case OpRegister(p) => SinceTellOf(c.log, p, c.devices, o);
      case OpUnregister(p) =>
    }
  }

  /** After any sequence of calls, what an observer was told since it registered adds up to the list. */
  lemma {:induction false} ObserversKnowTheList<D, O>(ops: seq<Op<D, O>>)
    ensures CenterInv(DoAll(Center([], [], []), ops))
  {
    if ops == [] {
    } else {
      ObserversKnowTheList(ops[..|ops| - 1]);
      KeepCenterInv(DoAll(Center([], [], []), ops[..|ops| - 1]), ops[|ops| - 1]);
    }
  }

  // ---------------------------------------------------------------- who is listed

  /** `on` was called, and `off` not since. */
  ghost predicate Stands<T>(ops: seq<T>, on: T, off: T) {
    exists i :: 0 <= i < |ops| && ops[i] == on && forall j | i < j < |ops| :: ops[j] != off
  }

  lemma StandsStep<T>(ops: seq<T>, op: T, on: T, off: T)
    requires on != off
    ensures Stands(ops + [op], on, off) <==> op == on || (op != off && Stands(ops, on, off))
  {
    var more := ops + [op];
    if op == on {
      assert more[|ops|] == on;
    }
    if Stands(ops, on, off) && op != off {
      var i :| 0 <= i < |ops| && ops[i] == on && forall j | i < j < |ops| :: ops[j] != off;
      assert more[i] == on;
    }
    if Stands(more, on, off) && op != on {
      var i :| 0 <= i < |more| && more[i] == on && forall j | i < j < |more| :: more[j] != off;
      assert ops[i] == on && more[|ops|] != off;
      assert forall j | i < j < |ops| :: ops[j] == more[j];
    }
  }

  lemma RemoveMembers<T>(s: seq<T>, x: T)
    requires NoDup(s)
    ensures forall y :: y in Remove(s, x) <==> y in s && y != x
  {
    var i := IndexOf(s, x);
    if i < |s| {
      WithoutMembers(s, i);
      assert forall k | 0 <= k < |s| - 1 :: Without(s, i)[k] == s[if k < i then k else k + 1];
    }
  }

  lemma ListedStep<D, O>(c: Center<D, O>, op: Op<D, O>, d: D, o: O)
    requires CenterInv(c)
    ensures o in Do(c, op).observers <==> op == OpRegister(o) || (op != OpUnregister(o) && o in c.observers)
    ensures d in Do(c, op).devices <==> op == OpAttach(d) || (op != OpDetach(d) && d in c.devices)
  {
    match op
    case OpDetach(x) => RemoveMembers(c.devices, x);
    case OpUnregister(x) => RemoveMembers(c.observers, x);
    case _ =>
  }

  /** After any sequence of calls: an observer is listed if and only if it was registered and not unregistered
      since, a device if and only if it was attached and not detached since. */
  lemma {:induction false} ListedIff<D, O>(ops: seq<Op<D, O>>, d: D, o: O)
    ensures var c := DoAll(Center([], [], []), ops);
      && (o in c.observers <==> Stands(ops, OpRegister(o), OpUnregister(o)))
      && (d in c.devices <==> Stands(ops, OpAttach(d), OpDetach(d)))
  {
    if ops == [] {
    } else {
      var n := |ops| - 1;
      ListedIff(ops[..n], d, o);
      ObserversKnowTheList(ops[..n]);
      ListedStep(DoAll(Center([], [], []), ops[..n]), ops[n], d, o);
      assert ops == ops[..n] + [ops[n]];
      StandsStep(ops[..n], ops[n], OpRegister(o), OpUnregister(o));
      StandsStep(ops[..n], ops[n], OpAttach(d), OpDetach(d));
    }
  }

  /** One place was taken out, and it held `x`. */
  ghost predicate TakenOut<T>(before: seq<T>, after: seq<T>, x: T) {
    exists i :: 0 <= i < |before| && before[i] == x && after == before[..i] + before[i + 1..]
  }

  // ---------------------------------------------------------------- the operations in place

  function IdOf(d: Device): string { d.it }

  class DeviceCenter {
    var devices: seq<Device>
    var observers: seq<Observer>
    var log: seq<Note<Device, Observer>>

    function State(): Center<Device, Observer>
      reads this
    {
      Center(devices, observers, log)
    }

    constructor ()
      ensures State() == Center([], [], [])
    {
      devices, observers, log := [], [], [];
    }

    method Notify(e: Event<Device>)
      modifies this`log
      ensures log == old(log) + TellAll(observers, e)
    {
      var itr := 0;
      while itr < |observers|
        invariant itr <= |observers|
        invariant log == old(log) + TellAll(observers, e)[..itr]
      {
        log := log + [Told(observers[itr], e)];
        itr := itr + 1;
      }
    }

    method OnDeviceAttached(d: Device) returns (r: Status)
      requires !d.deleted
      modifies this`devices, this`log, d`refCnt
      ensures State() == Attach(old(State()), d)
      ensures devices == old(devices) + if r.Success? then [d] else []
      ensures r == if d in old(devices) then AlreadyExists else Success
      ensures d.refCnt == old(d.refCnt) + if r.Success? then 1 else 0
    {
      var itr := FindFirst(devices, (x: Device) => x, d);
      if itr != |devices| {
        return AlreadyExists;
      }
      devices := devices + [d];
      var _ := d.AddRef();
      Notify(Attached(d));
      return Success;
    }

    method OnDeviceDetached(d: Device) returns (r: Status)
      requires d in devices ==> !d.deleted && d.refCnt > 0
      modifies this`devices, this`log, d`refCnt, d`deleted
      ensures State() == Detach(old(State()), d)
      ensures if r.Success? then TakenOut(old(devices), devices, d) else devices == old(devices)
      ensures r == if d in old(devices) then Success else NotFound
      ensures r.Success? ==> d.refCnt == old(d.refCnt) - 1 && (d.deleted <==> d.refCnt == 0)
      ensures !r.Success? ==> d.refCnt == old(d.refCnt) && d.deleted == old(d.deleted)
    {
      var itr := FindFirst(devices, (x: Device) => x, d);
      if itr == |devices| {
        return NotFound;
      }
      devices := Without(devices, itr);
      var _ := d.Release();
      Notify(Detached(d));
      return Success;
    }

    method RegisterObserver(o: Observer) returns (r: Status)
      requires !o.deleted
      modifies this`observers, this`log, o`refCnt
      ensures State() == Register(old(State()), o)
      ensures observers == old(observers) + if r.Success? then [o] else []
      ensures r == if o in old(observers) then AlreadyExists else Success
      ensures o.refCnt == old(o.refCnt) + if r.Success? then 1 else 0
    {
      var itr := FindFirst(observers, (x: Observer) => x, o);
      if itr != |observers| {
        return AlreadyExists;
      }
      observers := observers + [o];
      var _ := o.AddRef();
      log := log + [Joined(o)];
      TellDevices(o);
      return Success;
    }

    method TellDevices(o: Observer)
      modifies this`log
      ensures log == old(log) + TellOf(o, devices)
    {
      var itr := 0;
      while itr < |devices|
        invariant itr <= |devices|
        invariant log == old(log) + TellOf(o, devices)[..itr]
      {
        log := log + [Told(o, Attached(devices[itr]))];
        itr := itr + 1;
      }
    }

    method UnregisterObserver(o: Observer) returns (r: Status)
      requires o in observers ==> !o.deleted && o.refCnt > 0
      modifies this`observers, o`refCnt, o`deleted
      ensures State() == Unregister(old(State()), o)
      ensures if r.Success? then TakenOut(old(observers), observers, o) else observers == old(observers)
      ensures NoDup(old(observers)) ==> forall x :: x in observers <==> x in old(observers) && x != o
      ensures r == if o in old(observers) then Success else NotFound
      ensures r.Success? ==> o.refCnt == old(o.refCnt) - 1 && (o.deleted <==> o.refCnt == 0)
      ensures !r.Success? ==> o.refCnt == old(o.refCnt) && o.deleted == old(o.deleted)
    {
      var itr := FindFirst(observers, (x: Observer) => x, o);
      if itr == |observers| {
        return NotFound;
      }
      if NoDup(observers) {
        RemoveMembers(observers, o);
      }
      observers := Without(observers, itr);
      var _ := o.Release();
      return Success;
    }

    /** The first device with the id, with a reference for the caller. */
    method GetDevice(id: string) returns (r: Option<Device>)
      requires forall d | d in devices :: !d.deleted
      modifies devices`refCnt
      ensures r == var i := Find(devices, IdOf, id); if i == |devices| then None else Some(devices[i])
      ensures r.None? <==> forall d | d in devices :: d.it != id
      ensures r.Some? ==> r.value in devices && r.value.it == id && r.value.refCnt == old(r.value.refCnt) + 1
      ensures forall d | d in devices && r != Some(d) :: d.refCnt == old(d.refCnt)
    {
      var itr := FindFirst(devices, IdOf, id);
      if itr == |devices| {
        return None;
      }
      assert devices[itr] in devices;
      var _ := devices[itr].AddRef();
      return Some(devices[itr]);
    }
  }
}
