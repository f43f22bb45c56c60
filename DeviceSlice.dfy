/** The `device` slice of the application store: whether a receiver is
    connected, the last error, what the worker reported about the device,
    and every packet received so far. The reducers are state transitions
    (`Reduce`), the store that the reducers update in place is a class
    (`DeviceStore`), and the lemmas follow any sequence of dispatched
    actions from the initial state. */
module DeviceSlice {
  import opened Common

  /** The slice's state; `deviceInfo` is whatever the worker reported, so
      its type is a parameter, and `None` stands for `null`. */
  datatype DeviceState<Info> = DeviceState(
    connected: bool,
    error: Option<string>,
    deviceInfo: Option<Info>,
    data: seq<Bytes>)

  /** The four action creators of the slice, with their payloads. */
  datatype Action<Info> =
    | SetDeviceConnected(info: Option<Info>)
    | SetDeviceDisconnected
    | SetDeviceError(message: string)
    | AddDeviceData(packet: Bytes)

  function InitialState<Info>(): (s: DeviceState<Info>)
    ensures !s.connected && s.error.None? && s.deviceInfo.None? && s.data == []
  {
    DeviceState(false, None, None, [])
  }

  /** The invariant the reducers keep: device information is only held
      while a device is connected. */
  predicate Coherent<Info>(s: DeviceState<Info>) {
    !s.connected ==> s.deviceInfo.None?
  }

  /** The slice reducer: one action applied to one state. */
  function Reduce<Info>(s: DeviceState<Info>, a: Action<Info>): (r: DeviceState<Info>)
    ensures Coherent(s) ==> Coherent(r)
    ensures s.data <= r.data
    ensures r.connected == (if a.SetDeviceConnected? then true
                            else if a.SetDeviceDisconnected? then false
                            else s.connected)
    ensures a.SetDeviceConnected? || a.SetDeviceError? || r.error == s.error
    ensures a.AddDeviceData? || r.data == s.data
  {
    match a
    case SetDeviceConnected(info) => s.(connected := true, deviceInfo := info, error := None)
    case SetDeviceDisconnected => s.(connected := false, deviceInfo := None)
    case SetDeviceError(message) => s.(error := Some(message))
    case AddDeviceData(packet) => s.(data := s.data + [packet])
  }

  /** The state after dispatching `acts` in order. */
  function Run<Info>(s: DeviceState<Info>, acts: seq<Action<Info>>): DeviceState<Info>
    decreases |acts|
  {
    if acts == [] then s else Run(Reduce(s, acts[0]), acts[1..])
  }

  /** The payloads of the `addDeviceData` actions in `acts`, in order. */
  function DataPayloads<Info>(acts: seq<Action<Info>>): seq<Bytes>
  {
    if acts == [] then []
    else (if acts[0].AddDeviceData? then [acts[0].packet] else []) + DataPayloads(acts[1..])
  }

  /** The actions that decide whether a device is connected. */
  predicate IsConnection<Info>(a: Action<Info>) {
    a.SetDeviceConnected? || a.SetDeviceDisconnected?
  }

  /** The last connect or disconnect action in `acts`, if there is one. */
  function LastConnection<Info>(acts: seq<Action<Info>>): (r: Option<Action<Info>>)
    ensures r.Some? ==> IsConnection(r.value)
    ensures r.None? <==> forall i :: 0 <= i < |acts| ==> !IsConnection(acts[i])
    ensures r.Some? ==> exists i :: 0 <= i < |acts| && acts[i] == r.value &&
                                    forall j :: i < j < |acts| ==> !IsConnection(acts[j])
    decreases |acts|
  {
    if acts == [] then None
    else
      var last := acts[|acts| - 1];
      if IsConnection(last) then Some(last)
      else
        var init := acts[..|acts| - 1];
        assert forall i :: 0 <= i < |init| ==> init[i] == acts[i];
        LastConnection(init)
  }

  /** The invariant holds from any coherent state on, whatever is dispatched. */
  lemma {:induction false} RunKeepsCoherent<Info>(s: DeviceState<Info>, acts: seq<Action<Info>>)
    requires Coherent(s)
    ensures Coherent(Run(s, acts))
    decreases |acts|
  {
    if acts != [] {
      RunKeepsCoherent(Reduce(s, acts[0]), acts[1..]);
    }
  }

  /** Every state reachable from the initial state satisfies
      `!connected ==> deviceInfo == null`. */
  lemma ReachableIsCoherent<Info>(acts: seq<Action<Info>>)
    ensures !Run(InitialState<Info>(), acts).connected ==> Run(InitialState<Info>(), acts).deviceInfo.None?
  {
    RunKeepsCoherent(InitialState<Info>(), acts);
  }

  /** Received packets are only ever appended: the data list after a run is
      the list before it followed by the run's `addDeviceData` payloads. */
  lemma {:induction false} RunAppendsData<Info>(s: DeviceState<Info>, acts: seq<Action<Info>>)
    ensures Run(s, acts).data == s.data + DataPayloads(acts)
    decreases |acts|
  {
    if acts != [] {
      RunAppendsData(Reduce(s, acts[0]), acts[1..]);
      assert Reduce(s, acts[0]).data
        == s.data + (if acts[0].AddDeviceData? then [acts[0].packet] else []);
    }
  }

  /** Hence the number of stored packets never decreases. */
  lemma RunNeverShrinksData<Info>(s: DeviceState<Info>, acts: seq<Action<Info>>)
    ensures s.data <= Run(s, acts).data
    ensures |Run(s, acts).data| >= |s.data|
  {
    RunAppendsData(s, acts);
  }

  /** Dispatching one more action is one more reducer step. */
  lemma {:induction false} RunSnoc<Info>(s: DeviceState<Info>, acts: seq<Action<Info>>, a: Action<Info>)
    ensures Run(s, acts + [a]) == Reduce(Run(s, acts), a)
    decreases |acts|
  {
    if acts == [] {
      assert acts + [a] == [a];
      assert [a][1..] == [];
    } else {
      assert (acts + [a])[1..] == acts[1..] + [a];
      RunSnoc(Reduce(s, acts[0]), acts[1..], a);
    }
  }

  /** The latest connect or disconnect decides `connected`; without one the
      flag is the starting one. A connect also leaves its payload as the
      device information, a disconnect leaves none. */
  lemma {:induction false} LatestConnectionWins<Info>(s: DeviceState<Info>, acts: seq<Action<Info>>)
    ensures LastConnection(acts).None? ==>
      Run(s, acts).connected == s.connected && Run(s, acts).deviceInfo == s.deviceInfo
    ensures LastConnection(acts) == Some(SetDeviceDisconnected) ==>
      !Run(s, acts).connected && Run(s, acts).deviceInfo.None?
    ensures LastConnection(acts).Some? && LastConnection(acts).value.SetDeviceConnected? ==>
      Run(s, acts).connected && Run(s, acts).deviceInfo == LastConnection(acts).value.info
    decreases |acts|
  {
    if acts != [] {
      var init := acts[..|acts| - 1];
      var last := acts[|acts| - 1];
      assert acts == init + [last];
      RunSnoc(s, init, last);
      LatestConnectionWins(s, init);
    }
  }

  /** The store: the slice's fields, updated in place by the reducers. */
  class DeviceStore<Info> {
    var connected: bool
    var error: Option<string>
    var deviceInfo: Option<Info>
    var data: seq<Bytes>

    function State(): DeviceState<Info>
      reads this
    {
      DeviceState(connected, error, deviceInfo, data)
    }

    predicate Valid()
      reads this
    {
      Coherent(State())
    }

    constructor ()
      ensures State() == InitialState()
      ensures Valid()
    {
      connected := false;
      error := None;
      deviceInfo := None;
      data := [];
    }

    method SetDeviceConnected(info: Option<Info>)
      modifies this
      ensures connected && deviceInfo == info && error.None? && data == old(data)
      ensures State() == Reduce(old(State()), Action.SetDeviceConnected(info))
      ensures Valid()
    {
      connected := true;
      deviceInfo := info;
      error := None;
    }

    method SetDeviceDisconnected()
      modifies this
      ensures !connected && deviceInfo.None?
      ensures error == old(error) && data == old(data)
      ensures State() == Reduce(old(State()), Action.SetDeviceDisconnected)
      ensures Valid()
    {
      connected := false;
      deviceInfo := None;
    }

    method SetDeviceError(message: string)
      modifies this
      ensures error == Some(message)
      ensures connected == old(connected) && deviceInfo == old(deviceInfo) && data == old(data)
      ensures State() == Reduce(old(State()), Action.SetDeviceError(message))
      ensures old(Valid()) ==> Valid()
    {
      error := Some(message);
    }

    method AddDeviceData(packet: Bytes)
      modifies this
      ensures data == old(data) + [packet]
      ensures connected == old(connected) && deviceInfo == old(deviceInfo) && error == old(error)
      ensures State() == Reduce(old(State()), Action.AddDeviceData(packet))
      ensures old(Valid()) ==> Valid()
    {
      data := data + [packet];
    }

    /** `dispatch(action)`: the reducer applied to the store. */
    method Dispatch(a: Action<Info>)
      modifies this
      ensures State() == Reduce(old(State()), a)
      ensures old(Valid()) ==> Valid()
    {
      match a
      case SetDeviceConnected(info) => SetDeviceConnected(info);
      case SetDeviceDisconnected => SetDeviceDisconnected();
      case SetDeviceError(message) => SetDeviceError(message);
      case AddDeviceData(packet) => AddDeviceData(packet);
    }
  }
}
