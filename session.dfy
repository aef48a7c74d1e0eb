/** The link session of the ROBOTIS DREAM extension: the object that owns the
    transport handle, the busy gate that lets one write be in flight at a
    time, the busy timeout that reopens a stuck gate, and the watchdog that
    reports a silent link.

    The host is modelled alongside the object's own fields: a clock in
    milliseconds, the table of running timers (`setTimeout` and
    `setInterval` share one pool of ids, and `clearTimeout` removes any of
    them), the writes handed to a transport and those whose completion is
    outstanding, and the requests the object makes of its transports. Each
    event is one method of the class, taken atomically as the
    single-threaded host runs its handlers, and is specified by a function
    from the state before to the state after. */
module Session {
  import opened Wrappers
  import opened Bytes
  import opened Packet
  import opened Commands

  /** ms until a busy gate that saw no write completion is reopened. */
  const BusyTimeout := 5000
  /** `BLETimeout`: ms between watchdog reports while no data arrives. */
  const WatchdogInterval := 45000

  const Service := "6e400001-b5a3-f393-e0a9-e50e24dcca9e"
  const WriteChar := "6e400002-b5a3-f393-e0a9-e50e24dcca9e"

  /** A write handed to transport number `transport`. */
  datatype WriteRequest = WriteRequest(transport: nat, service: string, characteristic: string, data: seq<Byte>)

  /** What a running timer does when it fires: the busy timeout of `send`
      clears the gate; the watchdog interval reports that data stopped. */
  datatype TimerKind = ReleaseBusy | ReportDataStopped
  datatype Timer = Timer(kind: TimerKind, due: int)

  /** The object's fields and the host around them (see `RobotisDream`). */
  datatype SessionState = SessionState(
    ble: Option<nat>, busy: bool, busyTimeoutId: Option<nat>, timeoutId: Option<nat>,
    transportConnected: bool, transportsCreated: nat, teardowns: seq<nat>, linkErrors: seq<nat>,
    writes: seq<WriteRequest>, pendingWrites: set<nat>,
    now: int, timers: map<nat, Timer>, nextTimerId: nat)

  /** What the session keeps true between events. */
  ghost predicate Inv(s: SessionState)
  {
    (s.ble.Some? ==> s.ble.value < s.transportsCreated)
    && (forall k :: k in s.pendingWrites ==> k < |s.writes|)
    && (s.busyTimeoutId.Some? ==> s.busyTimeoutId.value < s.nextTimerId)
    // every running timer has an id already handed out and is not overdue;
    // a busy timeout is the one `_busyTimeoutID` records, runs only while
    // the gate is closed and is due within 5000 ms; a watchdog reports to
    // `this._ble`, which is then set, is due within 45000 ms, and (ids are
    // never reused) is never the recorded busy timeout
    && (forall t :: t in s.timers ==>
          t < s.nextTimerId && s.now <= s.timers[t].due
          && (s.timers[t].kind == ReleaseBusy ==>
                s.busy && s.busyTimeoutId == Some(t) && s.timers[t].due <= s.now + BusyTimeout)
          && (s.timers[t].kind == ReportDataStopped ==>
                s.ble.Some? && s.busyTimeoutId != Some(t) && s.timers[t].due <= s.now + WatchdogInterval))
    // the busy gate is closed exactly while its timeout is running
    && (s.busy ==> s.busyTimeoutId.Some? && s.busyTimeoutId.value in s.timers
                   && s.timers[s.busyTimeoutId.value].kind == ReleaseBusy)
    // the recorded watchdog is running
    && (s.timeoutId.Some? ==> s.timeoutId.value in s.timers
                              && s.timers[s.timeoutId.value].kind == ReportDataStopped)
  }

  /** `isConnected()`: a transport is held and it reports a connection. */
  predicate Connected(s: SessionState)
  {
    s.ble.Some? && s.transportConnected
  }

  /** No watchdog interval is running. */
  predicate NoWatchdog(s: SessionState)
  {
    forall t :: t in s.timers ==> s.timers[t].kind != ReportDataStopped
  }

  /** No watchdog runs other than the one `_timeoutID` records. */
  predicate OnlyRecordedWatchdog(s: SessionState)
  {
    forall t :: t in s.timers && s.timers[t].kind == ReportDataStopped ==> s.timeoutId == Some(t)
  }

  /** Timer `t` of the given kind is running and due. */
  predicate Due(s: SessionState, t: nat, kind: TimerKind)
  {
    t in s.timers && s.timers[t].kind == kind && s.timers[t].due <= s.now
  }

  /** The host fires every timer when it is due, so the clock can advance by
      `dt` only when no running timer falls due earlier. */
  predicate MayElapse(s: SessionState, dt: nat)
  {
    forall t :: t in s.timers ==> s.now + dt <= s.timers[t].due
  }

  const Initial := SessionState(None, false, None, None, false, 0, [], [], [], {}, 0, map[], 1)

  /** The host's `setTimeout`/`setInterval`: the timer gets the next id. */
  function Arm(s: SessionState, kind: TimerKind, delay: int): SessionState
  {
    s.(timers := s.timers[s.nextTimerId := Timer(kind, s.now + delay)], nextTimerId := s.nextTimerId + 1)
  }

  /** The host's `clearTimeout`, which accepts a missing id and any timer. */
  function ClearTimer(s: SessionState, id: Option<nat>): SessionState
  {
    if id.Some? then s.(timers := s.timers - {id.value}) else s
  }

  /** `this._ble.disconnect()` when a transport is held. */
  function Teardown(s: SessionState): SessionState
  {
    if s.ble.Some? then s.(teardowns := s.teardowns + [s.ble.value], transportConnected := false) else s
  }

  function AfterScan(s: SessionState): SessionState
  {
    var u := Teardown(s);
    u.(ble := Some(u.transportsCreated), transportsCreated := u.transportsCreated + 1, transportConnected := false)
  }

  function AfterReset(s: SessionState): SessionState
  {
    ClearTimer(s, s.timeoutId).(timeoutId := None)
  }

  function AfterDisconnect(s: SessionState): SessionState
  {
    AfterReset(Teardown(s))
  }

  function AfterSend(s: SessionState, service: string, characteristic: string, value: seq<Byte>): SessionState
  {
    if !Connected(s) || s.busy then s
    else
      Arm(s, ReleaseBusy, BusyTimeout).(
        busy := true, busyTimeoutId := Some(s.nextTimerId),
        pendingWrites := s.pendingWrites + {|s.writes|},
        writes := s.writes + [WriteRequest(s.ble.value, service, characteristic, value)])
  }

  function AfterWriteCompleted(s: SessionState, k: nat): SessionState
  {
    ClearTimer(s, s.busyTimeoutId).(busy := false, pendingWrites := s.pendingWrites - {k})
  }

  function AfterBusyTimeout(s: SessionState, t: nat): SessionState
  {
    ClearTimer(s, Some(t)).(busy := false)
  }

  function AfterConnect(s: SessionState): SessionState
  {
    Arm(s, ReportDataStopped, WatchdogInterval).(transportConnected := true, timeoutId := Some(s.nextTimerId))
  }

  function AfterMessage(s: SessionState): SessionState
  {
    var c := ClearTimer(s, s.timeoutId);
    Arm(c, ReportDataStopped, WatchdogInterval).(timeoutId := Some(c.nextTimerId))
  }

  function AfterWatchdog(s: SessionState, t: nat): SessionState
    requires s.ble.Some?
  {
    s.(linkErrors := s.linkErrors + [s.ble.value],
       timers := s.timers[t := Timer(ReportDataStopped, s.now + WatchdogInterval)])
  }

  function AfterElapse(s: SessionState, dt: nat): SessionState
  {
    s.(now := s.now + dt)
  }

  function AfterLinkLost(s: SessionState): SessionState
  {
    s.(transportConnected := false)
  }

  lemma InitialInv()
    ensures Inv(Initial) && NoWatchdog(Initial) && !Connected(Initial)
  {
  }

  lemma ScanKeepsInv(s: SessionState)
    requires Inv(s)
    ensures Inv(AfterScan(s))
  {
  }

  lemma ResetKeepsInv(s: SessionState)
    requires Inv(s)
    ensures Inv(AfterReset(s))
  {
  }

  lemma DisconnectKeepsInv(s: SessionState)
    requires Inv(s)
    ensures Inv(AfterDisconnect(s))
  {
    ResetKeepsInv(Teardown(s));
  }

  lemma SendKeepsInv(s: SessionState, service: string, characteristic: string, value: seq<Byte>)
    requires Inv(s)
    ensures Inv(AfterSend(s, service, characteristic, value))
  {
  }

  lemma WriteCompletedKeepsInv(s: SessionState, k: nat)
    requires Inv(s) && k in s.pendingWrites
    ensures Inv(AfterWriteCompleted(s, k))
  {
  }

  lemma BusyTimeoutKeepsInv(s: SessionState, t: nat)
    requires Inv(s) && Due(s, t, ReleaseBusy)
    ensures Inv(AfterBusyTimeout(s, t))
  {
  }

  lemma ConnectKeepsInv(s: SessionState)
    requires Inv(s) && s.ble.Some?
    ensures Inv(AfterConnect(s))
  {
  }

  lemma MessageKeepsInv(s: SessionState)
    requires Inv(s) && s.ble.Some?
    ensures Inv(AfterMessage(s))
  {
  }

  lemma WatchdogKeepsInv(s: SessionState, t: nat)
    requires Inv(s) && Due(s, t, ReportDataStopped)
    ensures Inv(AfterWatchdog(s, t))
  {
  }

  lemma ElapseKeepsInv(s: SessionState, dt: nat)
    requires Inv(s) && MayElapse(s, dt)
    ensures Inv(AfterElapse(s, dt))
  {
  }

  lemma LinkLostKeepsInv(s: SessionState)
    requires Inv(s)
    ensures Inv(AfterLinkLost(s))
  {
  }

  /** `send` hands out a write exactly when the session is connected and
      the gate is open; it never hands out more than one, never drops one
      already logged, and leaves the gate closed whenever it is connected. */
  lemma SendGate(s: SessionState, service: string, characteristic: string, value: seq<Byte>)
    ensures s.writes <= AfterSend(s, service, characteristic, value).writes
    ensures |AfterSend(s, service, characteristic, value).writes| <= |s.writes| + 1
    ensures |AfterSend(s, service, characteristic, value).writes| == |s.writes| + 1 <==> Connected(s) && !s.busy
    ensures Connected(s) ==> AfterSend(s, service, characteristic, value).busy
    ensures !Connected(s) || s.busy ==> AfterSend(s, service, characteristic, value) == s
  {
  }

  /** A closed gate cannot stay closed for more than 5000 ms: the clock
      cannot pass that point before the busy timeout fires. */
  lemma GateReopensInTime(s: SessionState, dt: nat)
    requires Inv(s) && s.busy && dt > BusyTimeout
    ensures !MayElapse(s, dt)
  {
    var id := s.busyTimeoutId.value;
    assert s.timers[id].kind == ReleaseBusy;
  }

  /** `scan` tears down the transport held, if any, and holds a new one that
      is not yet connected; the gate, its timeout and the running timers are
      left as they were. */
  lemma ScanReplacesTransport(s: SessionState)
    ensures AfterScan(s).ble == Some(s.transportsCreated) && !Connected(AfterScan(s))
    ensures AfterScan(s).teardowns == if s.ble.Some? then s.teardowns + [s.ble.value] else s.teardowns
    ensures AfterScan(s).busy == s.busy && AfterScan(s).timers == s.timers && AfterScan(s).timeoutId == s.timeoutId
  {
  }

  /** The busy timeout firing opens the gate and, being the only busy
      timeout, leaves none running. */
  lemma BusyTimeoutOpensGate(s: SessionState, t: nat)
    requires Inv(s) && Due(s, t, ReleaseBusy)
    ensures !AfterBusyTimeout(s, t).busy && t !in AfterBusyTimeout(s, t).timers
    ensures forall u :: u in AfterBusyTimeout(s, t).timers ==>
              AfterBusyTimeout(s, t).timers[u].kind == ReportDataStopped
  {
  }

  /** A write completion opens the gate and stops the busy timeout recorded
      now, even when the completion belongs to an earlier write. */
  lemma CompletionClearsCurrentTimeout(s: SessionState, k: nat)
    requires Inv(s) && k in s.pendingWrites
    ensures !AfterWriteCompleted(s, k).busy
    ensures forall t :: t in AfterWriteCompleted(s, k).timers ==>
              AfterWriteCompleted(s, k).timers[t].kind == ReportDataStopped
  {
  }

  /** `_onConnect` on a session with no watchdog running leaves exactly one,
      the recorded one, due after a full interval. */
  lemma ConnectArmsOneWatchdog(s: SessionState)
    requires NoWatchdog(s)
    ensures OnlyRecordedWatchdog(AfterConnect(s)) && AfterConnect(s).timeoutId == Some(s.nextTimerId)
    ensures AfterConnect(s).timers[s.nextTimerId] == Timer(ReportDataStopped, s.now + WatchdogInterval)
  {
  }

  /** `_onConnect` with a watchdog recorded does not stop it, so two then
      run. */
  lemma ConnectKeepsOldWatchdog(s: SessionState)
    requires Inv(s) && s.timeoutId.Some?
    ensures !OnlyRecordedWatchdog(AfterConnect(s))
  {
    var first := s.timeoutId.value;
    assert first != s.nextTimerId && first in AfterConnect(s).timers;
  }

  /** `_onMessage` keeps exactly one watchdog, the recorded one, and pushes
      it a full interval into the future. */
  lemma MessageRearmsWatchdog(s: SessionState)
    requires Inv(s) && OnlyRecordedWatchdog(s)
    ensures OnlyRecordedWatchdog(AfterMessage(s)) && AfterMessage(s).timeoutId == Some(s.nextTimerId)
    ensures AfterMessage(s).timers[s.nextTimerId] == Timer(ReportDataStopped, s.now + WatchdogInterval)
  {
  }

  /** While data keeps arriving less than 45000 ms apart no report falls
      due: after a message and any shorter pause, no watchdog is due. */
  lemma QuietWhileDataFlows(s: SessionState, dt: nat)
    requires Inv(s) && OnlyRecordedWatchdog(s) && dt < WatchdogInterval
    ensures forall t :: !Due(AfterElapse(AfterMessage(s), dt), t, ReportDataStopped)
  {
    MessageRearmsWatchdog(s);
  }

  /** `reset` stops the one recorded watchdog and leaves the busy gate and
      its timeout alone. */
  lemma ResetStopsWatchdog(s: SessionState)
    requires Inv(s) && OnlyRecordedWatchdog(s)
    ensures NoWatchdog(AfterReset(s)) && AfterReset(s).timeoutId == None
    ensures AfterReset(s).busy == s.busy && AfterReset(s).busyTimeoutId == s.busyTimeoutId
    ensures forall t :: t in s.timers && s.timers[t].kind == ReleaseBusy ==> t in AfterReset(s).timers
  {
  }

  /** `disconnect` keeps the handle: afterwards the session is not
      connected, but `_ble` still names the torn-down transport. */
  lemma DisconnectKeepsHandle(s: SessionState)
    ensures AfterDisconnect(s).ble == s.ble && !Connected(AfterDisconnect(s))
    ensures AfterDisconnect(s).teardowns == if s.ble.Some? then s.teardowns + [s.ble.value] else s.teardowns
  {
  }

  /** The ROBOTIS DREAM extension object. The first four fields are the
      object's own; the rest is the host and transports it talks to. */
  class RobotisDream {
    /** `_ble`: the transport made by the latest `scan` (transports are
        numbered in order of creation), or null. */
    var ble: Option<nat>
    /** `_busy` */
    var busy: bool
    /** `_busyTimeoutID` */
    var busyTimeoutId: Option<nat>
    /** `_timeoutID` */
    var timeoutId: Option<nat>

    /** What `_ble.isConnected()` answers for the current transport. */
    var transportConnected: bool
    /** How many transports `scan` has made. */
    var transportsCreated: nat
    /** Transports whose `disconnect()` was called, in order. */
    var teardowns: seq<nat>
    /** Transports that were sent `handleDisconnectError`, in order. */
    var linkErrors: seq<nat>
    /** Every write handed to a transport, in order. */
    var writes: seq<WriteRequest>
    /** Indices into `writes` of the writes whose completion has not arrived. */
    var pendingWrites: set<nat>

    /** The host clock, in ms. */
    var now: int
    /** The running timers, by id. */
    var timers: map<nat, Timer>
    /** The id the host hands out next. */
    var nextTimerId: nat

    function State(): SessionState
      reads this
    {
      SessionState(ble, busy, busyTimeoutId, timeoutId, transportConnected, transportsCreated,
                   teardowns, linkErrors, writes, pendingWrites, now, timers, nextTimerId)
    }

    /** `isConnected()`. */
    predicate IsConnected()
      reads this
    {
      Connected(State())
    }

    constructor ()
      ensures State() == Initial
    {
      ble, busy, busyTimeoutId, timeoutId := None, false, None, None;
      transportConnected, transportsCreated := false, 0;
      teardowns, linkErrors, writes, pendingWrites := [], [], [], {};
      now, timers, nextTimerId := 0, map[], 1;
    }

    /** `scan()`: tear down the transport held, if any, and make a new one,
        not yet connected. */
    method Scan()
      modifies this
      ensures State() == AfterScan(old(State()))
    {
      if ble.Some? {
        teardowns := teardowns + [ble.value];
        transportConnected := false;
      }
      ble := Some(transportsCreated);
      transportsCreated := transportsCreated + 1;
      transportConnected := false;
    }

    /** `reset()`: stop the recorded watchdog and forget it. */
    method Reset()
      modifies this
      ensures State() == AfterReset(old(State()))
    {
      if timeoutId.Some? {
        timers := timers - {timeoutId.value};
        timeoutId := None;
      }
    }

    /** `disconnect()`: tear down the transport held, if any, then `reset()`. */
    method Disconnect()
      modifies this
      ensures State() == AfterDisconnect(old(State()))
    {
      if ble.Some? {
        teardowns := teardowns + [ble.value];
        transportConnected := false;
      }
      Reset();
    }

    /** `send(service, characteristic, value)`. */
    method Send(service: string, characteristic: string, value: seq<Byte>)
      modifies this
      ensures State() == AfterSend(old(State()), service, characteristic, value)
    {
      if !IsConnected() { return; }
      if busy { return; }
      busy := true;
      var id := nextTimerId;
      timers, nextTimerId := timers[id := Timer(ReleaseBusy, now + BusyTimeout)], nextTimerId + 1;
      busyTimeoutId := Some(id);
      pendingWrites := pendingWrites + {|writes|};
      writes := writes + [WriteRequest(ble.value, service, characteristic, value)];
    }

    /** The transport completes write number `k` (the `then` of `send`). */
    method WriteCompleted(k: nat)
      requires k in pendingWrites
      modifies this
      ensures State() == AfterWriteCompleted(old(State()), k)
    {
      pendingWrites := pendingWrites - {k};
      busy := false;
      if busyTimeoutId.Some? {
        timers := timers - {busyTimeoutId.value};
      }
    }

    /** The busy timeout `t` fires. */
    method BusyTimeoutFired(t: nat)
      requires Due(State(), t, ReleaseBusy)
      modifies this
      ensures State() == AfterBusyTimeout(old(State()), t)
    {
      timers := timers - {t};
      busy := false;
    }

    /** The transport has connected and calls `_onConnect`. */
    method OnConnect()
      requires ble.Some?
      modifies this
      ensures State() == AfterConnect(old(State()))
    {
      transportConnected := true;
      var id := nextTimerId;
      timers, nextTimerId := timers[id := Timer(ReportDataStopped, now + WatchdogInterval)], nextTimerId + 1;
      timeoutId := Some(id);
    }

    /** `_onMessage`: data arrived from the transport. */
    method OnMessage()
      requires ble.Some?
      modifies this
      ensures State() == AfterMessage(old(State()))
    {
      if timeoutId.Some? {
        timers := timers - {timeoutId.value};
      }
      var id := nextTimerId;
      timers, nextTimerId := timers[id := Timer(ReportDataStopped, now + WatchdogInterval)], nextTimerId + 1;
      timeoutId := Some(id);
    }

    /** The watchdog `t` fires. */
    method WatchdogFired(t: nat)
      requires Due(State(), t, ReportDataStopped) && ble.Some?
      modifies this
      ensures State() == AfterWatchdog(old(State()), t)
    {
      linkErrors := linkErrors + [ble.value];
      timers := timers[t := Timer(ReportDataStopped, now + WatchdogInterval)];
    }

    /** Time passes. */
    method Elapse(dt: nat)
      requires MayElapse(State(), dt)
      modifies this
      ensures State() == AfterElapse(old(State()), dt)
    {
      now := now + dt;
    }

    /** The transport loses its connection. */
    method LinkLost()
      modifies this
      ensures State() == AfterLinkLost(old(State()))
    {
      transportConnected := false;
    }

    /** `servoPower(port, direction, power)`: send the word write that sets
        the servo's speed. */
    method ServoPower(port: string, direction: string, power: int)
      modifies this
      ensures State() == AfterSend(old(State()), Service, WriteChar, ServoPacket(port, direction, power))
    {
      var address := PortAddress(port);
      var value := ServoValue(direction, power);
      var packet := WriteWordPacket(ControllerId, address, value);
      Send(Service, WriteChar, packet);
    }

    /** `setSound(arg)`: send the byte write that rings tone `arg`. */
    method SetSound(arg: Byte)
      modifies this
      ensures State() == AfterSend(old(State()), Service, WriteChar, SoundPacket(arg))
    {
      var packet := WriteBytePacket(ControllerId, SoundAddress, arg);
      Send(Service, WriteChar, packet);
    }
  }

  /** The session right after `scan` and `_onConnect` on a new object. */
  const Linked := SessionState(Some(0), false, None, Some(1), true, 1, [], [], [], {},
                               0, map[1 := Timer(ReportDataStopped, WatchdogInterval)], 2)

  method LinkedSession() returns (r: RobotisDream)
    ensures fresh(r) && r.State() == Linked
  {
    r := new RobotisDream();
    r.Scan();
    r.OnConnect();
  }

  /** While no busy timer is due the gate stays closed: one write is handed
      out, the second is dropped, and the third goes out once the first
      completes. */
  method BusyGateScenario(a: seq<Byte>, b: seq<Byte>, c: seq<Byte>) returns (log: seq<WriteRequest>)
    ensures log == [WriteRequest(0, Service, WriteChar, a), WriteRequest(0, Service, WriteChar, c)]
  {
    var r := LinkedSession();
    r.Send(Service, WriteChar, a);
    r.Send(Service, WriteChar, b);
    r.WriteCompleted(0);
    r.Send(Service, WriteChar, c);
    log := r.writes;
  }

  /** A write that never completes holds the gate for exactly 5000 ms; then
      the busy timeout reopens it. */
  method BusyTimeoutScenario(a: seq<Byte>, b: seq<Byte>) returns (atDeadline: seq<WriteRequest>, after: seq<WriteRequest>)
    ensures atDeadline == [WriteRequest(0, Service, WriteChar, a)]
    ensures after == [WriteRequest(0, Service, WriteChar, a), WriteRequest(0, Service, WriteChar, b)]
  {
    var r := LinkedSession();
    r.Send(Service, WriteChar, a);  // busy timeout id 2
    r.Elapse(BusyTimeout);
    r.Send(Service, WriteChar, b);
    atDeadline := r.writes;
    r.BusyTimeoutFired(2);
    r.Send(Service, WriteChar, b);
    after := r.writes;
  }

  /** A late completion of a write whose timeout already fired reopens the
      gate while a newer write is outstanding, and clears that newer write's
      timeout: a third write then goes out beside it. */
  lemma StaleCompletion(a: seq<Byte>, b: seq<Byte>, c: seq<Byte>)
    ensures var s1 := AfterSend(Linked, Service, WriteChar, a);                    // busy timeout id 2
            var s2 := AfterBusyTimeout(AfterElapse(s1, BusyTimeout), 2);
            var s3 := AfterSend(s2, Service, WriteChar, b);                        // busy timeout id 3
            var s4 := AfterWriteCompleted(s3, 0);                                  // clears id 3
            var s5 := AfterSend(s4, Service, WriteChar, c);                        // busy timeout id 4
            && MayElapse(s1, BusyTimeout) && Due(AfterElapse(s1, BusyTimeout), 2, ReleaseBusy)
            && s5.writes == [WriteRequest(0, Service, WriteChar, a), WriteRequest(0, Service, WriteChar, b),
                             WriteRequest(0, Service, WriteChar, c)]
            && s5.pendingWrites == {1, 2}
            && s5.timers == map[1 := Timer(ReportDataStopped, WatchdogInterval), 4 := Timer(ReleaseBusy, 2 * BusyTimeout)]
  {
  }

  /** Data arriving within every 45000 ms keeps the watchdog from firing;
      45000 ms of silence makes it report to the transport. */
  method WatchdogScenario() returns (whileTalking: seq<nat>, afterSilence: seq<nat>)
    ensures whileTalking == []
    ensures afterSilence == [0]
  {
    var r := LinkedSession();
    r.Elapse(WatchdogInterval - 1);
    r.OnMessage();                  // id 2
    r.Elapse(WatchdogInterval - 1);
    assert forall t :: !Due(r.State(), t, ReportDataStopped);
    r.OnMessage();                  // id 3
    whileTalking := r.linkErrors;
    r.Elapse(WatchdogInterval);
    r.WatchdogFired(3);
    afterSilence := r.linkErrors;
  }

  /** A second `_onConnect` leaves the first watchdog running where no
      `_onMessage` or `reset` reaches it. */
  method DoubleConnectScenario() returns (running: map<nat, Timer>, afterDisconnect: map<nat, Timer>)
    ensures running == map[1 := Timer(ReportDataStopped, WatchdogInterval), 3 := Timer(ReportDataStopped, WatchdogInterval)]
    ensures afterDisconnect == map[1 := Timer(ReportDataStopped, WatchdogInterval)]
  {
    var r := LinkedSession();   // watchdog id 1
    r.OnConnect();          // id 2
    r.OnMessage();          // clears 2, arms 3
    running := r.timers;
    r.Disconnect();         // clears 3
    afterDisconnect := r.timers;
  }

  /** After `disconnect` the handle is still set but not connected, so
      `send` drops its write. */
  method DisconnectScenario(a: seq<Byte>) returns (log: seq<WriteRequest>, handle: Option<nat>, tornDown: seq<nat>)
    ensures log == [] && handle == Some(0) && tornDown == [0]
  {
    var r := LinkedSession();
    r.Disconnect();
    r.Send(Service, WriteChar, a);
    log, handle, tornDown := r.writes, r.ble, r.teardowns;
  }

  /** `servoPower` and `setSound` hand the transport the packets the command
      layer describes. */
  method CommandScenario(port: string, direction: string, power: int, tone: Byte) returns (log: seq<WriteRequest>)
    ensures log == [WriteRequest(0, Service, WriteChar, ServoPacket(port, direction, power)),
                    WriteRequest(0, Service, WriteChar, SoundPacket(tone))]
  {
    var r := LinkedSession();
    r.ServoPower(port, direction, power);
    r.WriteCompleted(0);
    r.SetSound(tone);
    log := r.writes;
  }
}
