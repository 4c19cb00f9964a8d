/**
 * The connection lifecycle: Closed, Connecting, Connected. Each transition
 * reads the current state and returns a new one; only the Connected state
 * owns the two periodic timers, and only a live state owns a transport
 * handle.
 */
module Connections {
  import opened Wrappers
  import opened Wire
  import opened Crypto
  import opened Transport

  /** Period of the heartbeat timer, in milliseconds. */
  const HEARTBEAT_PERIOD_MS: nat := 1000
  /** Period of the peer-monitor timer, in milliseconds. */
  const PEER_MONITOR_PERIOD_MS: nat := 5000

  /** The parts of the connect options this core reads; the rest only reach the transport. */
  datatype ConnectOptions = ConnectOptions(userid: string, peerMonitor: Callback)

  datatype ConnectError = ConnectError

  /** The transport's `Task::connect(webtransport, options)`. */
  type TaskConnect = (bool, ConnectOptions) -> Result<Task, ConnectError>

  datatype ConnectingState = ConnectingState(userid: string, task: Task, aes: Cipher, peerMonitor: Callback)

  /** What a periodic timer's closure does, with the values it captured. */
  datatype Job =
    | SendHeartbeat(task: Task, aes: Cipher, userid: string)
    | EmitPeerMonitor(peerMonitor: Callback)

  /** A running periodic timer; dropping it cancels it. */
  datatype Interval = Interval(periodMs: nat, job: Job)

  datatype ConnectedState = ConnectedState(task: Task, heartbeat: Interval, heartbeatMonitor: Interval)

  datatype Connection =
    | Closed
    | Connecting(connecting: ConnectingState)
    | Connected(connected: ConnectedState)

  /** The transport handle the state owns, if any. */
  function Handle(c: Connection): (r: Option<Task>)
    ensures r.Some? <==> !c.Closed?
  {
    match c
    case Closed => None
    case Connecting(s) => Some(s.task)
    case Connected(s) => Some(s.task)
  }

  /** The timers the state owns; a timer that is not owned has been cancelled. */
  function Timers(c: Connection): (r: seq<Interval>)
    ensures |r| > 0 <==> c.Connected?
    ensures WellFormed(c) ==> forall t :: t in r && t.job.SendHeartbeat? ==> Some(t.job.task) == Handle(c)
  {
    match c
    case Connected(s) => [s.heartbeat, s.heartbeatMonitor]
    case _ => []
  }

  /** A Connected state's heartbeat sends on the state's own transport, on the fixed periods. */
  ghost predicate WellFormed(c: Connection) {
    c.Connected? ==>
      && c.connected.heartbeat.periodMs == HEARTBEAT_PERIOD_MS
      && c.connected.heartbeat.job.SendHeartbeat?
      && c.connected.heartbeat.job.task == c.connected.task
      && c.connected.heartbeatMonitor.periodMs == PEER_MONITOR_PERIOD_MS
      && c.connected.heartbeatMonitor.job.EmitPeerMonitor?
  }

  /** `Connection::new` */
  function New(): (r: Connection)
    ensures r.Closed? && Handle(r).None? && Timers(r) == []
  {
    Closed
  }

  /** `disconnect`: from every state, the closed state, owning neither transport nor timers. */
  function Disconnect(c: Connection): (r: Connection)
    ensures r.Closed? && Handle(r).None? && Timers(r) == []
  {
    New()
  }

  /**
   * `connect`: only a Closed connection asks the transport for a new task; a
   * live one is torn down instead, so two transports are never held at once.
   */
  function Connect(c: Connection, webtransport: bool, options: ConnectOptions, aes: Cipher,
                   transport: TaskConnect): (r: Connection)
    ensures c.Closed? && transport(webtransport, options).Success? ==>
      r == Connecting(ConnectingState(options.userid, transport(webtransport, options).value, aes, options.peerMonitor))
    ensures c.Closed? && transport(webtransport, options).Failure? ==> r.Closed?
    ensures !c.Closed? ==> r == Disconnect(c)
    ensures !r.Connected?
    ensures Handle(r).Some? ==> Handle(c).None?
  {
    match c
    case Closed =>
      (match transport(webtransport, options)
       case Success(task) => Connecting(ConnectingState(options.userid, task, aes, options.peerMonitor))
       case Failure(_) => Closed)
    case _ => Disconnect(c)
  }

  /**
   * `Connected::from`: keeps the Connecting state's task and starts the
   * heartbeat (on that task, as that user, with that cipher) and the peer monitor.
   */
  function ConnectedFrom(s: ConnectingState): (r: ConnectedState)
    ensures r.task == s.task
    ensures r.heartbeat == Interval(HEARTBEAT_PERIOD_MS, SendHeartbeat(s.task, s.aes, s.userid))
    ensures r.heartbeatMonitor == Interval(PEER_MONITOR_PERIOD_MS, EmitPeerMonitor(s.peerMonitor))
    ensures WellFormed(Connected(r))
  {
    ConnectedState(s.task,
                   Interval(HEARTBEAT_PERIOD_MS, SendHeartbeat(s.task, s.aes, s.userid)),
                   Interval(PEER_MONITOR_PERIOD_MS, EmitPeerMonitor(s.peerMonitor)))
  }

  /** The misspelled `complate_connection`: Connected exactly from Connecting, otherwise Closed. */
  function CompleteConnection(c: Connection): (r: Connection)
    ensures r.Connected? <==> c.Connecting?
    ensures !r.Connected? ==> r.Closed?
    ensures c.Connecting? ==> r == Connected(ConnectedFrom(c.connecting)) && Handle(r) == Handle(c)
    ensures WellFormed(r)
  {
    match c
    case Connecting(s) => Connected(ConnectedFrom(s))
    case _ => Closed
  }

  /** `is_connected` */
  function IsConnected(c: Connection): (b: bool)
    ensures b <==> c.Connected?
    ensures b <==> |Timers(c)| > 0
  {
    c.Connected?
  }

  /**
   * The packet the heartbeat closure builds: a HEARTBEAT media packet from
   * `userid`, sealed, in a MEDIA_MANDATORY envelope from `userid`.
   */
  function HeartbeatPacket(aes: Cipher, proto: Protobuf, userid: string, now: real): (r: Result<PacketWrapper, Panic>)
    ensures var inner := MediaPacket(HEARTBEAT, userid, now);
      && (r.Success? <==> Seal(aes, proto.media, inner).Success?)
      && (r.Success? ==> r.value.email == userid && r.value.packetType == MEDIA_MANDATORY)
      && (r.Success? ==> r.value.data == aes.encrypt(proto.media.write(inner).value).value)
      && (r.Failure? ==> r.error == Seal(aes, proto.media, inner).error)
  {
    match Seal(aes, proto.media, MediaPacket(HEARTBEAT, userid, now))
    case Success(data) => Success(PacketWrapper(data, userid, MEDIA_MANDATORY))
    case Failure(e) => Failure(e)
  }

  /** A receiver with the same cipher reads a heartbeat from `userid` stamped `now`. */
  lemma HeartbeatRoundTrip(aes: Cipher, proto: Protobuf, userid: string, now: real)
    requires aes.RoundTrips() && proto.media.RoundTrips()
    ensures var r := HeartbeatPacket(aes, proto, userid, now);
      r.Success? ==> Open(aes, proto.media, r.value.data) == Some(MediaPacket(HEARTBEAT, userid, now))
  {
    SealThenOpen(aes, proto.media, MediaPacket(HEARTBEAT, userid, now));
  }

  /** `send_packet`: forwarded to the transport only while Connected, otherwise dropped. */
  method SendPacket(c: Connection, packet: PacketWrapper)
    modifies if c.Connected? then {c.connected.task} else {}
    ensures c.Connected? ==> c.connected.task.outbox == old(c.connected.task.outbox) + [packet]
    ensures c.Connecting? ==> unchanged(c.connecting.task)
  {
    match c
    case Connected(s) => s.task.SendPacket(packet);
    case _ =>
  }

  /** The objects a timer's closure changes when it fires. */
  function JobFootprint(job: Job): set<object> {
    match job
    case SendHeartbeat(task, _, _) => {task}
    case EmitPeerMonitor(callback) => {callback}
  }

  /**
   * One firing of a timer's closure at wall-clock `now`: the heartbeat sends
   * exactly one heartbeat packet on its task (or panics, sending nothing);
   * the peer monitor invokes the callback once.
   */
  method Fire(timer: Interval, proto: Protobuf, now: real) returns (outcome: Outcome)
    modifies JobFootprint(timer.job)
    ensures timer.job.EmitPeerMonitor? ==>
      outcome == Completed && timer.job.peerMonitor.emitted == old(timer.job.peerMonitor.emitted) + 1
    ensures timer.job.SendHeartbeat? ==>
      var job := timer.job;
      match HeartbeatPacket(job.aes, proto, job.userid, now)
      case Success(p) => outcome == Completed && job.task.outbox == old(job.task.outbox) + [p]
      case Failure(e) => outcome == Panicked(e) && job.task.outbox == old(job.task.outbox)
  {
    match timer.job
    case EmitPeerMonitor(callback) =>
      callback.Emit();
      outcome := Completed;
    case SendHeartbeat(task, aes, userid) =>
      var packet := HeartbeatPacket(aes, proto, userid, now);
      match packet
      case Success(p) =>
        task.SendPacket(p);
        outcome := Completed;
      case Failure(e) =>
        outcome := Panicked(e);
  }

  /** One call on the connection, with everything the call receives. */
  datatype Call =
    | ConnectCall(webtransport: bool, options: ConnectOptions, aes: Cipher, transport: TaskConnect)
    | CompleteConnectionCall
    | DisconnectCall

  function Apply(c: Connection, call: Call): Connection {
    match call
    case ConnectCall(webtransport, options, aes, transport) => Connect(c, webtransport, options, aes, transport)
    case CompleteConnectionCall => CompleteConnection(c)
    case DisconnectCall => Disconnect(c)
  }

  /** The state after making `calls`, in order, starting from `c`. */
  function Run(c: Connection, calls: seq<Call>): (r: Connection)
    ensures WellFormed(c) ==> WellFormed(r)
    decreases |calls|
  {
    if calls == [] then c else Apply(Run(c, calls[..|calls| - 1]), calls[|calls| - 1])
  }

  /**
   * Whatever calls were made since `new`, a Connected state was reached by a
   * connect made while Closed, immediately followed by a completion; it holds
   * the task that connect obtained, and its heartbeat speaks for that
   * connect's user with that connect's cipher.
   */
  lemma {:induction false} ConnectedOnlyAfterHandshake(calls: seq<Call>)
    requires Run(New(), calls).Connected?
    ensures |calls| >= 2
    ensures calls[|calls| - 1].CompleteConnectionCall?
    ensures calls[|calls| - 2].ConnectCall?
    ensures Run(New(), calls[..|calls| - 2]).Closed?
    ensures var k, s := calls[|calls| - 2], Run(New(), calls).connected;
      && k.transport(k.webtransport, k.options) == Success(s.task)
      && s.heartbeat == Interval(HEARTBEAT_PERIOD_MS, SendHeartbeat(s.task, k.aes, k.options.userid))
      && s.heartbeatMonitor == Interval(PEER_MONITOR_PERIOD_MS, EmitPeerMonitor(k.options.peerMonitor))
  {
    var n := |calls|;
    assert n > 0;
    var before := Run(New(), calls[..n - 1]);
    assert Run(New(), calls) == Apply(before, calls[n - 1]);
    assert calls[n - 1].CompleteConnectionCall? && before.Connecting?;
    assert n - 1 > 0;
    var prefix := calls[..n - 1];
    assert prefix[..n - 2] == calls[..n - 2];
    assert before == Apply(Run(New(), calls[..n - 2]), calls[n - 2]);
  }
}
