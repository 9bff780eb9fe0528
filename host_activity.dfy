/**
 * `HostActivity`: the group owner's side of session establishment. It
 * creates a group, retrying every failure after a delay, and once the
 * group is formed with this device as owner it listens, accepts one
 * client and exchanges names with it.
 */
module Host {
  import opened Wrappers
  import opened Streams
  import opened SocketHolderModule
  import opened WifiDirect
  import opened Handshake

  /** The port the server binds; the client dials the same one. */
  const ServerPort: int := 8988
  /** The port the "listening" status text names. */
  const AdvertisedPort: int := 8080
  /** Milliseconds before a failed group creation is tried again. */
  const RetryDelayMs: nat := 1200

  /** The texts the host screen shows, in order. */
  datatype HostStatus =
    | GroupCreated                    // "Group created. Waiting for client..."
    | CreateFailed(reason: int)       // "createGroup failed: <reason> (will retry)"
    | StartingServer                  // "Group formed — starting server socket..."
    | Listening(port: int)            // "Server listening on port <port>, waiting for client..."
    | ServerError                     // "Server socket error: <message>"

  /** The connection-info callback starts the server only for a formed group this device owns. */
  function StartsServer(info: ConnectionInfo): (r: bool)
    ensures r ==> info.groupFormed
    ensures r ==> info.isGroupOwner
    ensures info.groupFormed && info.isGroupOwner ==> r
  {
    info.groupFormed && info.isGroupOwner
  }

  // ------------------------------------------------------- group creation

  /** What `createGroup` reports to its listener. */
  datatype CreateOutcome = Created | Failed(reason: int)

  /** How many attempts fail before the first success (all of them when none succeeds). */
  function FailuresBefore(outcomes: seq<CreateOutcome>): (n: nat)
    ensures n <= |outcomes|
    ensures forall i :: 0 <= i < n ==> outcomes[i].Failed?
    ensures n < |outcomes| ==> outcomes[n] == Created
  {
    if outcomes == [] || outcomes[0] == Created then 0
    else 1 + FailuresBefore(outcomes[1..])
  }

  /** The attempts made while the platform answers `outcomes`: up to and including the first success. */
  function AttemptCount(outcomes: seq<CreateOutcome>): (n: nat)
    ensures n <= |outcomes|
  {
    var f := FailuresBefore(outcomes);
    if f < |outcomes| then f + 1 else f
  }

  /** The status each answer shows. */
  function StatusOf(o: CreateOutcome): HostStatus
  {
    match o
    case Created => GroupCreated
    case Failed(reason) => CreateFailed(reason)
  }

  function Statuses(outcomes: seq<CreateOutcome>): (r: seq<HostStatus>)
    ensures |r| == |outcomes|
    ensures forall i :: 0 <= i < |outcomes| ==> r[i] == StatusOf(outcomes[i])
  {
    if outcomes == [] then [] else Statuses(outcomes[..|outcomes| - 1]) + [StatusOf(outcomes[|outcomes| - 1])]
  }

  /** The P2P calls of consecutive `createGroupWithRetries()` runs, given each removal's result. */
  function GroupCallsFor(removals: seq<bool>): (r: seq<P2pCall>)
    ensures |r| == 2 * |removals|
    ensures forall k :: 0 <= k < |r| ==> r[k] == if k % 2 == 0 then RemoveGroup else CreateGroup
  {
    if removals == [] then []
    else GroupCallsFor(removals[..|removals| - 1]) + GroupCalls(removals[|removals| - 1])
  }

  /** The sleeps of n retries. */
  function Delays(n: nat): (r: seq<nat>)
    ensures |r| == n
    ensures forall i :: 0 <= i < n ==> r[i] == RetryDelayMs
  {
    if n == 0 then [] else Delays(n - 1) + [RetryDelayMs]
  }

  lemma GroupCallsForStep(removals: seq<bool>, i: nat)
    requires i < |removals|
    ensures GroupCallsFor(removals[..i + 1]) == GroupCallsFor(removals[..i]) + GroupCalls(removals[i])
  {
    assert removals[..i + 1][..i] == removals[..i];
  }

  lemma StatusesStep(outcomes: seq<CreateOutcome>, i: nat)
    requires i < |outcomes|
    ensures Statuses(outcomes[..i + 1]) == Statuses(outcomes[..i]) + [StatusOf(outcomes[i])]
  {
    assert outcomes[..i + 1][..i] == outcomes[..i];
  }

  /** n failures in a row, then a success. */
  function FailThenCreate(n: nat, reason: int): (r: seq<CreateOutcome>)
    ensures |r| == n + 1
  {
    seq(n, _ => Failed(reason)) + [Created]
  }

  /**
   * There is no attempt cap: however many failures come first, the retry
   * goes on until the group is created, one attempt per failure plus one.
   */
  lemma {:induction false} NoAttemptCap(n: nat, reason: int)
    ensures FailuresBefore(FailThenCreate(n, reason)) == n
    ensures AttemptCount(FailThenCreate(n, reason)) == n + 1
  {
    if n > 0 {
      assert FailThenCreate(n, reason)[1..] == FailThenCreate(n - 1, reason);
      NoAttemptCap(n - 1, reason);
    }
  }

  class HostActivity {
    const helper: WifiDirectHelper
    /** The `userName` intent extra. */
    const userName: Option<string>
    var statusLog: seq<HostStatus>
    /** Delays slept before retries, in milliseconds. */
    var delays: seq<nat>
    /** The client's name once a handshake completes. */
    var clientName: Option<string>

    /** `onCreate`: a fresh helper whose receivers are registered. */
    constructor (sdkInt: int, userName: Option<string>)
      ensures fresh(helper) && helper.receiverRegistered
      ensures helper.permissions == BuildPermissionsArray(sdkInt)
      ensures this.userName == userName
      ensures statusLog == [] && delays == [] && clientName == None
    {
      var h := new WifiDirectHelper(sdkInt);
      h.RegisterReceivers();
      helper := h;
      this.userName := userName;
      statusLog, delays, clientName := [], [], None;
    }

    /**
     * `createGroup()` with its failure handler: every failure shows its
     * reason, sleeps 1200 ms and starts over. The platform's answers are
     * `outcomes` (and `removals` for the preceding `removeGroup`); the model
     * follows the attempts they cover.
     */
    method CreateGroup(removals: seq<bool>, outcomes: seq<CreateOutcome>) returns (attempts: nat)
      requires |removals| >= |outcomes|
      modifies this, helper
      ensures attempts == AttemptCount(outcomes)
      ensures helper.p2pCalls == old(helper.p2pCalls) + GroupCallsFor(removals[..attempts])
      ensures statusLog == old(statusLog) + Statuses(outcomes[..attempts])
      ensures delays == old(delays) + Delays(FailuresBefore(outcomes))
      ensures helper.effects == old(helper.effects) && helper.peers == old(helper.peers)
      ensures helper.receiverRegistered == old(helper.receiverRegistered)
      ensures clientName == old(clientName)
    {
      attempts := 0;
      while attempts < |outcomes|
        invariant attempts <= FailuresBefore(outcomes)
        invariant helper.p2pCalls == old(helper.p2pCalls) + GroupCallsFor(removals[..attempts])
        invariant statusLog == old(statusLog) + Statuses(outcomes[..attempts])
        invariant delays == old(delays) + Delays(attempts)
        invariant helper.effects == old(helper.effects) && helper.peers == old(helper.peers)
        invariant helper.receiverRegistered == old(helper.receiverRegistered)
        invariant clientName == old(clientName)
      {
        var o := outcomes[attempts];
        assert o == Created ==> attempts == FailuresBefore(outcomes);
        Attempt(removals[attempts], o);
        GroupCallsForStep(removals, attempts);
        StatusesStep(outcomes, attempts);
        attempts := attempts + 1;
        if o == Created {
          return;
        }
      }
    }

    /** One `createGroupWithRetries()` run and its listener's reaction. */
    method Attempt(removeSucceeded: bool, o: CreateOutcome)
      modifies this, helper
      ensures helper.p2pCalls == old(helper.p2pCalls) + GroupCalls(removeSucceeded)
      ensures statusLog == old(statusLog) + [StatusOf(o)]
      ensures delays == old(delays) + (if o.Failed? then [RetryDelayMs] else [])
      ensures helper.effects == old(helper.effects) && helper.peers == old(helper.peers)
      ensures helper.receiverRegistered == old(helper.receiverRegistered)
      ensures clientName == old(clientName)
    {
      helper.CreateGroupWithRetries(removeSucceeded);
      statusLog := statusLog + [StatusOf(o)];
      if o.Failed? {
        delays := delays + [RetryDelayMs];
      }
    }

    /**
     * The connection-info callback: for a formed group this device owns it
     * shows the server-start status and runs `waitForClient()`, whose
     * effects follow; for any other group it does nothing.
     */
    method OnConnectionInfo(info: ConnectionInfo, holder: SocketHolder, bindFails: bool, client: Socket?)
        returns (started: bool, peer: Option<string>)
      requires client != null ==> client.reader.Valid()
      requires client != null ==> client != holder.socket
      modifies this, holder, holder.socket, holder.serverSocket
      modifies if client == null then {} else {client.reader, client.writer}
      ensures started == StartsServer(info)
      ensures !started ==> peer == None && unchanged(this) && unchanged(holder)
      ensures !started && holder.socket != null ==> unchanged(holder.socket)
      ensures !started && holder.serverSocket != null ==> unchanged(holder.serverSocket)
      ensures !started && client != null ==> unchanged(client.reader, client.writer)
      ensures started && old(holder.socket) != null ==>
        old(holder.socket).closeCalls == old(holder.socket.closeCalls) + 1
      ensures started && old(holder.serverSocket) != null ==>
        old(holder.serverSocket).closeCalls == old(holder.serverSocket.closeCalls) + 1
      ensures started && bindFails ==> peer == None && holder.serverSocket == old(holder.serverSocket)
      ensures started && !bindFails ==> holder.serverSocket != null && fresh(holder.serverSocket)
      ensures started && !bindFails ==> holder.serverSocket.port == ServerPort && holder.serverSocket.open
      ensures started && (bindFails || client == null) ==>
        holder.socket == old(holder.socket) && holder.reader == old(holder.reader) && holder.writer == old(holder.writer)
      ensures started && !bindFails && client != null ==>
        holder.socket == client && holder.reader == client.reader && holder.writer == client.writer
      ensures started && !bindFails && client != null && !client.writer.broken ==>
        client.writer.sent == old(client.writer.sent) + old(client.writer.buffered)
          + [old(client.writer.current) + userName.GetOr(DefaultHostName)]
      ensures started && !bindFails && client != null && !client.writer.broken ==>
        peer == PeerName(old(client.reader.Next()), DefaultClientName)
      ensures started && !bindFails && client != null && client.writer.broken ==> peer == None
      ensures started ==>
        statusLog == old(statusLog) + [StartingServer] + (if bindFails then [] else [Listening(AdvertisedPort)])
          + (if peer.None? then [ServerError] else [])
      ensures started ==> clientName == (if peer.Some? then peer else old(clientName)) && delays == old(delays)
      ensures client != null ==> client.reader.Valid()
      ensures started && bindFails && client != null ==> unchanged(client.reader, client.writer)
      ensures started && !bindFails && client != null ==>
        client.reader.pos == old(client.reader.pos) + (if !client.writer.broken && old(client.reader.Next()).Line? then 1 else 0)
    {
      started := StartsServer(info);
      peer := None;
      if started {
        statusLog := statusLog + [StartingServer];
        peer := WaitForClient(holder, bindFails, client);
      }
    }

    /** Closes the held socket and server socket, ignoring a close that throws; the handles stay. */
    method CloseHeld(holder: SocketHolder)
      modifies holder.socket, holder.serverSocket
      ensures holder.socket != null ==> holder.socket.closeCalls == old(holder.socket.closeCalls) + 1
      ensures holder.serverSocket != null ==> holder.serverSocket.closeCalls == old(holder.serverSocket.closeCalls) + 1
    {
      if holder.socket != null {
        var _ := holder.socket.Close();
      }
      if holder.serverSocket != null {
        var _ := holder.serverSocket.Close();
      }
    }

    /**
     * `waitForClient()`: close the held socket and server socket (errors
     * ignored), bind port 8988, accept one client, hold its handles, send
     * this side's name and read the client's. `bindFails` and a null
     * `client` stand for `ServerSocket(port)` and `accept()` throwing; any
     * exception ends the attempt with an error status and no retry.
     */
    method WaitForClient(holder: SocketHolder, bindFails: bool, client: Socket?) returns (peer: Option<string>)
      requires client != null ==> client.reader.Valid()
      requires client != null ==> client != holder.socket
      modifies this, holder, holder.socket, holder.serverSocket
      modifies if client == null then {} else {client.reader, client.writer}
      ensures old(holder.socket) != null ==> old(holder.socket).closeCalls == old(holder.socket.closeCalls) + 1
      ensures old(holder.serverSocket) != null ==>
        old(holder.serverSocket).closeCalls == old(holder.serverSocket.closeCalls) + 1
      ensures bindFails ==> peer == None && holder.serverSocket == old(holder.serverSocket)
      ensures !bindFails ==> holder.serverSocket != null && fresh(holder.serverSocket)
      ensures !bindFails ==> holder.serverSocket.port == ServerPort && holder.serverSocket.open
      ensures bindFails || client == null ==> holder.socket == old(holder.socket) && holder.reader == old(holder.reader)
      ensures bindFails || client == null ==> holder.writer == old(holder.writer)
      ensures !bindFails && client != null ==>
        holder.socket == client && holder.reader == client.reader && holder.writer == client.writer
      ensures !bindFails && client != null && !client.writer.broken ==>
        client.writer.sent == old(client.writer.sent) + old(client.writer.buffered)
          + [old(client.writer.current) + userName.GetOr(DefaultHostName)]
      ensures !bindFails && client != null && !client.writer.broken ==>
        peer == PeerName(old(client.reader.Next()), DefaultClientName)
      ensures !bindFails && client != null && client.writer.broken ==> peer == None
      ensures statusLog == old(statusLog) + (if bindFails then [] else [Listening(AdvertisedPort)])
        + (if peer.None? then [ServerError] else [])
      ensures clientName == if peer.Some? then peer else old(clientName)
      ensures delays == old(delays)
      ensures client != null ==> client.reader.Valid()
      ensures bindFails && client != null ==> unchanged(client.reader, client.writer)
      ensures !bindFails && client != null ==>
        client.reader.pos == old(client.reader.pos) + (if !client.writer.broken && old(client.reader.Next()).Line? then 1 else 0)
    {
      CloseHeld(holder);
      if bindFails {
        statusLog := statusLog + [ServerError];
        return None;
      }
      var server := new ServerSocket(ServerPort, false);
      holder.serverSocket := server;
      statusLog := statusLog + [Listening(AdvertisedPort)];
      if client == null {
        statusLog := statusLog + [ServerError];
        return None;
      }
      holder.socket := client;
      holder.reader := client.reader;
      holder.writer := client.writer;
      var myName := userName.GetOr(DefaultHostName);
      var sent := SendLine(client.writer, myName);
      if !sent {
        statusLog := statusLog + [ServerError];
        return None;
      }
      peer := ReadPeerName(client.reader, DefaultClientName);
      if peer.None? {
        statusLog := statusLog + [ServerError];
        return;
      }
      clientName := peer;
    }
  }
}
