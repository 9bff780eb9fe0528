/**
 * `ClientActivity`: the non-owner's side of session establishment. It
 * shows the discovered peers, asks the platform to connect to the one
 * tapped, and once the group is formed with another device as owner it
 * dials the owner and exchanges names with it.
 */
module Client {
  import opened Wrappers
  import opened Streams
  import opened SocketHolderModule
  import opened WifiDirect
  import opened Handshake
  import Host

  /** Milliseconds the client waits for the host's server before dialing. */
  const SettleDelayMs: nat := 500
  /** The connect timeout, in milliseconds. */
  const ConnectTimeoutMs: int := 5000

  /** The texts the client screen shows (string resources by name). */
  datatype ClientStatus =
    | NoDevicesFound                    // "No devices found"
    | SelectADevice                     // "Select a device"
    | ConnectingTo(deviceName: string)
    | FailedToInitiateConnection
    | WaitingForConnectionInfo
    | ConnectingToHost(hostIp: string)
    | SocketError

  /** A `Socket.connect(InetSocketAddress(host, port), timeoutMs)` call. */
  datatype Dial = Dial(host: string, port: int, timeoutMs: int)

  /** The address the connection-info callback dials, if any. */
  function DialTarget(info: ConnectionInfo): (r: Option<string>)
    ensures r.Some? <==> info.groupFormed && !info.isGroupOwner && info.groupOwnerAddress.Some?
    ensures r.Some? ==> r == info.groupOwnerAddress
  {
    if info.groupFormed && !info.isGroupOwner then info.groupOwnerAddress else None
  }

  /** One connection-info event never makes a device both listen and dial. */
  lemma RolesExclusive(info: ConnectionInfo)
    ensures !(Host.StartsServer(info) && DialTarget(info).Some?)
    ensures info.groupFormed && info.groupOwnerAddress.Some? ==> Host.StartsServer(info) || DialTarget(info).Some?
  {
  }

  /** The status after a peer list arrives. */
  function PeersStatus(devices: seq<Device>): (s: ClientStatus)
    ensures s == NoDevicesFound <==> |devices| == 0
    ensures s == SelectADevice <==> |devices| > 0
  {
    if |devices| == 0 then NoDevicesFound else SelectADevice
  }

  class ClientActivity {
    const helper: WifiDirectHelper
    /** The `userName` intent extra. */
    const userName: Option<string>
    var devices: seq<Device>
    var statusLog: seq<ClientStatus>
    var delays: seq<nat>
    var dials: seq<Dial>
    /** The host's name once a handshake completes. */
    var hostName: Option<string>

    /** `onCreate`: a fresh helper with the peers subscriber set and receivers registered. */
    constructor (sdkInt: int, userName: Option<string>)
      ensures fresh(helper) && helper.receiverRegistered && helper.hasPeersSubscriber
      ensures helper.permissions == BuildPermissionsArray(sdkInt)
      ensures this.userName == userName
      ensures devices == [] && statusLog == [] && delays == [] && dials == [] && hostName == None
    {
      var h := new WifiDirectHelper(sdkInt);
      h.SetOnPeersChanged();
      h.RegisterReceivers();
      helper := h;
      this.userName := userName;
      devices, statusLog, delays, dials, hostName := [], [], [], [], None;
    }

    /** The peers subscriber: `devices.clear()`, `devices.addAll(newPeers)`, then the status. */
    method OnPeersChanged(newPeers: seq<Device>)
      modifies this
      ensures devices == newPeers
      ensures statusLog == old(statusLog) + [PeersStatus(newPeers)]
      ensures delays == old(delays) && dials == old(dials) && hostName == old(hostName)
    {
      devices := [];
      devices := devices + newPeers;
      statusLog := statusLog + [if |devices| == 0 then NoDevicesFound else SelectADevice];
    }

    /** A tap on list position `pos` asks the platform to connect to that device. */
    method OnItemClick(pos: nat)
      requires pos < |devices|
      modifies this, helper
      ensures helper.p2pCalls == old(helper.p2pCalls) + [Connect(old(devices)[pos].deviceAddress)]
      ensures statusLog == old(statusLog) + [ConnectingTo(old(devices)[pos].deviceName)]
      ensures devices == old(devices) && delays == old(delays) && dials == old(dials)
      ensures hostName == old(hostName)
      ensures helper.effects == old(helper.effects) && helper.peers == old(helper.peers)
    {
      var dev := devices[pos];
      statusLog := statusLog + [ConnectingTo(dev.deviceName)];
      helper.ConnectToDevice(dev);
    }

    /** The connect request's result callback. */
    method OnConnectResult(ok: bool)
      modifies this
      ensures statusLog == old(statusLog) + [if ok then WaitingForConnectionInfo else FailedToInitiateConnection]
      ensures devices == old(devices) && delays == old(delays) && dials == old(dials)
      ensures hostName == old(hostName)
    {
      if !ok {
        statusLog := statusLog + [FailedToInitiateConnection];
      } else {
        statusLog := statusLog + [WaitingForConnectionInfo];
      }
    }

    /**
     * The connection-info callback: when this device is a member of a
     * formed group it shows the connecting status and runs
     * `connectToSocket` against the owner's address, whose effects follow;
     * for any other group it does nothing.
     */
    method OnConnectionInfo(info: ConnectionInfo, holder: SocketHolder, socket: Socket?)
        returns (dialed: bool, peer: Option<string>)
      requires socket != null ==> socket.reader.Valid()
      modifies this, holder
      modifies if socket == null then {} else {socket.reader, socket.writer}
      ensures dialed == DialTarget(info).Some?
      ensures !dialed ==> peer == None && unchanged(this) && unchanged(holder)
      ensures !dialed && socket != null ==> unchanged(socket.reader, socket.writer)
      ensures dialed ==> dials == old(dials) + [Dial(info.groupOwnerAddress.value, Host.ServerPort, ConnectTimeoutMs)]
      ensures dialed ==> delays == old(delays) + [SettleDelayMs] && devices == old(devices)
      ensures dialed ==>
        statusLog == old(statusLog) + [ConnectingToHost(DialTarget(info).value)] + (if peer.None? then [SocketError] else [])
      ensures dialed ==> hostName == if peer.Some? then peer else old(hostName)
      ensures dialed && socket == null ==> peer == None && unchanged(holder)
      ensures dialed && socket != null ==>
        holder.socket == socket && holder.reader == socket.reader && holder.writer == socket.writer
      ensures dialed && socket != null ==> holder.serverSocket == old(holder.serverSocket)
      ensures dialed && socket != null && !socket.writer.broken ==>
        socket.writer.sent == old(socket.writer.sent) + old(socket.writer.buffered)
          + [old(socket.writer.current) + userName.GetOr(DefaultClientName)]
      ensures dialed && socket != null && !socket.writer.broken ==>
        peer == PeerName(old(socket.reader.Next()), DefaultHostName)
      ensures dialed && socket != null && socket.writer.broken ==> peer == None
      ensures socket != null ==> socket.reader.Valid()
      ensures dialed && socket != null ==>
        socket.reader.pos == old(socket.reader.pos) + (if !socket.writer.broken && old(socket.reader.Next()).Line? then 1 else 0)
    {
      var target := DialTarget(info);
      dialed := target.Some?;
      peer := None;
      if dialed {
        statusLog := statusLog + [ConnectingToHost(target.value)];
        peer := ConnectToSocket(target.value, holder, socket);
      }
    }

    /**
     * `connectToSocket(ip)`: wait 500 ms, dial the host once, hold the new
     * socket's handles (the previously held socket is not closed), send
     * this side's name and read the host's. A null `socket` stands for
     * `connect` throwing; any exception ends the attempt with an error
     * status.
     */
    method ConnectToSocket(ip: string, holder: SocketHolder, socket: Socket?) returns (peer: Option<string>)
      requires socket != null ==> socket.reader.Valid()
      modifies this, holder
      modifies if socket == null then {} else {socket.reader, socket.writer}
      ensures delays == old(delays) + [SettleDelayMs]
      ensures dials == old(dials) + [Dial(ip, Host.ServerPort, ConnectTimeoutMs)]
      ensures socket == null ==> peer == None && unchanged(holder)
      ensures socket != null ==>
        holder.socket == socket && holder.reader == socket.reader && holder.writer == socket.writer
      ensures socket != null ==> holder.serverSocket == old(holder.serverSocket)
      ensures socket != null && !socket.writer.broken ==>
        socket.writer.sent == old(socket.writer.sent) + old(socket.writer.buffered)
          + [old(socket.writer.current) + userName.GetOr(DefaultClientName)]
      ensures socket != null && !socket.writer.broken ==>
        peer == PeerName(old(socket.reader.Next()), DefaultHostName)
      ensures socket != null && socket.writer.broken ==> peer == None
      ensures statusLog == old(statusLog) + (if peer.None? then [SocketError] else [])
      ensures hostName == if peer.Some? then peer else old(hostName)
      ensures devices == old(devices)
      ensures socket != null ==> socket.reader.Valid()
      ensures socket != null ==>
        socket.reader.pos == old(socket.reader.pos) + (if !socket.writer.broken && old(socket.reader.Next()).Line? then 1 else 0)
    {
      delays := delays + [SettleDelayMs];
      dials := dials + [Dial(ip, Host.ServerPort, ConnectTimeoutMs)];
      if socket == null {
        statusLog := statusLog + [SocketError];
        return None;
      }
      holder.socket := socket;
      holder.reader := socket.reader;
      holder.writer := socket.writer;
      var myName := userName.GetOr(DefaultClientName);
      var sent := SendLine(socket.writer, myName);
      if !sent {
        statusLog := statusLog + [SocketError];
        return None;
      }
      peer := ReadPeerName(socket.reader, DefaultHostName);
      if peer.None? {
        statusLog := statusLog + [SocketError];
        return;
      }
      hostName := peer;
    }
  }
}
