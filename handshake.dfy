/**
 * The name exchange both ends of a new connection perform: write one's own
 * name as a line and flush it, then read one line as the peer's name,
 * falling back to a default when the stream ends first.
 */
module Handshake {
  import opened Wrappers
  import opened Streams
  import opened SocketHolderModule

  /** The name each side uses for itself, and for its peer, when none is known. */
  const DefaultHostName := "Host"
  const DefaultClientName := "Client"

  /**
   * The peer name taken from the first line read: the line itself, the
   * default when the stream has ended, nothing when the read throws.
   */
  function PeerName(first: LineRead, default: string): (r: Option<string>)
    ensures r == None <==> first == ReadError
    ensures first.Line? ==> r == Some(first.text)
    ensures first == EndOfStream ==> r == Some(default)
  {
    match first
    case Line(text) => Some(text)
    case EndOfStream => Some(default)
    case ReadError => None
  }

  /**
   * `write(text); newLine(); flush()`, as both the name exchange and the
   * chat send it; false where `flush()` throws.
   */
  method SendLine(writer: LineWriter, text: string) returns (ok: bool)
    modifies writer
    ensures ok == !writer.broken && writer.current == []
    ensures ok ==> writer.sent == old(writer.sent) + old(writer.buffered) + [old(writer.current) + text]
    ensures ok ==> writer.buffered == []
    ensures !ok ==> writer.sent == old(writer.sent)
    ensures !ok ==> writer.buffered == old(writer.buffered) + [old(writer.current) + text]
  {
    writer.Write(text);
    writer.NewLine();
    ok := writer.Flush();
  }

  /** `readLine() ?: default`; None where `readLine()` throws. */
  method ReadPeerName(reader: LineReader, default: string) returns (peer: Option<string>)
    requires reader.Valid()
    modifies reader
    ensures reader.Valid()
    ensures peer == PeerName(old(reader.Next()), default)
    ensures reader.pos == if old(reader.Next()).Line? then old(reader.pos) + 1 else old(reader.pos)
  {
    var line := reader.ReadLine();
    peer := PeerName(line, default);
  }

  /**
   * Both parties on fresh connections, each line channel carrying what the
   * other side flushed: both write first, then read, so neither waits on
   * the other, and each learns exactly the name the other wrote. This is a
   * standalone two-party scenario: the host's `WaitForClient` and the
   * client's `ConnectToSocket` each read from a reader whose incoming lines
   * are fixed when it is built, so their contracts are stated against those
   * lines rather than linked to what the other side sends.
   */
  method MutualHandshake(hostName: string, clientName: string) returns (hostLearns: Option<string>, clientLearns: Option<string>)
    ensures hostLearns == Some(clientName)
    ensures clientLearns == Some(hostName)
  {
    var hostOut := new LineWriter(false);
    var clientOut := new LineWriter(false);
    var hostSent := SendLine(hostOut, hostName);
    var clientSent := SendLine(clientOut, clientName);
    assert hostOut.sent == [hostName] && clientOut.sent == [clientName] by {
      assert [] + hostName == hostName && [] + clientName == clientName;
    }
    var hostIn := new LineReader(clientOut.sent, false);
    var clientIn := new LineReader(hostOut.sent, false);
    hostLearns := ReadPeerName(hostIn, DefaultClientName);
    clientLearns := ReadPeerName(clientIn, DefaultHostName);
  }

  /** The chat screen's `friendName`, or the "Socket not ready" toast. */
  datatype Navigation = OpenChat(friendName: string) | SocketNotReady

  /** The success dialog's "Go to chat" button, on either side. */
  function GoToChat(holder: SocketHolder, peerName: string): (r: Navigation)
    reads holder
    ensures r.OpenChat? <==> holder.socket != null && holder.reader != null && holder.writer != null
    ensures r.OpenChat? ==> r.friendName == peerName
  {
    if holder.ChatReady() then OpenChat(peerName) else SocketNotReady
  }
}
