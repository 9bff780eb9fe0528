/** The process-wide record of the current connection's handles. */
module SocketHolderModule {
  import opened Streams

  class SocketHolder {
    var socket: Socket?
    var serverSocket: ServerSocket?
    var reader: LineReader?
    var writer: LineWriter?

    constructor ()
      ensures socket == null && serverSocket == null && reader == null && writer == null
    {
      socket, serverSocket, reader, writer := null, null, null, null;
    }

    /** The chat screen may be opened only when all three handles are set. */
    predicate ChatReady()
      reads this
    {
      socket != null && reader != null && writer != null
    }

    /**
     * Closes the socket and the server socket, ignoring a close that
     * throws, then drops all four handles. The reader and writer are not
     * closed directly.
     */
    method Clear()
      modifies this, socket, serverSocket
      ensures socket == null && serverSocket == null && reader == null && writer == null
      ensures old(socket) != null ==>
        old(socket).closeCalls == old(socket.closeCalls) + 1 &&
        old(socket).open == (old(socket.open) && old(socket).closeFails)
      ensures old(serverSocket) != null ==>
        old(serverSocket).closeCalls == old(serverSocket.closeCalls) + 1 &&
        old(serverSocket).open == (old(serverSocket.open) && old(serverSocket).closeFails)
      ensures old(reader) != null ==> unchanged(old(reader))
      ensures old(writer) != null ==> unchanged(old(writer))
      ensures old(socket == null && serverSocket == null && reader == null && writer == null) ==> unchanged(this)
    {
      if socket != null {
        var _ := socket.Close();
      }
      if serverSocket != null {
        var _ := serverSocket.Close();
      }
      socket := null;
      serverSocket := null;
      reader := null;
      writer := null;
    }
  }
}
