/**
 * `ChatActivity`: sends typed messages over the held connection and
 * appends every line the peer sends to the chat log.
 */
module ChatScreen {
  import opened Wrappers
  import opened Streams
  import opened SocketHolderModule
  import opened Handshake
  import opened Chat

  /** The friend name shown when the intent carries none. */
  const DefaultFriendName := "Demo"

  class ChatActivity {
    const adapter: ChatAdapter
    var friendName: string
    /** Whether `startListeningForMessages()` launched its read job. */
    var readJobStarted: bool

    /** `onCreate` up to the listener: friend name and an empty log. */
    constructor (friendNameExtra: Option<string>)
      ensures fresh(adapter) && adapter.messages == [] && adapter.insertedAt == []
      ensures friendName == friendNameExtra.GetOr(DefaultFriendName) && !readJobStarted
    {
      adapter := new ChatAdapter([]);
      friendName := friendNameExtra.GetOr(DefaultFriendName);
      readJobStarted := false;
    }

    /**
     * The send button: empty text is ignored; otherwise the text goes out
     * as a line (when a writer is held) and joins the log as a sent
     * message whatever became of the write.
     */
    method OnSendClicked(text: string, holder: SocketHolder)
      modifies adapter, holder.writer
      ensures |text| == 0 ==> adapter.messages == old(adapter.messages)
      ensures |text| > 0 ==> adapter.messages == old(adapter.messages) + [ChatMessage(text, true)]
      ensures |text| == 0 ==> adapter.insertedAt == old(adapter.insertedAt)
      ensures |text| > 0 ==> adapter.insertedAt == old(adapter.insertedAt) + [|old(adapter.messages)|]
      ensures |text| == 0 && holder.writer != null ==> unchanged(holder.writer)
      ensures |text| > 0 && holder.writer != null && !holder.writer.broken ==>
        holder.writer.sent == old(holder.writer.sent) + old(holder.writer.buffered) + [old(holder.writer.current) + text]
    {
      if |text| > 0 {
        SendMessage(text, holder);
        adapter.AddMessage(ChatMessage(text, true));
      }
    }

    /** `sendMessage(message)`: nothing without a writer; a failed write is swallowed. */
    method SendMessage(message: string, holder: SocketHolder)
      modifies holder.writer
      ensures holder.writer != null && !holder.writer.broken ==>
        holder.writer.sent == old(holder.writer.sent) + old(holder.writer.buffered) + [old(holder.writer.current) + message]
      ensures holder.writer != null && holder.writer.broken ==> holder.writer.sent == old(holder.writer.sent)
    {
      var writer := holder.writer;
      if writer == null {
        return;
      }
      var _ := SendLine(writer, message);
    }

    /**
     * `startListeningForMessages()`: nothing without a reader; otherwise
     * the read job starts and runs `ReadMessages` on the held reader.
     */
    method StartListeningForMessages(holder: SocketHolder, activeRounds: nat) returns (appended: nat)
      requires holder.reader != null ==> holder.reader.Valid()
      modifies this, adapter, holder.reader
      ensures holder.reader == null ==> appended == 0 && readJobStarted == old(readJobStarted)
      ensures holder.reader == null ==> unchanged(adapter)
      ensures friendName == old(friendName)
      ensures holder.reader != null ==> readJobStarted && holder.reader.Valid()
      ensures holder.reader != null ==>
        appended == Min(activeRounds, |holder.reader.incoming| - old(holder.reader.pos))
      ensures holder.reader != null ==> holder.reader.pos == old(holder.reader.pos) + appended
      ensures holder.reader != null ==>
        adapter.messages == old(adapter.messages) + Received(holder.reader.incoming[old(holder.reader.pos)..holder.reader.pos])
      ensures holder.reader != null ==>
        adapter.insertedAt == old(adapter.insertedAt) + InsertedPositions(|old(adapter.messages)|, appended)
    {
      var reader := holder.reader;
      if reader == null {
        return 0;
      }
      readJobStarted := true;
      appended := ReadMessages(reader, adapter, activeRounds);
    }
  }

  /**
   * The read job's loop: read lines while the job is active
   * (`activeRounds` reads before cancellation) and append each as a
   * received message, notifying its insertion. End of stream and a read
   * error both end the loop; what was appended stays.
   */
  method ReadMessages(reader: LineReader, adapter: ChatAdapter, activeRounds: nat) returns (appended: nat)
    requires reader.Valid()
    modifies reader, adapter
    ensures reader.Valid()
    ensures appended == Min(activeRounds, |reader.incoming| - old(reader.pos))
    ensures reader.pos == old(reader.pos) + appended
    ensures adapter.messages == old(adapter.messages) + Received(reader.incoming[old(reader.pos)..reader.pos])
    ensures adapter.insertedAt == old(adapter.insertedAt) + InsertedPositions(|old(adapter.messages)|, appended)
  {
    ghost var start := reader.pos;
    ghost var m0 := |adapter.messages|;
    appended := 0;
    var rounds := 0;
    while rounds < activeRounds
      invariant reader.Valid()
      invariant appended == rounds <= activeRounds
      invariant reader.pos == start + appended
      invariant adapter.messages == old(adapter.messages) + Received(reader.incoming[start..reader.pos])
      invariant adapter.insertedAt == old(adapter.insertedAt) + InsertedPositions(m0, appended)
      decreases activeRounds - rounds
    {
      var line := reader.ReadLine();
      if !line.Line? {
        break;
      }
      ghost var before := reader.incoming[start..reader.pos - 1];
      assert |adapter.messages| == m0 + appended;
      adapter.AddMessage(ChatMessage(line.text, false));
      assert reader.incoming[start..reader.pos] == before + [line.text];
      ReceivedAppends(before, [line.text]);
      assert InsertedPositions(m0, appended + 1) == InsertedPositions(m0, appended) + [m0 + appended];
      appended := appended + 1;
      rounds := rounds + 1;
    }
  }
}
