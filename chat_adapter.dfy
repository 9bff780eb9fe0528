/** `ChatAdapter`: the chat log shown by the chat screen's list. */
module Chat {

  /** One line of the conversation; `isSent` marks this side's own messages. */
  datatype ChatMessage = ChatMessage(message: string, isSent: bool)

  const ViewTypeSent: int := 0
  const ViewTypeReceived: int := 1

  /** The two item layouts `onCreateViewHolder` inflates. */
  datatype Holder = SentMessageHolder | ReceivedMessageHolder

  /** The holder `onCreateViewHolder` makes for a view type. */
  function HolderFor(viewType: int): (h: Holder)
    ensures h == SentMessageHolder <==> viewType == ViewTypeSent
  {
    if viewType == ViewTypeSent then SentMessageHolder else ReceivedMessageHolder
  }

  /** Messages as the read loop adds them: each line, marked received. */
  function Received(lines: seq<string>): (r: seq<ChatMessage>)
    ensures |r| == |lines|
    ensures forall i :: 0 <= i < |lines| ==> r[i] == ChatMessage(lines[i], false)
  {
    if lines == [] then [] else [ChatMessage(lines[0], false)] + Received(lines[1..])
  }

  /** The `notifyItemInserted` positions of n messages appended to a list of `from`. */
  function InsertedPositions(from: nat, n: nat): (r: seq<int>)
    ensures |r| == n
    ensures forall i :: 0 <= i < n ==> r[i] == from + i
  {
    if n == 0 then [] else InsertedPositions(from, n - 1) + [from + n - 1]
  }

  /** Lines read in two stretches give the messages of one stretch, in order. */
  lemma {:induction false} ReceivedAppends(a: seq<string>, b: seq<string>)
    ensures Received(a + b) == Received(a) + Received(b)
  {
    if a != [] {
      assert (a + b)[1..] == a[1..] + b;
      ReceivedAppends(a[1..], b);
    }
  }

  class ChatAdapter {
    /** The list shared with the chat screen. */
    var messages: seq<ChatMessage>
    /** Positions passed to `notifyItemInserted`, in order. */
    var insertedAt: seq<int>

    constructor (messages: seq<ChatMessage>)
      ensures this.messages == messages && insertedAt == []
    {
      this.messages := messages;
      insertedAt := [];
    }

    /** `getItemCount()`. */
    function ItemCount(): (n: nat)
      reads this
      ensures n == |messages|
    {
      |messages|
    }

    /** `getItemViewType(position)`: 0 for this side's messages, 1 for the peer's. */
    function ItemViewType(position: nat): (t: int)
      reads this
      requires position < |messages|
      ensures t == ViewTypeSent <==> messages[position].isSent
      ensures t == ViewTypeReceived <==> !messages[position].isSent
    {
      if messages[position].isSent then ViewTypeSent else ViewTypeReceived
    }

    /** `onBindViewHolder(holder, position)`: the text put in the holder. */
    function BoundText(holder: Holder, position: nat): (text: string)
      reads this
      requires position < |messages|
      ensures text == messages[position].message
    {
      match holder
      case SentMessageHolder => messages[position].message
      case ReceivedMessageHolder => messages[position].message
    }

    /** `addMessage(message)`: append, then announce the new last position. */
    method AddMessage(message: ChatMessage)
      modifies this
      ensures messages == old(messages) + [message]
      ensures insertedAt == old(insertedAt) + [|messages| - 1]
    {
      messages := messages + [message];
      insertedAt := insertedAt + [|messages| - 1];
    }
  }

  /**
   * Whichever holder the view type selects, the bound text is the
   * message's own, and the layout matches the message's side.
   */
  lemma BindShowsMessage(adapter: ChatAdapter, position: nat)
    requires position < |adapter.messages|
    ensures adapter.BoundText(HolderFor(adapter.ItemViewType(position)), position) == adapter.messages[position].message
    ensures HolderFor(adapter.ItemViewType(position)) == SentMessageHolder <==> adapter.messages[position].isSent
  {
  }
}
