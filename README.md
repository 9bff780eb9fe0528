# Wi-Fi Chat core, modelled in Dafny

Wifi-Chat is an Android app that lets two phones chat over Wi-Fi Direct.
One phone plays host: it creates a P2P group, listens on a server socket and accepts one client.
The other plays client: it lists the discovered peers, connects to the one tapped, and dials the group owner.
Both then swap names, one line each way, and open a chat screen.
The chat screen sends each typed message as a line and appends each line the peer sends.
A small framing helper sends and receives a profile (a name and an image) as length-prefixed binary.

This project models the app's logic:

- **Readiness gate and helper** (module `WifiDirect`):
  - the four preconditions, checked in a fixed order;
  - the permission list, which depends on the SDK level;
  - receiver registration and the peer list;
  - the "remove group, then create" sequence.
- **Profile framing** (module `MetadataHelper`, with Kotlin `Int` arithmetic in `KotlinInt`):
  - the encoder, byte by byte;
  - the decoder as written, which makes one unlooped bulk `read` per body;
  - a corrected decoder that reads each body in full.
- **Session holder** (`SocketHolderModule`): the four process-wide handles and `clear()`.
- **Session establishment** (`Host`, `Client`, `Handshake`):
  - role gating on the connection info;
  - the unbounded group-creation retry;
  - close-then-listen on the host side;
  - the settle-then-dial on the client side;
  - the write-then-read name handshake.
- **Chat log** (`Chat`, `ChatScreen`):
  - the append-only adapter;
  - the send guard;
  - the read loop.
- **Name handling and dev mode** (`MainScreen`):
  - Kotlin's `trim()`;
  - the name normalisation;
  - the greeting and the name extracted from it;
  - the tap counter.

Platform queries arrive as inputs:

- whether permissions are granted, Wi-Fi is on and the hotspot is on;
- each location provider's answer;
- whether a bind, an accept, a connect, a flush or a close throws;
- how many bytes a bulk read delivers.

What the code asks of the platform is recorded in fields of the model classes:

- toasts, settings screens, permission requests and the ready callback go to `effects`;
- P2P calls go to `p2pCalls`;
- status texts go to `statusLog`;
- the lines a writer has flushed go to `sent`;
- the bytes written to the socket go to `written`.

The library collaborators are small classes in `Streams`:

- a byte input stream with a position;
- a byte output stream;
- a line reader over a fixed sequence of lines, ending cleanly or with a read error;
- a line writer with `write`, `newLine` and `flush`;
- sockets whose `close()` may throw.

The model keeps the code's behaviour as written, including these points where it departs from what a framing protocol or a handshake would be expected to do:

- **The decoder is not short-read tolerant.** A length-prefixed framing is expected to read each body in full across partial reads and to report a truncated frame. The code makes one `read` per body (MetadataHelper.kt:45-53), so unfilled bytes stay zero, and a stream that ends early makes `ByteArray(negative)` throw. `DecodeAt` models the code. The corrected reading is a separate decoder (see Findings).
- **Lengths are signed.** The prefixes are written as four big-endian bytes, which reads naturally as an unsigned 32-bit length. The code reassembles them into a signed Kotlin `Int`, so a first byte of 128 or more gives a negative length and the same exception.
- **A closed peer stream is not a handshake error.** When `readLine()` returns null, the code substitutes a default name: "Client" on the host side, "Host" on the client side.
- **The status names the wrong port.** The host binds port 8988 but its status text says 8080. The model keeps both constants, `ServerPort` and `AdvertisedPort`.
- **The client does not close old sockets.** It overwrites the held handles without closing the previous socket. The host does close its old sockets first.

## Model

| member | source | states |
|---|---|---|
| WifiDirect.BuildPermissionsArray | app/src/main/java/com/example/wifitest/WifiDirectHelper.kt:62-71 | fine and coarse location come first; NEARBY_WIFI_DEVICES is in the list exactly when the SDK level is at least 33 (TIRAMISU); no permission appears twice |
| WifiDirect.IsLocationEnabled | app/src/main/java/com/example/wifitest/WifiDirectHelper.kt:152-160 | enabled only if GPS or network is enabled; with no exception it is exactly that disjunction; a throwing GPS query counts as disabled; an enabled GPS short-circuits to true |
| WifiDirect.Gate | app/src/main/java/com/example/wifitest/WifiDirectHelper.kt:205-231 | Ready iff all four preconditions hold; a Blocked outcome names a failing precondition, and every precondition checked before it holds |
| WifiDirect.GateIsFirstUnmet | app/src/main/java/com/example/wifitest/WifiDirectHelper.kt:205-231 | both directions: precondition c is the one remediated iff c fails and every precondition ranked before c holds (fixed priority: permissions, Wi-Fi, hotspot, location) |
| WifiDirect.CheckEffects | app/src/main/java/com/example/wifitest/WifiDirectHelper.kt:205-235 | the ready callback is invoked iff it is set and all preconditions hold; at most two effects happen; a blocked run performs exactly the remediation of the first unmet precondition |
| WifiDirect.RemediationIsSingle | app/src/main/java/com/example/wifitest/WifiDirectHelper.kt:206-231 | a remediation never invokes the ready callback and ends in exactly one settings screen or permission request |
| WifiDirect.TetheringScreen | app/src/main/java/com/example/wifitest/WifiDirectHelper.kt:185-192 | the Wi-Fi settings screen is opened exactly when starting the wireless settings screen throws |
| WifiDirect.GroupCalls | app/src/main/java/com/example/wifitest/WifiDirectHelper.kt:268-278 | removeGroup comes first, and createGroup follows exactly once, whatever the removal's outcome |
| WifiDirect.AllGranted | app/src/main/java/com/example/wifitest/WifiDirectHelper.kt:54 | true iff every entry of the permission result is granted |
| WifiDirect.WifiDirectHelper.constructor | app/src/main/java/com/example/wifitest/WifiDirectHelper.kt:35-51 | the permission list is built for the SDK level; no receiver is registered, no peers are known, no callback is set |
| WifiDirect.WifiDirectHelper.RegisterReceivers | app/src/main/java/com/example/wifitest/WifiDirectHelper.kt:113-117 | the flag ends set; the platform registration happens only when the flag was clear; nothing else changes |
| WifiDirect.WifiDirectHelper.UnregisterReceivers | app/src/main/java/com/example/wifitest/WifiDirectHelper.kt:119-127 | the flag ends clear even when the platform call throws; the platform is asked only when the flag was set |
| WifiDirect.WifiDirectHelper.SetOnPeersChanged | app/src/main/java/com/example/wifitest/WifiDirectHelper.kt:130-132 | a peers subscriber is set; nothing else changes |
| WifiDirect.WifiDirectHelper.OnPeersAvailable | app/src/main/java/com/example/wifitest/WifiDirectHelper.kt:84-91 | the stored list becomes exactly the new device list, with no merge; a subscriber receives a copy of it |
| WifiDirect.WifiDirectHelper.CheckAndProceed | app/src/main/java/com/example/wifitest/WifiDirectHelper.kt:205-235 | appends exactly the effects CheckEffects specifies, in order; no other field changes |
| WifiDirect.WifiDirectHelper.PrepareAndThen | app/src/main/java/com/example/wifitest/WifiDirectHelper.kt:195-201 | registers receivers if needed, sets the ready callback, then runs the gate with it set |
| WifiDirect.WifiDirectHelper.OnPermissionResult | app/src/main/java/com/example/wifitest/WifiDirectHelper.kt:53-60 | a toast appears iff some permission was refused; the gate re-runs in every case |
| WifiDirect.WifiDirectHelper.ConnectToDevice | app/src/main/java/com/example/wifitest/WifiDirectHelper.kt:302-320 | exactly one connect call, to the device's address |
| WifiDirect.WifiDirectHelper.CreateGroupWithRetries | app/src/main/java/com/example/wifitest/WifiDirectHelper.kt:244-282 | appends the remove-then-create calls of GroupCalls; nothing else changes |
| WifiDirect.WifiDirectHelper.Cleanup | app/src/main/java/com/example/wifitest/WifiDirectHelper.kt:325-335 | the receivers end unregistered (asked of the platform only when registered) and one removeGroup call is made, even when a platform call throws; peers and subscriptions are unchanged |
| KotlinInt.OrNegative | app/src/main/java/com/example/wifitest/MetadataHelper.kt:43-44 | `or` with a negative operand is negative (the sign bit survives) |
| KotlinInt.OrDisjoint | app/src/main/java/com/example/wifitest/MetadataHelper.kt:43-44 | `or` of non-negative values with disjoint bit ranges is their sum |
| KotlinInt.ShlMinusOne | app/src/main/java/com/example/wifitest/MetadataHelper.kt:43-44 | an end-of-stream -1 shifted left by 8, 16 or 24 stays negative |
| KotlinInt.ShlHighByte | app/src/main/java/com/example/wifitest/MetadataHelper.kt:43 | a first byte of 128 or more shifted left by 24 sets the sign bit |
| Streams.ByteOutput.Write | app/src/main/java/com/example/wifitest/MetadataHelper.kt:22-25 | `write(int)` puts only the low 8 bits of its argument on the wire |
| Streams.Delivered | app/src/main/java/com/example/wifitest/MetadataHelper.kt:46 | one bulk read delivers 0 bytes into an empty buffer and -1 at end of stream; otherwise between one byte and the least of buffer size and bytes left; the whole buffer when the transport has it ready |
| Streams.ByteInput.ReadInto | app/src/main/java/com/example/wifitest/MetadataHelper.kt:46 | one bulk read fills exactly the delivered slots with the next stream bytes, leaves every other slot as it was, and advances the position by the count |
| MetadataHelper.LengthPrefixIsBigEndian | app/src/main/java/com/example/wifitest/MetadataHelper.kt:22-25 | the four low-8-bit writes of `size shr 24/16/8/0` are the 4-byte big-endian form of size, with a top byte below 128 |
| MetadataHelper.FrameLayout | app/src/main/java/com/example/wifitest/MetadataHelper.kt:19-35 | a frame is 4 + name + 4 + image bytes long, in the order name length, name, image length, image |
| MetadataHelper.WriteLength | app/src/main/java/com/example/wifitest/MetadataHelper.kt:22-25 | four single-byte writes append exactly the length prefix |
| MetadataHelper.WriteFrame | app/src/main/java/com/example/wifitest/MetadataHelper.kt:21-35 | the output gains exactly the frame, after what it already held |
| MetadataHelper.SendProfileInfo | app/src/main/java/com/example/wifitest/MetadataHelper.kt:9-37 | writes nothing when the writer or the socket is absent; otherwise the socket's output gains the frame of the name's UTF-8 bytes and the image |
| Utf8.EncodedLength | app/src/main/java/com/example/wifitest/MetadataHelper.kt:19-22 | the name length counts UTF-8 bytes: between 1 and 4 per character, and equal to the character count iff the name is ASCII |
| MetadataHelper.EAcuteIsTwoBytes | app/src/main/java/com/example/wifitest/MetadataHelper.kt:19 | the one-character name "é" is the two bytes C3 A9 |
| MetadataHelper.LengthOfBytes | app/src/main/java/com/example/wifitest/MetadataHelper.kt:43-44 | the shift-and-or reassembly of four bytes, the first below 128, is their big-endian value |
| MetadataHelper.LengthNegative | app/src/main/java/com/example/wifitest/MetadataHelper.kt:43-45 | both directions: a reassembled length is negative iff one of the four reads hits end of stream or the first byte is 128 or more, which is when `ByteArray(len)` throws |
| MetadataHelper.PrefixReadsBack | app/src/main/java/com/example/wifitest/MetadataHelper.kt:43-44 | reading a length prefix back gives its length and consumes four bytes |
| MetadataHelper.LengthRoundTrip | app/src/main/java/com/example/wifitest/MetadataHelper.kt:22-25 | every length in 0..2^31-1, encoded then reassembled, comes back unchanged |
| MetadataHelper.ReadLength | app/src/main/java/com/example/wifitest/MetadataHelper.kt:43-44 | four `read()` calls return the reassembled length at the stream position and advance past four bytes (or to the end) |
| MetadataHelper.ReadBody | app/src/main/java/com/example/wifitest/MetadataHelper.kt:45-46 | a fresh zeroed array and one bulk read leave the body and the position that BodyAt gives |
| MetadataHelper.ReceiveProfileInfo | app/src/main/java/com/example/wifitest/MetadataHelper.kt:39-56 | null without a socket; otherwise the result and the stream position are those of the as-written decoding DecodeAt |
| MetadataHelper.WholeBody | app/src/main/java/com/example/wifitest/MetadataHelper.kt:45-46 | a bulk read whose transport has the whole body ready returns exactly that body |
| MetadataHelper.RoundTrip | app/src/main/java/com/example/wifitest/MetadataHelper.kt:9-54 | when each bulk read is handed the whole body, decoding an encoded frame, whatever follows it, returns the same name and image bytes and stops right after the frame |
| MetadataHelper.ShortNameRead | app/src/main/java/com/example/wifitest/MetadataHelper.kt:45-52 | when the name's read delivers only part of it, the rest of the name stays zero and the image length is taken from the name's own bytes |
| MetadataHelper.ShortReadAt | app/src/main/java/com/example/wifitest/MetadataHelper.kt:45-52 | the same short-read outcome at any stream position holding a valid name header |
| MetadataHelper.SplitNameThrows | app/src/main/java/com/example/wifitest/MetadataHelper.kt:45-52 | the "é" frame decodes when its name arrives whole, and throws NegativeArraySize when it arrives one byte at a time |
| MetadataHelper.TruncatedNameThrows | app/src/main/java/com/example/wifitest/MetadataHelper.kt:43-52 | a stream that ends inside the name makes the image length read hit end of stream, so the decoder throws rather than returning a partial name |
| MetadataHelper.ReadFully | app/src/main/java/com/example/wifitest/MetadataHelper.kt:46 | repeated reads fill the whole buffer with the next stream bytes iff the stream holds that many; otherwise they stop at the end of the stream |
| MetadataHelper.ReadBodyFully | app/src/main/java/com/example/wifitest/MetadataHelper.kt:45-46 | the body is complete iff the stream holds len more bytes, and is then exactly those bytes |
| MetadataHelper.ReceiveProfileInfoFully | app/src/main/java/com/example/wifitest/MetadataHelper.kt:39-56 | null without a socket; otherwise the result and the stream position are those of the corrected decoding DecodeFullyAt |
| MetadataHelper.ReceiveImageFully | app/src/main/java/com/example/wifitest/MetadataHelper.kt:50-53 | the image half of the corrected decoding, after a complete name |
| MetadataHelper.FullyRoundTrip | app/src/main/java/com/example/wifitest/MetadataHelper.kt:9-54 | the corrected decoder returns the encoded name and image bytes however the transport splits the frame, and stops right after it |
| MetadataHelper.FullyReportsTruncation | app/src/main/java/com/example/wifitest/MetadataHelper.kt:45-46 | the corrected decoder reports a stream that ends inside the name as Truncated |
| SocketHolderModule.SocketHolder.Clear | app/src/main/java/com/example/wifitest/SocketHolder.kt:14-21 | all four handles end null; the socket and server socket are each closed once, and a close that throws is swallowed; the reader and writer are not touched; on an empty holder nothing changes (idempotent) |
| Wrappers.Option.GetOr | app/src/main/java/com/example/wifitest/HostActivity.kt:101 | Kotlin's `?:`: the value when present, the default otherwise |
| Handshake.PeerName | app/src/main/java/com/example/wifitest/HostActivity.kt:109 | no name iff the read throws; a read line is the peer's name; end of stream gives the default |
| Handshake.SendLine | app/src/main/java/com/example/wifitest/HostActivity.kt:102-106 | a working writer puts the text, ended as one line, on the wire after what was already buffered; a broken one puts nothing on the wire |
| Handshake.ReadPeerName | app/src/main/java/com/example/wifitest/HostActivity.kt:109 | the result is PeerName of the next line; the reader advances only past a line it returned |
| Handshake.MutualHandshake | app/src/main/java/com/example/wifitest/ClientActivity.kt:108-116 | with both sides writing their name first and then reading, the host learns exactly the client's name and the client the host's |
| Handshake.GoToChat | app/src/main/java/com/example/wifitest/HostActivity.kt:116-126 | the chat opens iff socket, reader and writer are all held, and then it shows the peer's name |
| Host.StartsServer | app/src/main/java/com/example/wifitest/HostActivity.kt:50-56 | the server starts iff the group is formed and this device owns it |
| Host.FailuresBefore | app/src/main/java/com/example/wifitest/HostActivity.kt:62-75 | counts the failed attempts before the first success: all of those fail, and the next one, if any, is the success |
| Host.AttemptCount | app/src/main/java/com/example/wifitest/HostActivity.kt:62-75 | no more attempts than the platform answers |
| Host.NoAttemptCap | app/src/main/java/com/example/wifitest/HostActivity.kt:67-72 | for every n, n failures followed by a success take n + 1 attempts: the retry has no cap |
| Host.HostActivity.constructor | app/src/main/java/com/example/wifitest/HostActivity.kt:31-59 | a fresh helper, built for the SDK level, with its receivers registered |
| Host.HostActivity.CreateGroup | app/src/main/java/com/example/wifitest/HostActivity.kt:62-75 | attempts continue up to and including the first success; each attempt makes the remove-then-create calls and shows its status; each failure adds one 1200 ms delay |
| Host.HostActivity.Attempt | app/src/main/java/com/example/wifitest/HostActivity.kt:63-72 | one remove-then-create run and its status; a delay only after a failure |
| Host.HostActivity.OnConnectionInfo | app/src/main/java/com/example/wifitest/HostActivity.kt:50-56 | for a formed group this device owns: the server-start status, then every effect of waitForClient (old sockets closed, a new server on 8988, the client's handles held, the host's name sent, the client's name read, one error status on failure); for any other group the activity, the holder, the sockets and the client's streams are unchanged |
| Host.HostActivity.CloseHeld | app/src/main/java/com/example/wifitest/HostActivity.kt:83-84 | each held socket and server socket is closed once |
| Host.HostActivity.WaitForClient | app/src/main/java/com/example/wifitest/HostActivity.kt:79-138 | closes old sockets first; a new server on port 8988 replaces the held one; the status names 8080; an accepted client's handles are held; the host's name (default "Host") goes out before the client's line (default "Client") is read: the client's reader advances by one line only after a successful send and only when a line is there, and is untouched when the bind fails; the reader stays valid for the chat loop; any failure adds one error status, with no retry; the retry delays are unchanged |
| Client.DialTarget | app/src/main/java/com/example/wifitest/ClientActivity.kt:80-88 | the client dials iff the group is formed, this device is not the owner and an owner address is present; it dials that address |
| Client.RolesExclusive | app/src/main/java/com/example/wifitest/ClientActivity.kt:80-83 | one connection-info event never makes a device both listen and dial |
| Client.PeersStatus | app/src/main/java/com/example/wifitest/ClientActivity.kt:60 | "No devices found" iff the list is empty, "Select a device" otherwise |
| Client.ClientActivity.constructor | app/src/main/java/com/example/wifitest/ClientActivity.kt:33-91 | a fresh helper with the peers subscriber set and receivers registered |
| Client.ClientActivity.OnPeersChanged | app/src/main/java/com/example/wifitest/ClientActivity.kt:51-62 | the device list becomes exactly the new list, and the status follows PeersStatus |
| Client.ClientActivity.OnItemClick | app/src/main/java/com/example/wifitest/ClientActivity.kt:64-67 | tapping position pos connects to that device of the most recent list |
| Client.ClientActivity.OnConnectResult | app/src/main/java/com/example/wifitest/ClientActivity.kt:67-76 | a failed request shows "failed to initiate"; a successful one shows "waiting for connection info" |
| Client.ClientActivity.OnConnectionInfo | app/src/main/java/com/example/wifitest/ClientActivity.kt:80-88 | a dial happens iff DialTarget gives an address; then the connecting status names the owner's address and every effect of connectToSocket follows (settle delay, one dial, handles held, name sent, host's name read, one error status on failure); otherwise the activity, the holder and the socket's streams are unchanged |
| Client.ClientActivity.ConnectToSocket | app/src/main/java/com/example/wifitest/ClientActivity.kt:93-144 | one 500 ms settle delay and exactly one dial to port 8988 with a 5000 ms timeout; the new handles are held, the old socket is not closed; the client's name (default "Client") goes out before the host's line (default "Host") is read: the host's reader advances by one line only after a successful send and only when a line is there, and stays valid for the chat loop; a failure adds one error status |
| Chat.HolderFor | app/src/main/java/com/example/wifitest/ChatAdapter.kt:31-39 | the sent-message layout iff the view type is 0 |
| Chat.Received | app/src/main/java/com/example/wifitest/ChatActivity.kt:72-75 | one received message per line, with that line's text, in order |
| Chat.ReceivedAppends | app/src/main/java/com/example/wifitest/ChatActivity.kt:71-78 | lines read in two stretches give the messages of the first stretch followed by those of the second |
| Chat.ChatAdapter.ItemCount | app/src/main/java/com/example/wifitest/ChatAdapter.kt:50 | the item count is the number of messages |
| Chat.ChatAdapter.ItemViewType | app/src/main/java/com/example/wifitest/ChatAdapter.kt:27-29 | view type 0 iff the message was sent by this side, 1 iff received |
| Chat.ChatAdapter.BoundText | app/src/main/java/com/example/wifitest/ChatAdapter.kt:41-48 | both holders show the message's own text |
| Chat.ChatAdapter.AddMessage | app/src/main/java/com/example/wifitest/ChatAdapter.kt:52-55 | the message is appended at the end, earlier ones are unchanged, the count grows by one, and the insertion is announced at index size - 1 |
| Chat.BindShowsMessage | app/src/main/java/com/example/wifitest/ChatAdapter.kt:27-48 | view type, holder and binding together show each message's text in the layout of its side |
| ChatScreen.ChatActivity.constructor | app/src/main/java/com/example/wifitest/ChatActivity.kt:42-49 | the friend name is the intent extra, or "Demo"; the log starts empty |
| ChatScreen.ChatActivity.OnSendClicked | app/src/main/java/com/example/wifitest/ChatActivity.kt:55-63 | empty input is neither sent nor logged nor notified; other input is logged as sent, with one insertion notified at its position, whatever became of the write |
| ChatScreen.ChatActivity.SendMessage | app/src/main/java/com/example/wifitest/ChatActivity.kt:85-96 | nothing without a writer; the wire form is the text, a line end and a flush; a failed write is swallowed |
| ChatScreen.ChatActivity.StartListeningForMessages | app/src/main/java/com/example/wifitest/ChatActivity.kt:66-83 | no listening and no change to the log without a reader; otherwise the read job starts and the outcome is that of ReadMessages; the friend name is unchanged |
| ChatScreen.ReadMessages | app/src/main/java/com/example/wifitest/ChatActivity.kt:69-82 | the lines read are appended as received messages in order, each insertion notified at its position; end of stream or an error stops the loop and earlier messages are kept; the count is the lesser of the active rounds and the lines available |
| MainScreen.LeadingWhitespace | app/src/main/java/com/example/wifitest/MainActivity.kt:90 | the leading run of whitespace: all whitespace, and followed by a non-whitespace character or the end |
| MainScreen.TrimEnd | app/src/main/java/com/example/wifitest/MainActivity.kt:90 | a prefix of the input that ends in a non-whitespace character, followed in the input only by whitespace |
| MainScreen.Trim | app/src/main/java/com/example/wifitest/MainActivity.kt:90 | the result has no whitespace at either end and is the input minus a leading and a trailing run of whitespace |
| MainScreen.TrimOfTrimmed | app/src/main/java/com/example/wifitest/MainActivity.kt:90 | trimming a string without whitespace at its ends gives it back |
| MainScreen.TrimIdempotent | app/src/main/java/com/example/wifitest/MainActivity.kt:90 | trimming twice is trimming once |
| MainScreen.NormalizeName | app/src/main/java/com/example/wifitest/MainActivity.kt:90 | a confirmed name is never empty and has no whitespace at its ends: the trimmed input, or "User" when trimming leaves nothing |
| MainScreen.Greeting | app/src/main/java/com/example/wifitest/MainActivity.kt:95 | the greeting starts with "Hello, ", ends with "!", and what lies between them is exactly the name |
| MainScreen.RemovePrefix | app/src/main/java/com/example/wifitest/MainActivity.kt:114 | a present prefix is removed, so the prefix plus the result is the input; otherwise the input is unchanged |
| MainScreen.ModeUserName | app/src/main/java/com/example/wifitest/MainActivity.kt:113-123 | the "Enter your name" toast appears iff the extracted name is empty; otherwise the extracted name is passed on |
| MainScreen.ExtractFromGreeting | app/src/main/java/com/example/wifitest/MainActivity.kt:114 | extracting from the greeting of a name that does not start with whitespace gives the name followed by "!" |
| MainScreen.ConfirmedNameTravelsWithBang | app/src/main/java/com/example/wifitest/MainActivity.kt:89-126 | every confirmed name reaches the host and client screens as that name plus "!", never empty |
| MainScreen.ShouldPromptForName | app/src/main/java/com/example/wifitest/MainActivity.kt:73-77 | the prompt is shown iff the saved name is missing or empty |
| MainScreen.TapStep | app/src/main/java/com/example/wifitest/MainActivity.kt:107-112 | a tap adds one to the count; the button is visible afterwards iff it was already visible or the count reached 10 |
| MainScreen.RevealAtTenthTap | app/src/main/java/com/example/wifitest/MainActivity.kt:107-112 | from a fresh screen, after k taps the count is k and the button is visible iff k is at least 10 |
| MainScreen.RevealIsPermanent | app/src/main/java/com/example/wifitest/MainActivity.kt:109-111 | no number of further taps hides a visible button |
| MainScreen.MainActivity.constructor | app/src/main/java/com/example/wifitest/MainActivity.kt:69-81 | the prompt appears iff no name is saved; otherwise the greeting of the saved name shows; the test-chat button starts hidden |
| MainScreen.MainActivity.ConfirmName | app/src/main/java/com/example/wifitest/MainActivity.kt:89-96 | the stored name is NormalizeName of the input, and the greeting shows it |
| MainScreen.MainActivity.TapGreeting | app/src/main/java/com/example/wifitest/MainActivity.kt:107-112 | one tap is one TapStep of the count and the visibility |

## Left out

- Android framework calls (WifiP2pManager, BroadcastReceiver, intents, settings screens, Toasts, AlertDialogs, RecyclerView inflation and scrolling) are not made. Their answers are inputs, and the requests are recorded as effects, P2P calls or statuses.
- Coroutines, dispatchers, the peers mutex and job cancellation are not modelled. Delays are recorded as numbers, the mutex-guarded peer update is one atomic step, and the chat read loop's `isActive` is a bound on the number of rounds.
- Socket I/O is replaced by the `Streams` classes. A connection's line view and its byte view are independent, so mixing line reads and raw byte reads on one socket is not captured.
- `BufferedReader.readLine` line splitting is not modelled: incoming text is already a sequence of lines. A name or message containing a line terminator therefore arrives in one piece in the model.
- JPEG compression and `BitmapFactory` decoding are not modelled: the image is its byte sequence. Decoding the name bytes back into a `String` is not modelled either: the decoder returns the name bytes.
- An `OutOfMemoryError` for a huge announced length is not modelled: allocation always succeeds.
- The reflective hotspot query is the input `hotspotOn`, which is false when that query fails.
- SharedPreferences storage is a field, `savedName`. The profile image picker and `UserProfile` are not modelled.
- The layout's default greeting text is a constructor parameter.
- Status and error message texts are enumerations. The exception messages themselves are not carried.
- `setConnectionInfoCallback` and the connection-changed branch of the receiver are not modelled: connection info arrives directly as the `OnConnectionInfo` call. The state-changed log line is not modelled either.
- `discoverPeers` is not modelled: it starts a scan whose outcome is only logged, and its peers arrive through `OnPeersAvailable`.
- The activities' `onDestroy` is not modelled as a method of its own: it cancels the activity's coroutine scope, which has no model, and calls the helper's `cleanup()`, which is `Cleanup`. The `scope.cancel()` inside `cleanup()` is not modelled either.
- The start button (HostActivity.kt:40-47) and the scan button (ClientActivity.kt:43-49) handlers are not modelled as methods: each shows a "preparing" status, runs `PrepareAndThen`, and on readiness shows a second status and calls `CreateGroup` (host) or `discoverPeers` (client). Those four status texts are therefore not among the modelled statuses.
- MetadataHelper.SendProfileInfo: the byte output never fails. An `IOException` from `write` or `flush` in the middle of a frame, which would leave a partial frame on the wire, is not modelled.
- MetadataHelper.ReceiveProfileInfo: the byte input never fails. An `IOException` from `read`, which would abort the decoding, is not modelled; only the end of the stream is.
- TestChatActivity.kt is not part of this model. It is a demo screen whose echo timer sits on the same `AddMessage`.
- MainScreen.MainActivity.TapGreeting: the model does not capture 32-bit wrap-around of `tapCount`, because it would take 2^31 taps.
- MetadataHelper.ShortNameRead: stated only for the case where the decoding succeeds. The negative-length outcome of a split name is shown on the concrete frame of SplitNameThrows.
- MetadataHelper.DecodeFullyAt: the model does not prove that, when every read is handed its whole body, the corrected decoder agrees with the as-written one. Both decoders are proved to round-trip an encoded frame (`RoundTrip` and `FullyRoundTrip`).

## Findings

| source | as written | input that shows it | evidently intended | confidence | as-written member | corrected member |
|---|---|---|---|---|---|---|
| app/src/main/java/com/example/wifitest/MetadataHelper.kt:45-46 | each body is filled by one `input.read(buf)` call, with its return value ignored, so a partial read leaves zeros in the body, and the next length header is taken from the middle of the body | the frame for the name "é" (`00 00 00 02 C3 A9 00 00 00 00`), whose name read delivers one byte: the image length becomes `A9 00 00 00`, which is negative, and `ByteArray(imgLen)` throws | read each body in full, looping until it is complete, and report a stream that ends inside a body as truncated | not executed | MetadataHelper.SplitNameThrows | MetadataHelper.FullyRoundTrip |
