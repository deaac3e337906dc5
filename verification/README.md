# usbfluxd multiplexer: a verified model

usbfluxd sits on the usbmuxd socket and merges the devices of the local usbmuxd and of any number
of remote ones. This project models the daemon's multiplexer and proves what its two halves, the
clients (`usbfluxd/client.c`) and the upstreams (`usbfluxd/usbmux_remote.c`), keep true together
under every run of the poll loop (`usbfluxd/main.c`).

The development has two layers.

* **What is computed, and what holds of it.** `Wire`, `DeviceTable`, `Protocol`, `Connections` and
  `Multiplexer` describe packets, the device table, the two connection records and every handler as
  functions on a `State`. `Invariant` states what every state satisfies; `Steps`, `Upkeep`,
  `Teardown`, `Reaping`, `Commands`, `ClientEvents` and `RemoteEvents` prove it handler by handler,
  and `EventLoop` over every run. `Reading` says how the other end of a socket reads each packet, byte by
  byte and item by item, with the protocol's numbers written out; `Answers`, `Services` and `Progress` say in
  those terms what every command is answered, what is sent upstream for it, and what every event moves.
  `Theorems` reads off the results that hold in every reachable state; `Announcements` traces the device
  table, over every run, back to what each upstream has said. `Limits` says exactly when the code does
  without the rules the environment is asked to keep, and that the rule for clients is exact. `Rounds`
  builds runs, `Session` one that connects a client and one that loses a byte, and `Failures` those in
  which a rule is not kept, or the code goes wrong with all rules kept.
* **The code's own form.** `IdMap.Allocator` (the bit map), `Collections.Collection` (the slot
  array and `FOREACH`), `Buffers.Buffer` (the byte buffers), `Endpoints.MuxClient` and
  `Endpoints.RemoteMux` (the two C structures), `Daemons.Daemon` (the globals, the lists, all
  handlers with their loops, over two such slot arrays) and `MainLoop` (the poll list and one iteration
  of the loop) edit their fields and arrays in place. Every method is proved to do exactly what the
  function does.

How the pieces of C appear:

* A pointer to a connection is the number of its slot. `fds` records the owner of every descriptor
  ever opened. `fault` is set, for good, by a handler that would touch freed memory, follow a null
  or dangling pointer, or close a descriptor twice; `Theorems.NoFault` shows it never is. The one access
  to freed memory that is not part of a handler here, after a failed send on a connected upstream,
  is `Limits.FailedRelaySend`, with the exact condition under which it happens.
* The records carry histories: all bytes read and written on each socket, the packets queued and
  dispatched, the raw bytes relayed, the notifications sent to a listener.
* The table is what the listening upstreams have announced, each under its own ids. A step that takes
  entries from a listener other than by its own packets, its death or its end *robs* it;
  `Announcements.Robs` says which steps do, and `Announcements.RobsExactly` that no others do.
* A property list is a record of the items the daemon looks at and all others; `Codec`, the printer
  and parser, is a parameter assumed lossless (`Protocol.Lossless`).

The environment chooses what poll reports, how many bytes every `recv` and `send` moves or whether it
fails, whether a connection can be opened, and when services appear and vanish. It is held to
`EventLoop.Allowed`:

* poll reports input or output only where it was asked for, and new descriptors are fresh (a
  descriptor is not handed out again later);
* a client has at most one request passed on per connection (Connect, ReadBUID or a pair-record request),
  does not take away its own upstream, and names a record in pair-record requests where the name is looked
  at (`Commands.CommandRule`; `Limits.CommandRuleExact` shows that no weaker rule will do);
* an upstream's announced devices carry a DeviceID and come as property lists, and Listen is answered
  only when all of it has been sent (`RemoteEvents.AnswerRule`).

Clients need not stay silent between Connect and its Result. What has been read from a client after its
Connect when the answer comes is discarded, no more and no less (`Theorems.HandoffDrops`); what it has
sent but the daemon has not yet read is tunnelled.

## Model

| member | source | states |
|---|---|---|
| Wire.FrameUnframe | usbfluxd/usbmuxd-proto.h:60-65 | a buffer whose header announces its own length is the encoding of the packet read from it |
| Wire.UnframeFrame | usbfluxd/usbmuxd-proto.h:60-65 | encoding then decoding a packet gives it back, and the length field is found whatever follows |
| Wire.ParseFrames | usbfluxd/usbmux_remote.c:1310-1362 | parsing the encodings of packets followed by a rest gives those packets and then the parse of the rest |
| Wire.ReceiveStaysInPacket | usbfluxd/usbmux_remote.c:1310-1358 | one call of the receive routine never reads past the packet under assembly or the buffer, and reports a bad length exactly where the reference parse stops |
| Wire.Reassembly | usbfluxd/usbmux_remote.c:1310-1362 | for every fragmentation, the packets dispatched are exactly the length-prefixed parse of the bytes read, up to the first bad length, and the buffer never overflows |
| DeviceTable.PutMembers | usbfluxd/usbmux_remote.c:1250-1256 | setting an item keeps keys distinct and changes exactly the entry of that key |
| DeviceTable.DelMembers | usbfluxd/usbmux_remote.c:1257-1261 | removing an item keeps keys distinct and removes exactly the entry of that key |
| DeviceTable.ReplaySnapshot | usbfluxd/client.c:565-582 | replaying the snapshot sent to a late joiner gives the table, order included |
| DeviceTable.DelOwned | usbfluxd/usbmux_remote.c:973-990 | withdrawing the keys of one upstream one at a time leaves exactly the entries of the others |
| DeviceTable.MineApply | usbfluxd/usbmux_remote.c:1246-1261 | the entries of one owner change as the table does, order included, under a change of that owner's own keys or a removal |
| DeviceTable.MineUntouched | usbfluxd/usbmux_remote.c:1246-1261 | a change under another owner's keys leaves them, and their order, as they are |
| DeviceTable.MineOthers | usbfluxd/usbmux_remote.c:973-990 | withdrawing one owner's entries takes all of them and none of another's |
| DeviceTable.ProjectReplay | usbfluxd/client.c:496-563 | a listener that sees each device in its own protocol's form rebuilds the table in that form |
| DeviceKey.RoundTrip | usbfluxd/usbmux_remote.c:1236-1237 | for every 32-bit id, reading the `0x%08x` key back in base 16 into a 64-bit long returns the id |
| DeviceKey.NarrowRoundTrip | usbfluxd/usbmux_remote.c:976-977 | with a 32-bit long, reading the key back returns the id if and only if the id is below 2^31 |
| DeviceKey.Injective | usbfluxd/usbmux_remote.c:1236-1237 | different ids have different keys |
| DeviceKey.RenamedKey | usbfluxd/usbmux_remote.c:1211-1237 | from the key of a renamed id, the high byte gives back the upstream and the low 24 bits the device number |
| IdMap.BitsIndependent | usbfluxd/usbmux_remote.c:68-75 | setting or clearing one bit of a byte changes no other |
| IdMap.MarkedAfter | usbfluxd/usbmux_remote.c:68-75 | in the map of 32 bytes, setting or clearing the bit of an id leaves the bit of every other id |
| IdMap.Allocator.constructor | usbfluxd/usbmux_remote.c:876-884 | the map starts with no id used |
| IdMap.Allocator.SetUsed | usbfluxd/usbmux_remote.c:68-75 | membership of one id changes, and of no other |
| IdMap.Allocator.NewId | usbfluxd/usbmux_remote.c:77-88 | the least free id in 1..255, or 0 if and only if all 255 are taken |
| Collections.AddRefines | usbfluxd/utils.c:95-108 | adding adds one occurrence to the multiset of elements and moves nothing, through any growth |
| Collections.RemoveRefines | usbfluxd/utils.c:110-121 | removing takes one occurrence of a member, nothing of a stranger, and moves nothing |
| Collections.RemoveAt | usbfluxd/utils.c:110-121 | with distinct elements, removing the element of a slot empties that slot |
| Collections.Collection.constructor | usbfluxd/utils.c:81-86 | eight empty slots |
| Collections.Collection.Add | usbfluxd/utils.c:95-108 | the array becomes the one with the element in the first empty slot, after growing by eight when full, and that slot is returned |
| Collections.Collection.Remove | usbfluxd/utils.c:110-121 | the first slot holding the element is emptied, all others keep their contents |
| Collections.Collection.Count | usbfluxd/utils.c:123-131 | the size of the multiset of elements |
| Collections.Collection.ForEachDropping | usbfluxd/utils.h:64-73 | a loop whose body removes the current element still visits every initial element exactly once, in order, and the kept ones stay put |
| Protocol.ReadNotePackets | usbfluxd/client.c:496-563 | a client that decodes the packets built for notifications, in either protocol version, gets those notifications, each with its body (`Reading.NoteReads` says what the body tells) |
| Reading.FrameReads | usbfluxd/client.c:297-322 | the bytes written for a packet are read, byte by byte, as its length, version, message number, tag and payload |
| Reading.UnframeReads | usbfluxd/usbmux_remote.c:1330-1359 | what is read from a buffered packet are the words at offsets 4, 8 and 12, low byte first, and the rest |
| Reading.RequestReads | usbfluxd/usbmux_remote.c:195-239 | what upstreams are sent is one property-list packet, version 1, under the given tag, that says the given message |
| Reading.ResultReads | usbfluxd/usbmux_remote.c:1147-1167 | the number of an answer is that of its Result, in 32 bits, whether binary or a property list |
| Reading.NoResultReads | usbfluxd/usbmux_remote.c:1147-1167 | any other packet counts as the failure 0xbaad |
| Reading.AgreesReads | usbfluxd/usbmux_remote.c:1147-1167 | an answer counts as success if and only if it is a Result whose four bytes, or whose Number in 32 bits, are 0 |
| Reading.ResultPacketReads | usbfluxd/client.c:343-358 | in either version a Result carries its number and tag and nothing else, and is read back as that number |
| Reading.ConnectReads | usbfluxd/client.c:700-735 | a packet is a Connect if and only if it is a property list of that type with device and port, or binary with both at their offsets |
| Reading.BinaryConnectReads | usbfluxd/client.c:891-897 | a binary request encoded from a device and a port is read as that device and that port |
| Reading.RecordReads | usbfluxd/client.c:505-541 | the 268-byte record gives back id, product and location in their widths, and the serial number, cut at 255 and padded with zeros |
| Reading.NoteReads | usbfluxd/client.c:496-563 | a notification tells a listener, in its version, which device comes and all there is to know of it, or which goes |
| Buffers.GrowthExact | usbfluxd/client.c:302-317 | the 32-bit growth formula exceeds old capacity plus request if and only if their sum plus 4096 does not wrap |
| Buffers.Buffer.constructor | usbfluxd/client.c:203-208 | an empty queue of the given capacity |
| Buffers.Buffer.Reserve | usbfluxd/client.c:276-290 | there is room for the request afterwards, and the contents survive reallocation |
| Buffers.Buffer.Copy | usbfluxd/client.c:318-322 | bytes enter at the end; the class invariant is first in, first out over the whole history |
| Buffers.Buffer.Consume | usbfluxd/client.c:945-948 | the bytes sent leave at the front and the rest moves down unchanged |
| Buffers.Buffer.AnnouncedLength | usbfluxd/usbmux_remote.c:1330-1335 | the length word of the buffered header |
| Buffers.Buffer.ReceivePacket | usbfluxd/usbmux_remote.c:1310-1358 | in place: the outcome is that of the receive routine, and the buffer grows by exactly what was read |
| Endpoints.MuxClient.constructor | usbfluxd/client.c:199-211 | a new client as accepted |
| Endpoints.MuxClient.OrEvents | usbfluxd/client.c:165-175 | the masks change only while the connection is being or is handed over |
| Endpoints.MuxClient.SendPktRaw | usbfluxd/client.c:272-294 | the bytes are appended, the capacity grown, output armed |
| Endpoints.MuxClient.SendPkt | usbfluxd/client.c:297-326 | header and payload copied one after the other are the framed packet |
| Endpoints.MuxClient.SendResult | usbfluxd/client.c:343-358 | the answer in the client's protocol version |
| Endpoints.MuxClient.SendPacketData | usbfluxd/client.c:596-603 | an upstream's packet is passed on unchanged |
| Endpoints.MuxClient.Notify | usbfluxd/client.c:496-563 | the packet for a device that comes or goes |
| Endpoints.MuxClient.NotifyConnect | usbfluxd/client.c:375-396 | on success the input buffer is freed and only output is polled for; otherwise the client is back in the command state |
| Endpoints.MuxClient.AwaitSent | usbfluxd/client.c:386-391 | only output is polled for, the input buffer is freed, and what it held is recorded as dropped |
| Endpoints.MuxClient.ProcessSend | usbfluxd/client.c:918-949 | what was accepted leaves the buffer; the last byte of the Result switches to raw mode, frees the buffer and restores the saved mask; the upstream named in the log must be there |
| Endpoints.MuxClient.Empty | usbfluxd/client.c:933-944 | the switch itself |
| Endpoints.MuxClient.ProcessRecv | usbfluxd/client.c:951-997 | one step of packet assembly on the client's buffer |
| Endpoints.MuxClient.TakeUp | usbfluxd/client.c:1027-1034 | bytes read from the client enter the upstream's output buffer, and the masks of both ends turn |
| Endpoints.MuxClient.GiveDown | usbfluxd/client.c:1045-1057 | bytes written to the client leave the upstream's input buffer, and the mask turns when it is empty |
| Endpoints.MuxClient.RelayIn | usbfluxd/client.c:1021-1040 | nothing happens when the upstream's buffer is full; end of file or an error asks for the client to be closed |
| Endpoints.MuxClient.RelayOut | usbfluxd/client.c:1041-1059 | the same in the other direction, for any partial write |
| Endpoints.RemoteMux.constructor | usbfluxd/usbmux_remote.c:128-142 | a new upstream connection with nothing queued |
| Endpoints.RemoteMux.SendPkt | usbfluxd/usbmux_remote.c:195-224 | a packet is queued whole behind whatever is queued already |
| Endpoints.FirstFrame | usbfluxd/usbmux_remote.c:115-224 | a new connection with its first packet queued is the new upstream of the handlers |
| Endpoints.RemoteMux.Take | usbfluxd/client.c:1029-1033 | bytes from the client enter the output buffer, and output is armed |
| Endpoints.RemoteMux.Give | usbfluxd/client.c:1050-1057 | bytes for the client leave the input buffer |
| Endpoints.RemoteMux.ProcessSend | usbfluxd/usbmux_remote.c:1277-1308 | what was accepted leaves the buffer, and output is disarmed when it is empty |
| Endpoints.RemoteMux.ProcessRecv | usbfluxd/usbmux_remote.c:1310-1358 | one step of packet assembly on the upstream's buffer |
| Endpoints.RemoteMux.Dispatched | usbfluxd/usbmux_remote.c:1359-1362 | the packet is dropped from the buffer and the pending command forgotten |
| Endpoints.RemoteMux.Answered | usbfluxd/usbmux_remote.c:1262-1271 | the answer to Connect moves both ends of the pair in one step |
| Endpoints.RemoteMux.ReadRaw | usbfluxd/usbmux_remote.c:1411-1421 | raw bytes enter the input buffer and the client is armed for output |
| Endpoints.RemoteMux.RelayIn | usbfluxd/usbmux_remote.c:1390-1421 | a full buffer, an error, end of file and data are told apart |
| Endpoints.RemoteMux.RelayOut | usbfluxd/usbmux_remote.c:1422-1430 | the output buffer is drained and the client is armed for input |
| Daemons.Daemon.constructor | usbfluxd/usbmux_remote.c:876-884 | empty lists, an empty table, and no id in use |
| Daemons.Daemon.Init | usbfluxd/usbmux_remote.c:886-898 | the start state: the local upstream listening under id 0 when its socket is there |
| Daemons.Daemon.InsertClient | usbfluxd/client.c:212-216 | the slot array takes the new client, whose slot is its address |
| Daemons.Daemon.ClearClient | usbfluxd/client.c:257-259 | the search for the client in the list empties its own slot |
| Daemons.Daemon.InsertRemote | usbfluxd/usbmux_remote.c:274-279 | the same for a new upstream |
| Daemons.Daemon.ClearRemote | usbfluxd/usbmux_remote.c:990-992 | the same for an upstream |
| Daemons.Daemon.InsertListener | usbfluxd/usbmux_remote.c:527-530 | and for one that listens, whose id is marked used |
| Daemons.Daemon.Duplicate | usbfluxd/usbmux_remote.c:501-506 | the search finds an upstream with the same name or address exactly when there is one |
| Daemons.Daemon.Announce | usbfluxd/client.c:1070-1090 | the loop over all clients queues the notification to exactly the listening ones, and the table changes as announced |
| Daemons.Daemon.WithdrawOwned | usbfluxd/usbmux_remote.c:973-988 | the walk over the table it is editing withdraws every device of that id, one notification each |
| Daemons.Daemon.RemoteClose | usbfluxd/usbmux_remote.c:939-958 | the descriptor is closed and the slot emptied |
| Daemons.Daemon.ClientClose | usbfluxd/client.c:236-261 | the client's upstream goes with it, its pointer cleared first |
| Daemons.Daemon.UpstreamClose | usbfluxd/usbmux_remote.c:960-971 | through the client if there is one, directly otherwise |
| Daemons.Daemon.CloseOwner | usbfluxd/usbmux_remote.c:991-999 | the client of a disposed upstream is closed, its pointer cleared first |
| Daemons.Daemon.Dispose | usbfluxd/usbmux_remote.c:984-1011 | descriptor, devices, slot, client, id bit, in that order |
| Daemons.Daemon.KillSameId | usbfluxd/usbmux_remote.c:537-545 | the loop marks every upstream with that id and no other |
| Daemons.Daemon.DisposeAll | usbfluxd/usbmux_remote.c:555-561 | the loop disposes of every element of the list it is editing |
| Daemons.Daemon.MarkDead | usbfluxd/usbmux_remote.c:537-562 | its three loops, in place |
| Daemons.Daemon.Reap | usbfluxd/usbmux_remote.c:1368-1381 | the scan that disposes while it iterates, and what it finds |
| Daemons.Daemon.ServiceAdd | usbfluxd/usbmux_remote.c:496-535 | duplicate search, connection, id, list and bit map; -2 for duplicates, -1 when no connection or no id is left |
| Daemons.Daemon.ServiceRemove | usbfluxd/usbmux_remote.c:564-584 | the first match is marked dead, or -1 |
| Daemons.Daemon.Route | usbfluxd/usbmux_remote.c:257-270 | the search for the upstream's address |
| Daemons.Daemon.Connect | usbfluxd/usbmux_remote.c:255-292 | a new upstream for the client with the rewritten request queued, or a refusal |
| Daemons.Daemon.Forward | usbfluxd/usbmux_remote.c:294-344 | a new upstream for the client whose answer will be passed on |
| Daemons.Daemon.IdOfSerial | usbfluxd/usbmux_remote.c:350-363 | the id of the first device with that serial number, or 0 |
| Daemons.Daemon.AnySerial | usbfluxd/usbmux_remote.c:350-363 | whether the walk compares anything at all |
| Daemons.Daemon.PairRecord | usbfluxd/usbmux_remote.c:365-494 | the three pair-record requests, and when a missing record name is compared or copied |
| Daemons.Daemon.SerialsOf | usbfluxd/usbmux_remote.c:1089-1100 | the serial numbers of exactly that id's entries |
| Daemons.Daemon.InstanceReport | usbfluxd/usbmux_remote.c:1102-1129 | one entry per listening upstream, in list order |
| Daemons.Daemon.ListeningSlots | usbfluxd/client.c:419-481 | which clients the listener list is about |
| Daemons.Daemon.StartListen | usbfluxd/client.c:565-582 | the answer to Listen, then the snapshot device by device; returns the number of devices |
| Daemons.Daemon.AddInstance | usbfluxd/client.c:793-838 | the result sent for each outcome of adding an upstream |
| Daemons.Daemon.RemoveInstance | usbfluxd/client.c:838-876 | the result sent for each outcome of removing one |
| Daemons.Daemon.PlistCommand | usbfluxd/client.c:669-886 | every property-list command and its return value |
| Daemons.Daemon.Refuse | usbfluxd/client.c:650-656 | a packet in a state other than the command state is answered, and the client closed |
| Daemons.Daemon.PlistMessage | usbfluxd/client.c:669-692 | the client speaks version 1 from then on; a packet without a message or its type is left in the buffer |
| Daemons.Daemon.ClientCommand | usbfluxd/client.c:645-916 | state and version checks, then the command |
| Daemons.Daemon.ClientRecv | usbfluxd/client.c:951-1002 | assembly, dispatch, and emptying the buffer only when the handler returned 0 |
| Daemons.Daemon.Handle | usbfluxd/client.c:999-1001 | the handler's return value decides whether the packet leaves the buffer |
| Daemons.Daemon.ClientSend | usbfluxd/client.c:918-949 | a failed send closes the client |
| Daemons.Daemon.RelayUp | usbfluxd/client.c:1021-1040 | a full upstream buffer, end of file and data from the client, both records changed in step |
| Daemons.Daemon.RelayDown | usbfluxd/client.c:1041-1059 | a failed, partial or complete write to the client, both records changed in step |
| Daemons.Daemon.RelayClient | usbfluxd/client.c:1021-1060 | both directions of the relay on the client's side |
| Daemons.Daemon.ClientProcess | usbfluxd/client.c:1004-1068 | the client with that descriptor is found and its event handled |
| Daemons.Daemon.HandleResult | usbfluxd/usbmux_remote.c:1169-1275 | what a packet of an upstream does in each of its states |
| Daemons.Daemon.RemoteRecv | usbfluxd/usbmux_remote.c:1310-1362 | assembly and dispatch; failures and bad lengths mark the upstream dead |
| Daemons.Daemon.RemoteSend | usbfluxd/usbmux_remote.c:1277-1308 | a failed send closes the upstream or its pair |
| Daemons.Daemon.RelayRemote | usbfluxd/usbmux_remote.c:1388-1434 | both directions of the relay on the upstream's side |
| Daemons.Daemon.RemoteProcess | usbfluxd/usbmux_remote.c:1364-1445 | reap, find, dispatch |
| MainLoop.FdList.constructor | usbfluxd/utils.c:43-49 | an empty poll list |
| MainLoop.FdList.Add | usbfluxd/utils.c:50-62 | the entry is appended, through any doubling of the two arrays |
| MainLoop.FdList.Reset | usbfluxd/utils.c:74-77 | the list is empty again |
| MainLoop.CollectClients | usbfluxd/client.c:263-270 | one entry per client, with its current mask, in list order |
| MainLoop.CollectRemotes | usbfluxd/usbmux_remote.c:1042-1060 | one entry per upstream, likewise |
| MainLoop.Collect | usbfluxd/main.c:127-133 | the poll list is the snapshot: the accepting socket, all clients, then all upstreams |
| MainLoop.DispatchOne | usbfluxd/main.c:149-165 | an entry goes to the handler of its owner, and a silent one to none |
| MainLoop.Iterate | usbfluxd/main.c:127-168 | one iteration in place is a run of the transition system, so that allowed answers keep the invariant |
| Steps.AppendKeepsFifo | usbfluxd/client.c:272-294 | bytes sent followed by bytes queued are all bytes ever queued, and the size stays within the capacity |
| Steps.QueueNoteOk | usbfluxd/client.c:496-563 | a notification keeps everything that holds of a listening client |
| Steps.PassOnOk | usbfluxd/client.c:596-603 | so does an answer that is passed on |
| Steps.SentOk | usbfluxd/client.c:918-949 | so does a partial or complete send, including the switch to raw mode |
| Steps.RemoteSentOk | usbfluxd/usbmux_remote.c:1277-1308 | the same for an upstream |
| Steps.ClearedOk | usbfluxd/client.c:999-1001 | consuming a whole packet moves its bytes from the buffer to the dispatched packets |
| Steps.ConsumedOk | usbfluxd/usbmux_remote.c:1359-1362 | the same for an upstream, whatever the packet did to it |
| Steps.NotifyOk | usbfluxd/client.c:375-396 | the answer to Connect keeps everything that holds of a client |
| Steps.UpOk | usbfluxd/client.c:1027-1034 | relaying towards the device keeps both ends and the pair |
| Steps.DownOk | usbfluxd/client.c:1041-1057 | relaying towards the client keeps both ends and the pair |
| Steps.RawReadOk | usbfluxd/usbmux_remote.c:1411-1421 | reading raw bytes keeps both ends and the pair |
| Steps.UpSentOk | usbfluxd/usbmux_remote.c:1422-1430 | draining the upstream's buffer keeps both ends and the pair |
| Upkeep.AttachKeeps | usbfluxd/usbmux_remote.c:274-280 | giving a client without an upstream a new one keeps the invariant |
| Upkeep.AddListener | usbfluxd/usbmux_remote.c:518-535 | so does a new listening upstream with a free id, an unused name and an unused address |
| Teardown.AnnounceKeeps | usbfluxd/client.c:1070-1090 | a change of the table announced to all listeners keeps the invariant, the listeners' views included |
| Teardown.WithdrawKeeps | usbfluxd/usbmux_remote.c:973-982 | so does withdrawing any list of devices |
| Teardown.ClientCloseIs | usbfluxd/client.c:236-261 | exactly the client and its upstream are removed and their descriptors closed, and the invariant is kept |
| Teardown.UpstreamCloseIs | usbfluxd/usbmux_remote.c:960-971 | the same from the other side |
| Teardown.DisposeIs | usbfluxd/usbmux_remote.c:984-1011 | exactly the upstream, its client and the devices of its id are removed, and its id is released; the invariant is kept |
| Reaping.KillKeeps | usbfluxd/usbmux_remote.c:537-545 | marking all connections with an id dead keeps the invariant |
| Reaping.DisposeFromIs | usbfluxd/usbmux_remote.c:555-561 | disposing in a loop over the list removes everything from that slot on |
| Reaping.MarkDeadIs | usbfluxd/usbmux_remote.c:537-562 | exactly the same-id upstreams become dead; then either the first live upstream is armed for output or the list is emptied on the spot |
| Reaping.ReapIs | usbfluxd/usbmux_remote.c:1364-1386 | every upstream dead at entry is disposed of exactly once, no other is touched, and the one returned is live and owns the descriptor |
| Commands.Told0Ok | usbfluxd/client.c:565-582 | the snapshot queued to a new listener is that of the whole table |
| Commands.StartListenKeeps | usbfluxd/client.c:694-700 | a client that starts to listen has the current table as its view |
| Commands.RouteIs | usbfluxd/usbmux_remote.c:257-270 | id 0 means the local socket, any other id the address of a listening upstream with that id |
| Commands.ConnectKeeps | usbfluxd/usbmux_remote.c:255-292 | a Connect that is refused, or is the first request to be passed on, keeps the invariant whatever device it names |
| Commands.WaitingOk | usbfluxd/client.c:736-742 | the client that waits remembers as its last consumed packet the Connect that was passed on |
| Commands.ForwardKeeps | usbfluxd/usbmux_remote.c:294-344 | so does a forwarded request that is refused or the first |
| Commands.ServiceAddKeeps | usbfluxd/usbmux_remote.c:496-535 | adding a service keeps listeners distinct in id, name and address, in all its outcomes |
| Commands.ServiceRemoveKeeps | usbfluxd/usbmux_remote.c:564-584 | removing one keeps the invariant |
| Commands.RequesterLeft | usbfluxd/usbmux_remote.c:537-562 | exactly when a client in the command state survives the death of an upstream |
| ClientEvents.RemoveInstanceKeeps | usbfluxd/client.c:838-876 | RemoveInstance is answered, also to a client that has an upstream, unless it takes away the last upstreams and with them that client |
| ClientEvents.BusyIs | usbfluxd/client.c:645-656 | a packet in any other state closes the client, whatever it is |
| ClientEvents.ClientCommandKeeps | usbfluxd/client.c:645-916 | every command keeps the invariant, its packet consumed or not as the return value says |
| ClientEvents.ClientRecvKeeps | usbfluxd/client.c:951-1002 | every input event of a client keeps the invariant |
| ClientEvents.ClientSendKeeps | usbfluxd/client.c:918-949 | every output event does |
| ClientEvents.RelayClientKeeps | usbfluxd/client.c:1021-1060 | every event of a connected client does |
| ClientEvents.ClientProcessKeeps | usbfluxd/client.c:1004-1068 | so every dispatch to a client does, given that none waits for its Result and has stale input |
| RemoteEvents.ListenerTold | usbfluxd/usbmux_remote.c:1209-1261 | a packet of a listening upstream keeps the invariant, the listeners' views included; a device it announces is then the one entry of its renamed id, one it withdraws has no entry, and the rest of the table is as before |
| RemoteEvents.ListenerRecorded | usbfluxd/usbmux_remote.c:1209-1261 | the table takes in what the packet says and nothing else, whether or not the upstream keeps the rule |
| RemoteEvents.ForwardedAnswer | usbfluxd/usbmux_remote.c:1198-1205 | an answer becomes the last packet, and the last bytes, queued to the client that asked, unchanged; the invariant is kept |
| RemoteEvents.ConnectAnswer | usbfluxd/usbmux_remote.c:1262-1271 | the answer to Connect keeps the invariant on both ends |
| RemoteEvents.RemoteRecvKeeps | usbfluxd/usbmux_remote.c:1310-1362 | every packet input of an upstream keeps the invariant |
| RemoteEvents.RelayRemoteKeeps | usbfluxd/usbmux_remote.c:1388-1434 | every event of a connected upstream does |
| RemoteEvents.RemoteProcessKeeps | usbfluxd/usbmux_remote.c:1364-1445 | so every dispatch to an upstream does, reaping included |
| EventLoop.SnapshotKeeps | usbfluxd/main.c:127-133 | a fresh poll list asks for no input on behalf of a client that waits for its Result, and lists clients first |
| EventLoop.DispatchKeeps | usbfluxd/main.c:146-168 | dispatching the next entry keeps the invariant and leaves no stale input entry behind |
| EventLoop.NextKeeps | usbfluxd/main.c:127-168 | every step keeps the invariant, with services coming and going at any point |
| EventLoop.StartKeeps | usbfluxd/usbmux_remote.c:876-898 | the start state has it |
| EventLoop.RunKeeps | usbfluxd/main.c:115-171 | every run keeps it, by induction on its steps |
| EventLoop.Safe | usbfluxd/main.c:115-171 | every reachable state has it |
| Theorems.ListenerView | usbfluxd/client.c:1070-1090 | in every reachable state, replaying what a listening client was sent since Listen gives exactly the current table |
| Theorems.ListenerWireView | usbfluxd/client.c:496-582 | the same from the bytes sent and queued: they parse into packets that, read as changes of a table, rebuild the current table, in order, each body read byte by byte as the device it stands for; answers passed on in between do not matter unless they read as such changes |
| Theorems.DevicesOwned | usbfluxd/usbmux_remote.c:1209-1261 | every device's high byte names a listener still in the list, and its record carries its own id |
| Theorems.NewIdIsClean | usbfluxd/usbmux_remote.c:77-88 | a newly allocated id inherits no device from an earlier holder |
| Theorems.ListenerIdentity | usbfluxd/usbmux_remote.c:496-535 | two listeners differ in id, and network listeners in service name and address; a network listener's id is marked used |
| Theorems.AtMost255 | usbfluxd/usbmux_remote.c:77-88 | at most 255 upstreams listen over the network |
| Theorems.Pairing | usbfluxd/usbmux_remote.c:274-280 | client and upstream point to each other or not at all, and exactly the non-listeners have a client |
| Theorems.TeardownOfPair | usbfluxd/client.c:236-261 | closing from either side leaves the same state: exactly that pair gone, its two descriptors, open until then, closed once |
| Theorems.Descriptors | usbfluxd/client.c:246 | every descriptor ever opened is closed or belongs to exactly one connection |
| Theorems.HandedPair | usbfluxd/client.c:1021-1060 | a client that has been handed over has its upstream, and both are in order |
| Theorems.RelayUp | usbfluxd/client.c:1021-1040 | bytes sent upstream plus the output buffer are one request, read from its bytes as the client's own last consumed Connect with the low 24 bits of its device, followed by every byte read from the client since the handoff; the high byte names the upstream |
| Theorems.RelayDown | usbfluxd/usbmux_remote.c:1388-1421 | bytes read from the upstream are its packets, the last one accepting, then the raw bytes sent to the client plus the input buffer |
| Theorems.Handoff | usbfluxd/client.c:934-944 | the bytes written to a connected client are its packets, the whole Result last, and then the raw bytes |
| Theorems.HandoffDrops | usbfluxd/client.c:386-391 | for every waiting client and accepting answer, the last packet consumed is the Connect, and what is lost is exactly what has been read after it: nothing if and only if the input buffer is empty |
| Theorems.Wakeups | usbfluxd/client.c:1032-1054 | whoever has something queued is armed for output, a connected client exactly when there is something for it, and a pair waits for input or has output to do |
| Theorems.UpstreamParse | usbfluxd/usbmux_remote.c:1310-1362 | until raw mode, the packets dispatched are the parse of everything the upstream sent, and a bad length that ends the parse has killed it |
| Theorems.ClientParse | usbfluxd/client.c:951-1002 | so are a client's commands, as long as no refused packet is stuck in its buffer |
| Theorems.NoFault | usbfluxd/client.c:386-391 | no handler of any run touches freed memory, follows a bad pointer or closes twice, but for the tail after a failed relay send; a waiting client does not poll for input; the state CONNECTING2 of upstreams is unreachable |
| Theorems.DeadTriggers | usbfluxd/usbmux_remote.c:1364-1381 | outside the relay a dead upstream is still polled for input, and the next event of any upstream takes it away |
| Theorems.RouteOf | usbfluxd/usbmux_remote.c:262-270 | the id of an upstream that listens routes to that upstream's own address |
| Theorems.Announced | usbfluxd/usbmux_remote.c:1209-1256 | an announced device is in the table under one id, the upstream's id times 2^24 plus the low 24 bits of its number; its record is the one sent but for the id; every other entry is as before |
| Theorems.Retracted | usbfluxd/usbmux_remote.c:1216-1261 | a withdrawn device, by property list or binary, has no entry any more; every other entry is as before |
| Theorems.NumberRouting | usbfluxd/usbmux_remote.c:255-292 | a Connect to any id of a listening upstream goes to its own address, with the low 24 bits as device number |
| Theorems.EntryRouting | usbfluxd/usbmux_remote.c:255-292 | every entry has one owner; a Connect to it goes to the owner's address if that listens or is local, and is refused if it has died |
| Theorems.FoundAlive | usbfluxd/usbmux_remote.c:1364-1381 | the upstream an input event is for is found unchanged once the dead have been reaped |
| Theorems.Routing | usbfluxd/usbmux_remote.c:1209-1261 | end to end: after the event that completes an announcement, whatever is reaped in it, the device is in the table and in every listening client's view under one id, and a Connect to that id goes to the announcing upstream's address with the device's own number |
| Theorems.SerialLookup | usbfluxd/usbmux_remote.c:350-363 | the device found for a serial number has it, and 0 means nobody does |
| Theorems.PairRecordRouting | usbfluxd/usbmux_remote.c:365-408 | a pair-record request for an announced serial number goes to the upstream of a device that has it, if that upstream listens |
| Theorems.CountIsIds | usbfluxd/usbmux_remote.c:77-88 | counting listeners with distinct ids is counting their ids |
| Theorems.ReportPartitions | usbfluxd/usbmux_remote.c:1089-1129 | the device counts of the instance report add up to the devices with a listening owner and a serial number: to the table if and only if that is all of them |
| Theorems.SerialsAre | usbfluxd/usbmux_remote.c:1089-1100 | an instance lists the serial numbers of exactly its own devices |
| Theorems.ReportKeys | usbfluxd/usbmux_remote.c:1102-1129 | one entry for every listening upstream and no other, with distinct ids, and with its kind of socket, service name, host, port, devices and their number |
| Answers.NotUnderstood | usbfluxd/client.c:658-662 | a packet in an unknown version is answered 6, one with an unknown message number 1, and nothing else happens |
| Answers.Unreadable | usbfluxd/client.c:669-692 | a property list without a type changes the client's version alone and stays in the buffer |
| Answers.Incomplete | usbfluxd/client.c:700-730 | an unknown type, and a request that lacks an item it needs, is answered 2 for a missing device and 1 otherwise, under its own tag |
| Answers.ListeningSlotsAre | usbfluxd/client.c:419-481 | the listener list is about exactly the clients that listen, in list order |
| Answers.QueryAnswered | usbfluxd/client.c:744-793 | ListDevices, ListListeners and Instances are each answered with their own report, under their own tag |
| Answers.ListenAnswered | usbfluxd/client.c:694-699 | Listen, in either form, is answered 0 under its own tag in the client's version, and then with one notification for each device of the table, in order; the number of devices is returned |
| Answers.RouteLeads | usbfluxd/usbmux_remote.c:257-270 | requests for id 0 lead to the local socket, others to the address of the upstream that listens under the id, and nowhere if there is none |
| Answers.ConnectObeyed | usbfluxd/usbmux_remote.c:255-292 | a Connect in either form opens one connection, to where the high byte of the device leads, and queues the client's own message with the low 24 bits; otherwise the client is answered 1 |
| Answers.BinaryConnectObeyed | usbfluxd/client.c:891-908 | a binary request for a device and a port is queued upstream as a property list of type Connect with that port and the device's low 24 bits, and no other item |
| Answers.ReadBuidObeyed | usbfluxd/usbmux_remote.c:294-344 | ReadBUID is passed on, under the client's tag, to the upstream of the first device in the table or the local one |
| Answers.SerialNames | usbfluxd/usbmux_remote.c:350-363 | the device looked up is the first in the table with that serial number, or 0 |
| Answers.PairRecordObeyed | usbfluxd/usbmux_remote.c:365-494 | a pair-record request is passed on under the client's tag to the upstream of that device: to read and delete, as the daemon's own message of that type with the client's record; to save, as the client's message whole |
| Answers.UnnamedSaved | usbfluxd/usbmux_remote.c:410-449 | a save that names no record goes to the local upstream when no device has a serial number |
| Announcements.DisposeTakes | usbfluxd/usbmux_remote.c:973-1011 | disposal takes the slot and all entries under that id, whoever announced them |
| Announcements.OwnKeys | usbfluxd/usbmux_remote.c:1209-1237 | every announcement is about the sender's own ids, but for a withdrawal that does not say which device |
| Announcements.SaidChanges | usbfluxd/usbmux_remote.c:1246-1261 | a packet changes the sender's entries as it says, and another owner's only if it is such a withdrawal and entry 0 exists |
| Announcements.ListenerSays | usbfluxd/usbmux_remote.c:1209-1261 | after it, the entries of every listener not robbed are still the replay of its own announcements |
| Announcements.NothingOwned | usbfluxd/usbmux_remote.c:1184-1190 | a listener that has yet to be accepted owns no entry |
| Announcements.QuietSays | usbfluxd/usbmux_remote.c:1184-1197 | so they are after the answer to Listen, accepting or not |
| Announcements.MarkDeadTold | usbfluxd/usbmux_remote.c:537-562 | after a death |
| Announcements.ReapTold | usbfluxd/usbmux_remote.c:1368-1381 | after the scan |
| Announcements.ClientProcessTold | usbfluxd/client.c:1004-1068 | after every event of a client, whatever it asks for |
| Announcements.RemoteProcessTold | usbfluxd/usbmux_remote.c:1364-1445 | after every event of an upstream |
| Announcements.RunTold | usbfluxd/main.c:115-171 | and over every run, by induction on its steps |
| Announcements.TableIsSaid | usbfluxd/usbmux_remote.c:1209-1261 | in every run, for every listening upstream that has not been robbed, the entries under its id are, in order, the replay of exactly what it has announced itself |
| Announcements.RobsExactly | usbfluxd/usbmux_remote.c:973-990 | a step breaks this for a listener if and only if it is a lone POLLNVAL on a connection made for a client with that id while the listener has devices, or another upstream's withdrawal that does not say which device while the local one has device 0 |
| Services.RemovedAt | usbfluxd/usbmux_remote.c:564-584 | removing by address returns 0 if and only if an upstream is listened to at exactly that host and port; the only such one dies with exactly the others of its id; otherwise -1, and nothing changes |
| Services.RemovedCalled | usbfluxd/usbmux_remote.c:564-584 | the same by service name |
| Services.Added | usbfluxd/usbmux_remote.c:496-535 | adding returns -2 if and only if one of that name, or at that host and port, is there; -1 if it cannot be reached or all ids are taken; otherwise a new upstream under the least free id has been queued Listen and nothing else |
| Services.Started | usbfluxd/usbmux_remote.c:886-898 | at the start there is only, if its socket is there, the local upstream, under id 0, with Listen queued |
| Services.AddObeyed | usbfluxd/client.c:793-838 | AddInstance adds the host under its own name, its port in 16 bits, and is answered 0, 2 or 3 |
| Services.RemoveObeyed | usbfluxd/client.c:838-876 | RemoveInstance removes that host and port and is answered 0 or 2 |
| Progress.ClientInputMoves | usbfluxd/client.c:951-1002 | every byte read joins the client's buffer; end of file, an error or a bad length closes it; a whole packet is handled, and leaves the buffer if and only if 0 is returned |
| Progress.ClientOutputMoves | usbfluxd/client.c:918-949 | exactly the bytes accepted leave the buffer; with the last byte of its Result the client becomes a tunnel, with the saved mask |
| Progress.TunnelInputMoves | usbfluxd/client.c:1021-1040 | every byte read from a connected client joins its upstream's buffer and both masks turn; end of file or an error closes the pair |
| Progress.TunnelOutputMoves | usbfluxd/client.c:1041-1059 | exactly the bytes accepted leave the upstream's buffer; when it is empty the client is polled for input alone |
| Progress.UpstreamFound | usbfluxd/usbmux_remote.c:1364-1389 | an event of a live upstream reaches the handler of its state, with the upstream as it was |
| Progress.RawInputMoves | usbfluxd/usbmux_remote.c:1388-1421 | every byte read from a connected upstream joins its buffer and its client is armed for output; an error closes the pair, end of file stops polling for input |
| Progress.RawOutputMoves | usbfluxd/usbmux_remote.c:1422-1430 | exactly the bytes accepted leave the buffer, and the client is armed for input |
| Progress.HangUpCloses | usbfluxd/usbmux_remote.c:1431-1434 | an event with neither input nor output closes the pair |
| Progress.UpstreamOutputMoves | usbfluxd/usbmux_remote.c:1277-1308 | the same for output in the packet protocol; a send that takes nothing closes the upstream, with its client if it has one |
| Progress.UpstreamInputMoves | usbfluxd/usbmux_remote.c:1310-1358 | every byte read joins the buffer; end of file, an error or a bad length is the death of the upstream and of those with its id |
| Progress.ClientAccepted | usbfluxd/client.c:187-216 | a new client is in the command state, speaks version 0, is polled for input alone and has nothing queued or read |
| Progress.QuietPacket | usbfluxd/usbmux_remote.c:1169-1207 | Listen is accepted by a Result of 0 in a known version and by nothing else; other packets that answer nothing are dropped |
| Progress.ConnectDecided | usbfluxd/usbmux_remote.c:1262-1271 | a Result of 0, binary or property list, and nothing else, moves both ends on; the client is sent a Result with the upstream's number under the tag of its Connect, and drops its input or is back in the command state |
| Progress.StrayAnswer | usbfluxd/usbmux_remote.c:1262-1271 | an answer whose client no longer waits changes the upstream alone |
| Progress.AnswerPassedOn | usbfluxd/usbmux_remote.c:1198-1205 | the answer to a forwarded request is queued to the client as it is; nothing else about the client changes |
| Progress.AnnouncedTo | usbfluxd/client.c:1070-1090 | a change of the table is queued to exactly the listening clients, each in its version, and changes no other connection |
| Rounds.Extend | usbfluxd/main.c:127-168 | an allowed step leads from a reachable state to a reachable state |
| Rounds.NothingReaped | usbfluxd/usbmux_remote.c:1368-1381 | with nothing dead, the scan changes nothing and finds the upstream the event is for |
| Rounds.ClientSends | usbfluxd/client.c:951-1002 | a client's whole packet, cut after its header, is handled as one command |
| Rounds.UpstreamSends | usbfluxd/usbmux_remote.c:1310-1362 | an upstream's whole packet, cut after its header, is dispatched as one answer |
| Session.Connects | usbfluxd/client.c:891-908 | a client's binary Connect to a device that can be reached leads to the state that waits for the answer |
| Session.Answers | usbfluxd/usbmux_remote.c:1262-1271 | the upstream's answer moves both ends on |
| Session.ConnectedIsReachable | usbfluxd/client.c:934-944 | for every lossless codec some allowed run ends with a connected client |
| Session.DropIsReachable | usbfluxd/client.c:386-391 | and some other run ends with a connection that has lost a byte sent before the answer came |
| Failures.SecondForward | usbfluxd/usbmux_remote.c:294-344 | in a run, ReadBUID, its answer and ReadBUID again leave a client and an upstream whose pointers are crossed, which ends in a dangling pointer when the client hangs up |
| Failures.OwnUpstreamRemoved | usbfluxd/client.c:838-876 | in a run, a service, Connect to it, refusal and RemoveInstance of it answer a freed client |
| Failures.ListenStuck | usbfluxd/client.c:999-1001 | in a run that keeps all rules, a client listens with its Listen still in the buffer, and the next input event closes it |
| Failures.NamelessRecord | usbfluxd/usbmux_remote.c:365-408 | in a run, a client's first packet asks for a pair record without naming one, and the missing name is copied |
| Failures.FreedUpstreamTouched | usbfluxd/usbmux_remote.c:1422-1430 | in a run that keeps all rules, an upstream accepts a Connect it has not read to the end and then takes no more of it, and the code touches the freed upstream |
| Failures.UnnumberedDevice | usbfluxd/usbmux_remote.c:1217-1256 | in a run, a network upstream announces a device without saying which, and the table has an entry that belongs to nobody |
| Failures.DeathUnnoticed | usbfluxd/client.c:236-261 | in a run that keeps all rules, a listener dies, the client with the only other upstream leaves, and no live upstream is armed to have the dead one reaped |
| Failures.LocalKilled | usbfluxd/usbmux_remote.c:294-344 | in a run that keeps all rules, a ReadBUID goes to a network upstream, and the end of that connection marks the listening local upstream dead |
| Failures.RobbedByInvalid | usbfluxd/usbmux_remote.c:1368-1381 | in a run that keeps all rules, a lone POLLNVAL on a connection made for a client robs the listener with that id |
| Failures.RobbedByUnnumbered | usbfluxd/usbmux_remote.c:1217-1261 | in a run that keeps all rules, a withdrawal that does not say which device robs the local upstream |
| Limits.OneForwardOnly | usbfluxd/usbmux_remote.c:294-344 | forwarding a request keeps the invariant if and only if it is the client's first; otherwise the old upstream still points to the client, which points to the new one |
| Limits.OneConnectOnly | usbfluxd/usbmux_remote.c:255-292 | so does Connect |
| Limits.DeviceIdNeeded | usbfluxd/usbmux_remote.c:1217-1256 | without a DeviceID an announcement is filed under id 0, which is right if and only if id 0 has an owner |
| Limits.ListenerClosedOutright | usbfluxd/usbmux_remote.c:939-971 | closing a listening upstream outright, as a failed send does, keeps the table owned if and only if none of its devices is left |
| Limits.RemovalOfOwnUpstream | usbfluxd/client.c:838-876 | RemoveInstance answers a freed client if and only if that client has an upstream and every upstream left has the removed id or is dead |
| Limits.NamelessFaults | usbfluxd/usbmux_remote.c:365-494 | a pair-record request goes wrong if and only if it names no record and either some record has a serial number to compare, or the request is rewritten and its upstream can be reached |
| Limits.CommandRuleExact | usbfluxd/client.c:645-916 | a client's packet, handled, leaves the invariant intact if and only if it keeps the rule for clients |
| Limits.DeathArms | usbfluxd/usbmux_remote.c:537-562 | marking an id dead leaves a live upstream armed for output, or nothing to reap |
| Limits.ArmedLost | usbfluxd/client.c:236-261 | a closing client takes that event away if and only if its own upstream was the only one armed |
| Limits.FailedRelaySend | usbfluxd/usbmux_remote.c:1422-1430 | as written, the handler touches a freed upstream if and only if the upstream is connected, the event allows output only, bytes are queued and the send takes none; otherwise it does what is modelled |
| Limits.ForwardedId | usbfluxd/usbmux_remote.c:294-344 | the connection made for a forwarded request goes to the upstream asked for, but keeps id 0 |
| Limits.DeathSpares | usbfluxd/usbmux_remote.c:537-562 | a death is survived by exactly the live upstreams with another id |
| Limits.DeathWithdraws | usbfluxd/usbmux_remote.c:973-990 | and once the dead are reaped, no device of that id is left |
| Limits.ForwardedDeath | usbfluxd/usbmux_remote.c:537-562 | the end of a connection with id 0 is survived by all live listeners if and only if the local one is not among them |
| Limits.ListenConsumed | usbfluxd/client.c:999-1001 | Listen stays in the input buffer if and only if there are devices to announce, because their number is returned |
| Limits.HeldListenerIsClosed | usbfluxd/client.c:645-656 | such a listener is closed by its next input event, whatever it sends |
| Limits.OrderMatters | usbfluxd/main.c:146-168 | were upstreams dispatched before clients, the input event of a client just handed over would read into the freed buffer; in the loop's order it does not |

## Left out

- Theorems.NoFault: says nothing of the mask update after a failed send on a connected upstream (usbmux_remote.c:1426-1430), which is not part of the handler; `Limits.FailedRelaySend` says when it happens.
- Daemons.Daemon.RelayRemote: ends the pair's run at a failed send, for the same reason.
- Endpoints.RemoteMux.RelayOut: likewise.
- RemoteEvents.RelayRemoteKeeps: likewise.
- Theorems.ListenerWireView: asks that no packet reaches 2^32 bytes, and that no answer passed on since Listen reads as a device message itself.
- Theorems.ClientParse: speaks only of clients without a refused packet in the buffer; a handler that returns anything but 0 leaves the packet there and it is dispatched again.
- Endpoints.MuxClient.NotifyConnect: requires that the answer fits without a 32-bit wrap-around; the condition is exact (`Buffers.GrowthExact`), and the capacities in `Multiplexer` are unbounded.
- Daemons.Daemon: its slot arrays hold records, not pointers to `MuxClient` and `RemoteMux` objects, so aliasing between a list and the objects in it is not captured; the objects, with their byte buffers, are proved against the same records.
- Daemons.Daemon.ClientCommand: a binary CONNECT shorter than its structure counts as a bad command; the code reads on into the buffer.
- Daemons.Daemon.HandleResult: binary device additions (usbmux_remote.c:1213-1215, 1240-1243) are ignored, since they depend on the layout of a C structure; so is a DEVICE_REMOVE shorter than four bytes (usbmux_remote.c:1216-1218), where the code reads on into the buffer; and a RESULT shorter than its structure counts as a failure.
- Daemons.Daemon.ListeningSlots: gives the listening clients, not the entry built for each.
- Daemons.Daemon.PlistCommand: leaves out `update_client_info`, which only fills the entries of ListListeners.
- MainLoop.DispatchOne: skips a failed accept, which ends the program.
- Reading.RecordReads: a character of a serial number counts as one byte, its code modulo 256.
- DeviceKey.RoundTrip: a long has 64 bits; `DeviceKey.NarrowRoundTrip` is the case of 32.
- Failures.OwnUpstreamRemoved: assumes, like the other runs there, that the few messages involved fit the input buffers in the codec's encoding.
- Thread interleavings: every handler is one atomic step; services come and go as steps between any two dispatches. The check thread and `last_active` (usbmux_remote.c:1028-1058) are not modelled.
- Failed `malloc` and `realloc`, the descriptor flags of new sockets, and the mask of the accepting socket.
- Descriptors handed out a second time: a new descriptor differs from every earlier one.
- The text of property lists and the library that prints and parses it; `ClientVersionString` in the daemon's own requests.
- `CLIENT_DEAD`, which is set only inside `client_close`, where nothing reads it.
- Keys with white space, signs or more than 32 bits, which the daemon never writes.
- Signals, shutdown, option parsing, logging, sockets and name lookup, mDNS browsing, the tools and the GUI.
