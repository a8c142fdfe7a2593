# Verified models of libevent and libev

The repository bundles libevent 2.0.22 and libev 4.11. This project models the
parts of them that are hardest to get right and proves what they are for. Run
`dafny verify dfyconfig.toml` to check it.

- **evbuffer** (`EvbufferStore` to `EvbufferLines`, and the class in
  `EvbufferObject.dfy`): a byte queue kept as a linked list of chains with a pointer
  to the end and a pointer to a pointer to the last chain with data. Every
  operation is shown to do to the chains what its name says to a plain sequence
  of bytes.
- **libev's loop** (`Wakeup`, `LibevPending`, `LibevHeap`, `LibevTimers`,
  `LibevList`, `LibevBackend`, `LibevFds`, and the class in `LibevLoop.dfy`): the
  wake-up handshake as interleaved steps, the pending queues, the 4-ary timer
  heap, and the descriptor lists with the poll and select backends.
- **evdns** (`DnsName`, `DnsCompression`, `DnsResponse`, `DnsMessage`; `Rings`, `DnsServers`,
  `DnsRequests`, and the class in `DnsBase.dfy`): names with the message
  compression of RFC 1035 section 4.1.4, and the accounting of requests and
  nameservers.
- **event.c** (`EventTimes`, `EventActives`, `EventBase`, `EventLoop`, and the
  class in `EventObject.dfy`): timeouts in a heap and in common timeout queues,
  and the active queues.
- **rate limiting** (`RateLimit`): token buckets and suspension.

## How things are modelled

- Memory with pointers between records is an explicit value: a map from
  addresses to chains, or from watchers and requests to their links. Allocation
  adds an address and free removes it, so reading a freed chain would not
  verify, and that nothing leaks is stated (`Frame`). Methods work on such
  values in local variables step by step, as the C functions do on the heap; a
  class per library object (`Evbuffer`, `EvLoop`, `LibeventBase`, `EvdnsBase`)
  holds the value in a field and its methods store the result. `Bufferevent`
  has the C fields themselves.
- Ghost sequences name the lists: `spine`, `lists`, `rings`. A specification
  speaks of those or of their meaning: the bytes held, what a watcher is owed,
  which timers are armed, when events are due.
- Callbacks are scripts: the k-th callback that runs does `script[k]`, for every
  script. What the random number generator, the clock, the kernel and the
  allocator answer is a parameter or any value.
- Sizes and ticks have the widths of an LP64 system where they can wrap
  (`EV_SIZE_MAX`, `RateLimit`); words of the select backend have 32 bits. Times
  are reals in libev and microseconds in libevent.

## Where the code and its words differ

Paths in this section are under `app/src/main/jni/`.

- `libevent/bufferevent_ratelim.c:180-185` says that no single operation moves
  more than 16384 bytes; with a configuration the bucket replaces that bound
  instead of being cut to it. `GetReadMax` says exactly when the bound holds (a
  configured maximum of at most 16384 is enough); `AboveBound` breaks it.
- `libevent/buffer.c:1637-1716`: a prepend that fails for lack of memory has
  already stored a suffix of its data, unless the first chain had no room
  (`Prepend`, `PartialExists`).
- `libevent/buffer.c:1094-1181`: a failure inside remove_buffer is not noticed;
  `RemoveBuffer` says exactly when bytes are lost and which, and `LossExists`
  gives a case.
- `libevent/buffer.c:1400-1408`: a pointer moved over a run that ends with the
  buffer is left at the start of the last chain (`StrspnPtr`); its only caller
  drops it. `StrspnExists` gives a buffer.
- `libevent/evdns.c:1612-1648`: a name with an empty label does not survive;
  `RoundTrip` says exactly which names do, and `EmptyLabelLost` gives one.
- `libevent/evdns.c:1642-1645`: the final zero is stored without a check for
  room. `NoRoomForZero` says exactly when it misses the buffer, `ResponseBeyond`
  which responses that happens to, and `OverrunExists` gives one; requests are
  safe (`RequestFits`).
- `libev/ev.c:1697`: the fourth test of the slow path never succeeds (`MinChild`).
- `libevent/bufferevent_ratelim.c:92-103`: a limit above the maximum is not cut
  down (`BumpedExactly`, `BumpedAbove`); giving back more than was taken leads
  there (`Overfilled`). A limit may so wrap round and allow nothing, in a direction
  that is not suspended, so that no refill is pending that would change it
  (`Slipped`): until another update has made up for it, a read that is tried is
  one of no bytes, which `bufferevent_sock.c:157-187` takes for the end of the
  stream. `GetReadMax` and `RefillCallback` say exactly when. A bucket left alone
  for more than INT_MAX ticks is not refilled (`RefillGains`).
- `libevent/bufferevent_ratelim.c:51-57` says that after a change of configuration
  the next update adds the appropriate amount. The time of the last update stays
  in ticks of the old length, and with longer ticks refills gain nothing until
  their count has passed it (`Stalled`).

## Model

| member | source | states |
|---|---|---|
| `EvbufferObject.Run` | app/src/main/jni/libevent/buffer.c:959-1716 | Any sequence of add, prepend, drain, remove and pullup on the linked chains has, byte for byte, the effect of the same sequence on one plain byte queue, including what each remove returns; the invariant holds at the end, no other memory is touched, and no chain leaks. |
| `EvbufferObject.FirstInFirstOut` | app/src/main/jni/libevent/buffer.c:1030-1634 | Over every run of add, remove and pullup that fits in size_t, the bytes read so far followed by the bytes still held are the bytes put in, in the order they were put in. |
| `EvbufferObject.RunInOrder` | app/src/main/jni/libevent/buffer.c:1030-1634 | And so on the linked chains: the bytes a run reads, followed by those the buffer then holds, are what it held and was given, in order. |
| `EvbufferOps.InvDocumented` | app/src/main/jni/libevent/evbuffer-internal.h:84-97 | The invariant that all operations keep implies the documented one: last_with_datap designates the last chain with data (the first chain if none has any), last is the end of the list, total_len is the sum of the chains. |
| `EvbufferOps.Add` | app/src/main/jni/libevent/buffer.c:1544-1634 | Appends exactly the given bytes through whichever of the four branches applies (room behind, after realigning, spilling into a new chain, new chain only), or fails and changes nothing; says exactly when it fails; all three aliases are repaired. |
| `EvbufferOps.AddNewChain` | app/src/main/jni/libevent/buffer.c:1606-1628 | The spill into a new chain: the first bytes fill the last chain up, the new one behind it holds exactly the rest; only a last chain without data or room is replaced. |
| `EvbufferOps.ChainInsert` | app/src/main/jni/libevent/buffer.c:291-319 | Links a chain behind the last one with data, frees the empty chain it replaces, and designates the new chain as the last with data exactly if it has data. An empty chain behind chains with data leaves the documented invariant, and exactly then not the one kept here. |
| `EvbufferOps.FirstVictim` | app/src/main/jni/libevent/buffer.c:298-306 | The walk over pointers to chains stops at the slot behind the last chain with data. |
| `EvbufferOps.Drain` | app/src/main/jni/libevent/buffer.c:959-1026 | Removes exactly the first min(len, total) bytes, across chains; frees the chains it empties; resets the aliases when everything goes. |
| `EvbufferFront.Prepend` | app/src/main/jni/libevent/buffer.c:1637-1716 | Puts exactly the given bytes in front. If the allocator fails, the part that fitted into the first chain stays there: the contents grow by a suffix of the data whose length is stated, and are unchanged exactly if there was no room at all or nothing was tried. |
| `EvbufferFront.PartialExists` | app/src/main/jni/libevent/buffer.c:1680-1694 | A state in which a prepend that fails has changed the buffer. |
| `EvbufferFront.CopyOut` | app/src/main/jni/libevent/buffer.c:1044-1088 | Returns the first min(n, total) bytes and changes nothing. |
| `EvbufferMove.AddBuffer` | app/src/main/jni/libevent/buffer.c:867-910 | outbuf holds outbuf ++ inbuf, inbuf is empty, both satisfy the full invariant although chains are relinked and not copied; a frozen buffer leaves both as they were. |
| `EvbufferMove.PrependBuffer` | app/src/main/jni/libevent/buffer.c:913-956 | outbuf holds inbuf ++ outbuf, inbuf is empty, both satisfy the full invariant. |
| `EvbufferMove.Join` | app/src/main/jni/libevent/buffer.c:821-846 | Linking two disjoint chain lists gives one list with both contents in order. |
| `EvbufferMove.FreeTrailingEmptyChains` | app/src/main/jni/libevent/buffer.c:273-285 | When the invariant holds, only a sole chain without data can be freed; otherwise the slot found is the end of the list. |
| `EvbufferMove.AdvanceLastWithData` | app/src/main/jni/libevent/buffer.c:654-667 | Restores the designation of the last chain with data from any earlier slot. |
| `EvbufferRemove.RemoveBuffer` | app/src/main/jni/libevent/buffer.c:1094-1181 | dst holds dst ++ the first min(n, length of src) bytes of src less those lost, src holds the rest, both satisfy the invariant. Bytes are lost exactly if no memory is left and what remains after the whole chains does not fit into the chain it goes to, and then they are exactly that remainder. |
| `EvbufferRemove.LossExists` | app/src/main/jni/libevent/buffer.c:1158-1164 | A state in which a byte is lost. |
| `EvbufferRemove.TakeChains` | app/src/main/jni/libevent/buffer.c:1121-1164 | The whole chains that fit move by relinking: the cut list and the joined list hold what they held. |
| `EvbufferRemove.PassWhole` | app/src/main/jni/libevent/buffer.c:1126-1137 | The walk stops at the first chain that does not fit whole. |
| `EvbufferPullup.Pullup` | app/src/main/jni/libevent/buffer.c:1184-1293 | Contents never change; the first `size` bytes (all, if negative) are contiguous in the first chain at the returned place, or NULL is returned with nothing changed; says exactly when. |
| `EvbufferPullup.PullLoop` | app/src/main/jni/libevent/buffer.c:1255-1268 | Copies and frees whole chains until the partial one, repairing the last-with-data slot on the way. |
| `EvbufferPullup.PullEnd` | app/src/main/jni/libevent/buffer.c:1270-1293 | The partial last chain is shortened in place; first, last and last_with_datap are repaired in all cases. |
| `EvbufferSearch.SearchRange` | app/src/main/jni/libevent/buffer.c:2543-2605 | Returns the least position at or after start at which the pattern occurs, across chain boundaries, and with an end only if it fits before it; -1 exactly if there is none. |
| `EvbufferSearch.PtrMemcmp` | app/src/main/jni/libevent/buffer.c:2501-2534 | What memcmp says of the bytes at the position, however they are spread over chains, and -1 if the buffer ends before; zero exactly if the pattern stands there. |
| `EvbufferLines.SetPtr` | app/src/main/jni/libevent/buffer.c:2450-2494 | Moves a pointer to an absolute or relative position, or fails exactly when the position lies outside; the pointer then leads nowhere, or is as it was if the addition was refused at once. |
| `EvbufferLines.Strchr` | app/src/main/jni/libevent/buffer.c:1306-1325 | The first position of any given byte from the pointer on, or no result exactly if there is none. |
| `EvbufferLines.FindEol` | app/src/main/jni/libevent/buffer.c:1355-1374 | The first CR or LF from the pointer on. |
| `EvbufferLines.Strspn` | app/src/main/jni/libevent/buffer.c:1377-1413 | The length of the longest run of CR and LF bytes from the pointer on, and the pointer moved past it. |
| `EvbufferLines.StrspnPtr` | app/src/main/jni/libevent/buffer.c:1400-1408 | The pointer moved past the run is right exactly if the run ends before the buffer does. |
| `EvbufferLines.StrspnExists` | app/src/main/jni/libevent/buffer.c:1377-1413 | A buffer and a pointer for which the run reaches the end: the pointer returned designates the byte instead of the end. |
| `EvbufferLines.SearchEol` | app/src/main/jni/libevent/buffer.c:1426-1498 | For each of the four styles, the first line ending from the start on and its length, or no result exactly if there is none. |
| `EvbufferObject.Evbuffer.ReadLine` | app/src/main/jni/libevent/buffer.c:1501-1537 | Splits the old contents into line ++ terminator ++ rest at the first terminator of the chosen style; no result, and no change, exactly if there is none, the buffer is frozen or memory runs out. |
| `EvbufferObject.Evbuffer.RemoveBuffer` | app/src/main/jni/libevent/buffer.c:1094-1181 | The same two-buffer move on the objects, with exactly the bytes that are lost. |
| `EvbufferStore.ChainNew` | app/src/main/jni/libevent/buffer.c:155-189 | A fresh chain, with the least capacity reached by doubling that fits the request, or none if the size is too large or memory runs out. |
| `EvbufferStore.FreeAllChains` | app/src/main/jni/libevent/buffer.c:238-245 | Every chain of a list leaves memory, each once, and no other chain changes. |
| `Wakeup.NoLostWakeup` | app/src/main/jni/libev/ev.c:3001-3063 | In every interleaving of any number of senders with the loop: if the loop is blocked in poll, the eventfd is zero and no sender is under way, then no async_pending or sig_pending flag is set, nothing was skipped, and no live watcher or signal is marked. |
| `Wakeup.EverySendIsFed` | app/src/main/jni/libev/ev.c:1844-1990 | In every interleaving, whatever was fed before: once the senders are through, each mark they left is taken away and its source fed exactly once for it, within a bounded number of steps of the loop, with the bound stated. |
| `Wakeup.SendIsFed` | app/src/main/jni/libev/ev.c:4286-4290 | From the send on: in every interleaving, once the senders are through, the source of a send has been fed since the send began, or is within that bound, if the loop listens to it and its watcher was not started anew. |
| `Wakeup.SendIsNoticed` | app/src/main/jni/libev/ev.c:4286-4290 | At any time after a send began, its mark is still to be set, is set, or its source was fed, unless its watcher was started anew. |
| `Wakeup.FedAtMostSent` | app/src/main/jni/libev/ev.c:1917-1937 | No source is fed more often than it was sent: every feed takes the mark of a send of its own. |
| `Wakeup.FallsAsleep` | app/src/main/jni/libev/ev.c:1890-1937 | With nobody sending, whatever happened before, the loop goes to sleep within a bounded number of steps. |
| `Wakeup.Coalesced` | app/src/main/jni/libev/ev.c:1845-1848 | While the flag of its kind is up, a send does no more than leave its mark. |
| `Wakeup.ListensTo` | app/src/main/jni/libev/ev.c:4246-4284 | Starting an async watcher adds it to those the loop scans, and stopping one removes exactly that one. |
| `Wakeup.NextKeeps` | app/src/main/jni/libev/ev.c:1844-1937 | Each single access to shared memory, by a sender or by the loop, keeps the invariant that every mark and every flag will still be seen. |
| `Wakeup.RunKeeps` | app/src/main/jni/libev/ev.c:4286-4290 | The invariant holds in every state of every run. |
| `LibevPending.FeedEvent` | app/src/main/jni/libev/ev.c:1419-1433 | What the watcher is owed grows by the given events and nobody else changes; a watcher not pending goes on top of the stack of its priority; the back-index invariant is kept. |
| `LibevPending.ClearPending` | app/src/main/jni/libev/ev.c:3172-3196 | Returns what was owed to the watcher; it is owed nothing, and is taken out of the stack, while every other watcher keeps its slot. |
| `LibevPending.Pop` | app/src/main/jni/libev/ev.c:2682-2686 | One delivery: the top of the stack and exactly what it is owed, or the dummy. |
| `LibevPending.InvokePending` | app/src/main/jni/libev/ev.c:2676-2689 | For callbacks that feed and clear as they like: everything owed at the start is told or cleared, and what is owed at the end was fed by a callback of lower priority; every callback is told exactly what its watcher was owed at that time; priorities never increase from one call to the next; a watcher is not invoked before one above it unless one of the two was cleared; with quiet callbacks everything is delivered, by priority and then last fed first. |
| `LibevPending.AnsweredFirst` | app/src/main/jni/libev/ev.c:2676-2689 | The first thing done about a watcher that is owed something, if it is a call, tells it what it was owed at the start and all it was fed until then. |
| `LibevPending.ToldOnceAsUnion` | app/src/main/jni/libev/ev.c:1419-1433 | After a delivery or a clear, a watcher is invoked again only if it was fed again in between, and is then told the union of what it was fed. |
| `LibevPending.FeedReverseDone` | app/src/main/jni/libev/ev.c:1436-1448 | Feeds the noted watchers in reverse: afterwards, of two with one priority, the one noted earlier is on top. |
| `LibevPending.LiveClear` | app/src/main/jni/libev/ev.c:3172-3179 | Handing the slot of a watcher to the dummy removes exactly that watcher from its stack. |
| `LibevPending.StackOwed` | app/src/main/jni/libev/ev.c:1419-1433 | The stacks hold exactly the watchers that are owed something, each in the stack of its priority. |
| `LibevHeap.Upheap` | app/src/main/jni/libev/ev.c:1752-1770 | From a heap in order but for one element that may be too early for its parent: a heap in order, with the same elements, each watcher knowing its index. |
| `LibevHeap.Downheap` | app/src/main/jni/libev/ev.c:1672-1712 | The same towards the leaves, by the fast and the slow search for the least of four children. |
| `LibevHeap.MinChild` | app/src/main/jni/libev/ev.c:1684-1697 | The least child that exists; the fourth test of the slow path can never succeed. |
| `LibevHeap.Adjustheap` | app/src/main/jni/libev/ev.c:1774-1780 | An element changed arbitrarily is put where it belongs by one of the two. |
| `LibevHeap.RootFirst` | app/src/main/jni/libev/ev.c:1663-1670 | The first element of a 4-ary heap is the earliest. |
| `LibevTimers.TimerStart` | app/src/main/jni/libev/ev.c:3267-3288 | The timers that are armed, and when, gain exactly this one, due its relative time from now; the 4-heap, back-indices and cached times stay in order. |
| `LibevTimers.TimerStop` | app/src/main/jni/libev/ev.c:3291-3318 | The armed timers lose exactly this one, whose time becomes relative again; what it was owed is cleared. |
| `LibevTimers.TimerAgain` | app/src/main/jni/libev/ev.c:3321-3345 | Armed for now + repeat if it repeats, stopped if not, from whichever state; what it was owed is cleared. |
| `LibevTimers.TimersReify` | app/src/main/jni/libev/ev.c:2718-2752 | Terminates; expires exactly the timers due before now, each once, earliest first; removes the one-shot ones, moves each repeating one to max(at + repeat, now), and leaves no timer before now; feeds them in reverse. |
| `LibevTimers.Expire` | app/src/main/jni/libev/ev.c:2726-2746 | One turn: the root is the earliest of all armed timers, and is moved or removed. |
| `LibevTimers.ExpirePass` | app/src/main/jni/libev/ev.c:2718-2752 | Every timer that expires in the pass has its callback invoked, told EV_TIMER, unless a callback cleared it first. Of two of one priority, neither pending before, the one due earlier is invoked first, whatever the callbacks do, unless one that ran before cleared one of the two. |
| `LibevTimers.InExpiryOrder` | app/src/main/jni/libev/ev.c:1436-1448 | Reverse feeding composed with the pop of the pending stack gives the order of expiry. |
| `LibevBackend.PollModify` | app/src/main/jni/libev/ev_poll.c:51-86 | Changes what poll is asked for one descriptor and no other; polls and pollidxs stay a bijection, through allocation and swap-with-last removal. |
| `LibevBackend.SelectModify` | app/src/main/jni/libev/ev_select.c:74-141 | The same in the bit vectors, which are grown with zeros. |
| `LibevBackend.BackendModify` | app/src/main/jni/libev/ev.c:1548-1549 | Either backend represents the same map from descriptors to events. |
| `LibevFds.FdReify` | app/src/main/jni/libev/ev.c:1497-1553 | Afterwards no descriptor is listed as changed, every descriptor believes the union of what its watchers want, and the kernel set agrees. |
| `LibevFds.Reify` | app/src/main/jni/libev/ev.c:1529-1549 | One descriptor: the union over its watcher list; the backend is told exactly if that differs or the descriptor may be a new one. |
| `LibevFds.KernelMatches` | app/src/main/jni/libev/ev.c:1495-1553 | In every reachable state, for a descriptor not listed as changed, the kernel is asked to report an event on it exactly if some started watcher on it wants that event. |
| `LibevFds.FdChange` | app/src/main/jni/libev/ev.c:1557-1568 | A descriptor is in the change list exactly once if it is marked and not at all otherwise. |
| `LibevFds.IoStart` | app/src/main/jni/libev/ev.c:3225-3245 | The watcher becomes the first of the list of its descriptor, which is listed as changed; it wants what it wanted before; all other lists and watchers, and the kernel set, are as before. |
| `LibevFds.IoStop` | app/src/main/jni/libev/ev.c:3248-3264 | The watcher leaves its list and the pending queue; its descriptor is listed as changed. |
| `LibevFds.FdKill` | app/src/main/jni/libev/ev.c:1572-1581 | Terminates; exactly the watchers of the descriptor are stopped, each owed exactly EV_ERROR, EV_READ and EV_WRITE. |
| `LibevFds.FdEvent` | app/src/main/jni/libev/ev.c:1462-1485 | Every watcher of the descriptor is told what it wants of the events reported, and is pending if that is anything, unless the descriptor changed since the kernel was asked. |
| `LibevFds.OrAllWants` | app/src/main/jni/libev/ev.c:1541-1543 | The union holds an event exactly if some watcher in the list wants it. |
| `LibevList.WlistDel` | app/src/main/jni/libev/ev.c:3156-3168 | The walk over pointers to watchers unlinks exactly the one watcher, or nothing. |
| `LibevList.WlistAdd` | app/src/main/jni/libev/ev.c:3149-3153 | The watcher becomes the first of the list. |
| `LibevLoop.EvLoop.FdReify` | app/src/main/jni/libev/ev.c:1497-1553 | On the loop object: afterwards kernel and started watchers agree on every descriptor and event. |
| `LibevLoop.EvLoop.StartAndReify` | app/src/main/jni/libev/ev.c:3225-3245 | A watcher is started and the kernel set brought in step: then the kernel is asked for whatever the watcher wanted before the start. |
| `LibevLoop.EvLoop.TimersReify` | app/src/main/jni/libev/ev.c:2718-2752 | On the loop object: queues, heap and kernel set keep all their invariants together. |
| `LibevLoop.EvLoop.InvokePending` | app/src/main/jni/libev/ev.c:2676-2689 | On the loop object: what was owed is told or cleared, highest priority first, with what is left fed from below. |
| `DnsName.NameParse` | app/src/main/jni/libevent/evdns.c:944-997 | Terminates on every byte string, pointer cycles included; the result, the text and the index past the name in place, is a function of the bytes of the packet alone, so no label outside it is ever part of a result. |
| `DnsName.NameToLabels` | app/src/main/jni/libevent/evdns.c:1586-1649 | Stores exactly the bytes that the recursive description of compression gives, at the given place and nowhere else, and leaves the table it gives; or fails with the code it gives. |
| `DnsName.TableGetPos` | app/src/main/jni/libevent/evdns.c:1546-1554 | The position of the first entry for the name, or -1 exactly if there is none. |
| `DnsCompression.PrintedParses` | app/src/main/jni/libevent/evdns.c:1586-1649 | A name printed into a message with a shared table parses back, whatever is appended later, to its labels up to the first empty one; every entry the table then holds parses to its own suffix. |
| `DnsCompression.RoundTrip` | app/src/main/jni/libevent/evdns.c:944-1649 | Parsing gives the name back, with the index just past what was printed, if and only if no label of it is empty or it is the root. |
| `DnsCompression.ProperText` | app/src/main/jni/libevent/evdns.c:1612-1648 | The labels joined give the name back exactly if none is empty; otherwise the text is shorter. |
| `DnsCompression.EmptyLabelLost` | app/src/main/jni/libevent/evdns.c:1612-1648 | A name that is printed and comes back shorter. |
| `DnsCompression.SpellParse` | app/src/main/jni/libevent/evdns.c:968-980 | Pointers that only lead backwards are fewer than the jumps allowed. |
| `DnsCompression.EmitTable` | app/src/main/jni/libevent/evdns.c:1558-1572 | Entries made for a name in progress lead to the suffixes they stand for once the name is finished. |
| `DnsCompression.NoRoomForZero` | app/src/main/jni/libevent/evdns.c:1642-1645 | For every table, or none: the final zero is stored past the buffer exactly if no part of the name is known, its labels are legal, it does not end in a dot and it fills the buffer to the last byte. |
| `DnsCompression.RequestFits` | app/src/main/jni/libevent/evdns.c:1656-1690 | A request, built without a table in a buffer of evdns_request_len bytes, never comes to that, and its name is printed exactly if its labels are legal. |
| `DnsResponse.FormatResponse` | app/src/main/jni/libevent/evdns.c:1877-1971 | Says for every input which it is: complete, and then the buffer holds exactly the response described; cut at 512 bytes, and then those are its first bytes with TC set; truncated because a record or the type or class of a question does not fit; rejected with the code of the name of a question that cannot be printed, or for an error code out of range; or it stored a zero past its buffer. |
| `DnsMessage.ReplyReadsBack` | app/src/main/jni/libevent/evdns.c:1893-1960 | A complete response, read from its bytes alone, gives back the transaction id, the flags, the counts, and every question and every record of the three sections in order, with name, type, class, ttl and data, if and only if no name in it has an empty label (the root apart). |
| `DnsMessage.ItemReads` | app/src/main/jni/libevent/evdns.c:1925-1955 | One record reads back from where it was written, whatever follows, exactly if its names have no empty label. |
| `DnsResponse.FlagsMean` | app/src/main/jni/libevent/evdns.c:1889-1890 | The response bit is set and the error code added; every other flag is that of the request. |
| `DnsResponse.ResponseBeyond` | app/src/main/jni/libevent/evdns.c:1903-1952 | A response stores a zero past its buffer exactly if one of its names, none of it known, comes at a place where it lacks room for nothing but the zero. |
| `DnsResponse.OverrunExists` | app/src/main/jni/libevent/evdns.c:1870-1952 | A response with two records that does. |
| `DnsResponse.NamesParseBack` | app/src/main/jni/libevent/evdns.c:1903-1952 | Every name of a complete response, of questions, records and record data alike, parses back from the whole message, with the index just past it, if and only if it has no empty label or is the root. |
| `DnsResponse.MarksComplete` | app/src/main/jni/libevent/evdns.c:1903-1952 | That covers exactly the names that were to be written, in order. |
| `EventBase.Add` | app/src/main/jni/libevent/event.c:2045-2192 | Sets the timeout of the event and no other, in the heap or in order in its common queue; fails without effect exactly if registration fails; no common queue is left without a timeout event that comes in time; event_count stays right. |
| `EventBase.EventDel` | app/src/main/jni/libevent/event.c:2215-2286 | The event leaves all its queues and no other event changes, nor does the order of the active ones; no common queue is left unattended. |
| `EventBase.ActiveNolock` | app/src/main/jni/libevent/event.c:2307-2345 | The event becomes active, or gains a reason; event_continue is set exactly if it is more urgent than what runs; the counters stay right. |
| `EventBase.SetTimeout` | app/src/main/jni/libevent/event.c:2134-2177 | A common timeout that comes first in its queue also reschedules the timeout event of the queue. |
| `EventBase.Schedule` | app/src/main/jni/libevent/event.c:1145-1151 | The timeout event of a queue is in the heap for the time of the first event of the queue. |
| `EventBase.CommonCallback` | app/src/main/jni/libevent/event.c:1157-1177 | Exactly the events of the queue that are due become active, in the order of the queue, every other event of the base stays as it was, and the timeout event is rescheduled for the rest. |
| `EventBase.TimeoutProcess` | app/src/main/jni/libevent/event.c:2494-2517 | Exactly the events of the heap that are due leave it and join the active queues, the earliest first; every other event stays as it was. |
| `EventBase.Unpend` | app/src/main/jni/libevent/event.c:2521-2557 | event_count counts, for every event that is not internal, the queues it is on. |
| `EventTimes.InsertInOrder` | app/src/main/jni/libevent/event.c:2561-2588 | A sorted queue stays sorted, and gains exactly the event. |
| `EventTimes.Insert` | app/src/main/jni/libevent/event.c:2591-2630 | Each pending event is due as before, and the new one at its time. |
| `EventTimes.Remove` | app/src/main/jni/libevent/event.c:2521-2557 | Each pending event but this one is due as before. |
| `EventActives.Activate` | app/src/main/jni/libevent/event.c:2607-2612 | event_count_active is the number of active events; the event goes to the end of the queue of its priority. |
| `EventLoop.TimeoutNext` | app/src/main/jni/libevent/event.c:2398-2432 | With nothing active, the time to wait never goes past the deadline of any pending event, in the heap or in a common queue; there is no bound exactly if the heap is empty. |
| `EventLoop.Herald` | app/src/main/jni/libevent/event.c:2398-2432 | Whatever is due has an event in the heap that is due no later. |
| `EventLoop.TimeoutCorrect` | app/src/main/jni/libevent/event.c:2441-2490 | When the clock goes back, every pending event is due exactly that much earlier, and all invariants are kept. |
| `EventLoop.RunOne` | app/src/main/jni/libevent/event.c:1330-1388 | Each callback is run from the most urgent queue that is not empty. It leaves that queue, and then exactly what its actions say happens to the active queues and, event by event, to timeouts, registration and activity; for a timeout event, what was due in its queue joins the active queues in order; every other event is as before. |
| `EventLoop.ProcessSingleQueue` | app/src/main/jni/libevent/event.c:1330-1388 | Terminates for every finite behaviour of the callbacks. Every call is for the first event of the most urgent queue at that time, and leads from one base that meets the invariant to the next by exactly what its callback does to the queues and to each event; stops when the queue is empty or something more urgent was activated; with quiet callbacks the queue runs in order, once. |
| `EventLoop.ProcessActive` | app/src/main/jni/libevent/event.c:1428-1453 | The whole pass is a trace of bases that meet the invariant, from the one it starts with to the one it leaves, in which every call is for the first event of the most urgent queue that is not empty, and takes that event off before its callback changes the queues as it says, whatever callbacks activate, delete or add; if only internal events ran, nothing is left active. |
| `EventLoop.ToldOnce` | app/src/main/jni/libevent/event.c:1330-1388 | In every such trace an event is called again only if its own callback or a later one made it active in between. |
| `EventLoop.ToldIfActive` | app/src/main/jni/libevent/event.c:1330-1388 | And it is called at all only if it was active at the start or a callback made it active since. |
| `EventObject.LibeventBase.TimeoutNext` | app/src/main/jni/libevent/event.c:2398-2432 | The same on the event_base object. |
| `EventObject.LibeventBase.LoopTurn` | app/src/main/jni/libevent/event.c:1588-1642 | One turn of the loop. The poll never goes past a deadline. When callbacks start, active is exactly what was so at the poll, what the kernel reports and every event of the heap that is due; these joined the active queues in that order, the due ones earliest first, and only they lost their timeouts. The calls are such a trace from there; they begin with the most urgent event and end when its priority has nothing left, or something more urgent turned up. event_continue is cleared first, so that turns can follow each other. |
| `RateLimit.BumpedIsRefilled` | app/src/main/jni/libevent/bufferevent_ratelim.c:73-110 | The refill is min(maximum, limit + ticks * rate), computed in size_t without overflow, for every limit that is not above the maximum. |
| `RateLimit.BumpedExactly` | app/src/main/jni/libevent/bufferevent_ratelim.c:92-103 | And for which limits and ticks it is: with a limit above the maximum the difference wraps round, and the limit grows instead. |
| `RateLimit.BumpedAbove` | app/src/main/jni/libevent/bufferevent_ratelim.c:92-103 | What becomes of a limit above the maximum. |
| `RateLimit.Overfilled` | app/src/main/jni/libevent/bufferevent_ratelim.c:901-925 | Bytes given back to a full bucket lead to such a limit: the next tick allows 250 of a maximum of 100. |
| `RateLimit.AboveBound` | app/src/main/jni/libevent/bufferevent_ratelim.c:200-270 | With a rate of 65536, one operation may move that many bytes. |
| `RateLimit.MovedAtMost` | app/src/main/jni/libevent/bufferevent_ratelim.c:200-348 | When each request stays within what the bucket allows, the bytes moved over any span of T ticks are at most maximum + T * rate. |
| `RateLimit.TransferAll` | app/src/main/jni/libevent/bufferevent_ratelim.c:200-348 | On the bufferevent itself: however reads, writes and refill events interleave, the bytes moved in each direction over any span of T ticks are at most what its bucket held plus T * rate, and so at most maximum + T * rate; and at least what its bucket lost. |
| `RateLimit.RefillGains` | app/src/main/jni/libevent/bufferevent_ratelim.c:73-86 | A refill gains an exhausted bucket something exactly if it finds ticks to have passed: the true number from 1 to INT_MAX, and none for more, up to the wrap-round. |
| `RateLimit.RefillAll` | app/src/main/jni/libevent/bufferevent_ratelim.c:396-441 | A suspended direction resumes: after as many refills, each at least a tick after the one before, as it takes for rate times their number to exceed what the bucket owes. |
| `RateLimit.Bufferevent.UpdateBuckets` | app/src/main/jni/libevent/bufferevent_ratelim.c:73-110 | Both limits after the update, for all limits: the intended refill if they were not above the maximum; a limit above zero is afterwards zero or less exactly if it was above the maximum and the sum left the signed range within 2^64. |
| `RateLimit.Bufferevent.GetReadMax` | app/src/main/jni/libevent/bufferevent_ratelim.c:200-266 | The bucket after its update, or 16384 without a configuration. From limits within their maximum, it is within 16384 exactly if the lesser of maximum and limit + ticks * rate is. Nothing gets stuck, exactly unless an unsuspended limit wraps round as said. |
| `RateLimit.Bufferevent.GetWriteMax` | app/src/main/jni/libevent/bufferevent_ratelim.c:200-272 | The same for writing. |
| `RateLimit.Slipped` | app/src/main/jni/libevent/bufferevent_ratelim.c:73-110 | A case in which one does: nothing may be read although the direction is not suspended, and no refill is pending. |
| `RateLimit.Bufferevent.DecrementReadBuckets` | app/src/main/jni/libevent/bufferevent_ratelim.c:275-310 | Nothing stays stuck, whatever is taken or given back: an exhausted bucket suspends its direction, and a refill is pending exactly while a direction is suspended for bandwidth. |
| `RateLimit.Bufferevent.DecrementWriteBuckets` | app/src/main/jni/libevent/bufferevent_ratelim.c:313-348 | The same for writing. |
| `RateLimit.Bufferevent.DecrementReadLimit` | app/src/main/jni/libevent/bufferevent_ratelim.c:901-925 | The same, although it acts only when the limit crosses zero: it suspends on the way down, and resumes on the way up. |
| `RateLimit.Bufferevent.RefillCallback` | app/src/main/jni/libevent/bufferevent_ratelim.c:396-441 | Each direction is resumed exactly if its bucket is no longer exhausted, and the refill stays pending exactly while one is suspended; the one exception is a limit that wraps round. |
| `RateLimit.Bufferevent.SetRateLimit` | app/src/main/jni/libevent/bufferevent_ratelim.c:559-635 | The same across every change of configuration, removal included; limits are cut down, never raised, when one replaces another. |
| `RateLimit.Stalled` | app/src/main/jni/libevent/bufferevent_ratelim.c:44-58 | A change to longer ticks after which a refill one tick later gains an exhausted bucket nothing. |
| `RateLimit.Bufferevent.Suspend` | app/src/main/jni/libevent/bufferevent.c:67-77 | Suspension for other reasons keeps it true that the backend works in a direction exactly if that is enabled and not suspended for any reason. |
| `RateLimit.Bufferevent.Enable` | app/src/main/jni/libevent/bufferevent.c:407-426 | The same when directions are enabled while suspended. |
| `Rings.Insert` | app/src/main/jni/libevent/evdns.c:2671-2684 | The ring gains the request at its end. |
| `Rings.Remove` | app/src/main/jni/libevent/evdns.c:2633-2667 | The ring loses exactly the request, and its head moves on if it was the head. |
| `DnsServers.Pick` | app/src/main/jni/libevent/evdns.c:1321-1353 | Terminates; picks the first server from the head on that is up, whenever the count of good ones is positive, and turns the ring past it; with none up it turns by one; NULL exactly if there are no servers; the assertion in it cannot fail. |
| `DnsServers.Down` | app/src/main/jni/libevent/evdns.c:557-583 | The count of good servers stays the number that are up. |
| `DnsRequests.PutInflight` | app/src/main/jni/libevent/evdns.c:2774-2784 | A request goes to the bucket of its id, the counter stays the total of the buckets, and every other ring is as before. |
| `DnsRequests.TakeInflight` | app/src/main/jni/libevent/evdns.c:648-667 | A request leaves its bucket, and the counter follows. |
| `DnsRequests.TransactionIdPick` | app/src/main/jni/libevent/evdns.c:1303-1315 | Comes up with an id that no request inflight has, whatever is drawn, as long as there is one; there is while fewer than 65535 requests are inflight. |
| `DnsRequests.RequestFind` | app/src/main/jni/libevent/evdns.c:478-494 | The walk over one ring finds the request inflight with the id, or none exactly if there is none; and since no two inflight ever share an id, a reply is matched to the one request it can be for. |
| `DnsRequests.Pump` | app/src/main/jni/libevent/evdns.c:734-759 | Afterwards no request waits while there is room, a nameserver and an unused id, and no more went inflight than there was room for; those that waited longest, and no others, went inflight, each to a server that is up if there is one. |
| `DnsRequests.Submit` | app/src/main/jni/libevent/evdns.c:2697-2788 | Inflight at once, under an id of its own and to the server whose turn it is, if there is room and a nameserver, else at the end of the waiting ring, and no other request is touched; what waits still waits for a reason. |
| `DnsRequests.Finished` | app/src/main/jni/libevent/evdns.c:648-697 | Exactly this request is gone, and the room it leaves goes to the requests that waited longest. |
| `DnsRequests.SendProbe` | app/src/main/jni/libevent/evdns.c:2293-2317 | A probe goes inflight whether or not there is room. |
| `DnsRequests.SetMax` | app/src/main/jni/libevent/evdns.c:3330-3358 | Rehashing keeps the set of inflight requests, each in the bucket its id now has. |
| `DnsRequests.NameserverFailed` | app/src/main/jni/libevent/evdns.c:557-614 | Every request not sent yet leaves the failed server for one that is up, if there is any; every other keeps its server. |
| `DnsRequests.NameserverUp` | app/src/main/jni/libevent/evdns.c:616-635 | The server is up and counted; the probe request it may have had is gone, and the room that leaves goes to the requests that waited longest. Nothing changes for a server that is up. |
| `DnsBase.EvdnsBase.Finished` | app/src/main/jni/libevent/evdns.c:648-697 | The same on the evdns_base object. |
| `DnsBase.EvdnsBase.RequestFind` | app/src/main/jni/libevent/evdns.c:478-494 | On the object, after whatever was submitted, finished, probed or failed: at most one request inflight has the id of a reply, and that one is found. |
| `DnsBase.EvdnsBase.NameserverUp` | app/src/main/jni/libevent/evdns.c:616-635 | The same on the evdns_base object. |

## Left out

- evbuffer_expand, reserve_space, commit_space and evbuffer_read: they leave empty chains behind the last one with data, which the invariant used here excludes.
- Pinned, immutable and reference chains, file segments, sendfile, callbacks and the counters n_add_for_cb and n_del_for_cb.
- Locks, reference counts, deferred callbacks and condition variables.
- EvbufferMove.AddBuffer: assumes that the two lengths together fit in size_t, as do the other operations on two buffers.
- EvbufferObject.Run: allocation succeeds and single additions are below the largest chain, so that the byte queue needs no failure; the single operations state the failures.
- EvbufferStore.ChainNew: the address it returns is any that is not in use.
- Wakeup.NoLostWakeup: assumes sequential consistency, which is what the fences are for; the pipe used without eventfd differs only in how it is written.
- Wakeup.SendIsFed: counts steps of the loop when only the pipe wakes it; signals and asyncs started or stopped meanwhile are covered by the invariant, not by the bound.
- LibevPending.InvokePending: priorities are fixed and in range; callbacks feed and clear, and do nothing else to the queues.
- LibevTimers.TimersReify: times are reals, so rounding is not modelled; periodics, idle, prepare, check, fork, child, stat and embed watchers are not either.
- LibevFds.IoStart: arrays grow to just the size needed instead of by array_nextsize; the IOCP and Winsocket branches of fd_reify are not modelled, nor is fd_rearm_all after a fork.
- epoll, kqueue and port backends: what they guess about closed and duplicated descriptors has no clean invariant.
- DnsName.NameParse: reads up to 63 bytes behind the packet before it fails, as the code does; what they are is arbitrary.
- DnsName.NameToLabels: a store past the buffer ends the model with a result of its own; remembering a label succeeds unless the table is full.
- DnsCompression.RoundTrip: for buffers of up to 16384 bytes, as far as a pointer reaches; the code uses 1500.
- DnsResponse.FormatResponse: says of a response cut short by something that does not fit only its mark, since its end may hold what the stack held; failure to allocate the copy is not modelled.
- DnsRequests.SetMax: does not pump, as in the code, so after a raise requests may wait while there is room until the next one finishes.
- DnsRequests.NameserverUp: which request is the probe of a server is a parameter; the timer of the server and its counts of failures are not modelled.
- DnsRequests.Pump: stops with all 65535 transaction ids in use, where the code would draw ids for ever.
- DnsRequests.SendProbe: is not called, and neither is Submit when there is room, with all ids in use, where the code does not return.
- evdns suspend and teardown, probe timeouts and their backoff, search lists, hosts and resolv.conf parsing, and sending.
- EventBase.Add: the evmap is only its success; an index of a common timeout is taken as given instead of decoded from the top bits of tv_usec; signals being delivered are not modelled.
- EventLoop.RunOne: of the timeout event of a common queue that gains an event, says only that it may leave the active queues.
- EventLoop.ProcessActive: event_break, the flags of the loop, deferred callbacks and the time a persistent event is put off to are not modelled; re-adding a persistent event is an action of its callback.
- EventBase.TimeoutProcess: the heap is a set with a least element; minheap-internal.h is not part of this model.
- RateLimit.Bufferevent.GetReadMax: no rate-limit groups, whose members are suspended under try-locks.
- RateLimit.Bufferevent.SetRateLimit: the length of a tick is not part of a configuration here; every call takes the number of the current tick as the configuration in use counts it, whatever that is.
- RateLimit.Bufferevent.DecrementReadBuckets: the difference is in the range of signed sizes, outside of which C does not define it.
- RateLimit.TransferAll: begins with limits that are not above the maximum, as every configuration sets them.
