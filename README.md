# monitord: xcb event source and RandR output rule

A Dafny model of the two pieces of logic in monitord, a small daemon that watches
RandR output changes on an X server and reconfigures the displays with xrandr.

- `pd_xcb_source.dfy` (module `XcbSource`) models `src/pd_xcb_source.c`, a GLib
  event source over an xcb connection. The source is a class with a `seq` queue.
  Its four hooks are methods: Prepare, Check (drains the connection with a loop),
  Dispatch and Finalise. `pd_xcb_source_new`, `pd_xcb_source_ref` and
  `pd_xcb_source_unref` are module-level methods. The xcb connection is a small
  class holding a sequence of buffered events and an error status. Ghost histories
  record the events that arrived, were delivered and were released. The invariant
  `Valid()` ties them to the queue, which gives FIFO order and exactly-once delivery.
- `monitord.dfy` (module `Monitord`) models `handle_xcb_event` and
  `handle_output_change` from `src/monitord.c` as pure functions. A `Command` value
  replaces the `system()` call. The GetOutputInfo round-trip becomes a function in the
  user data, from output id to reply.
- `wrappers.dfy` holds `Option`, which stands for a pointer that may be NULL.

The program's only rule is about the output "DVI1". RandR connection value 0 means
Connected, and CRTC 0 means None. An output that is connected but not driven is
enabled with `xrandr --output DVI1 --auto --above LVDS1`. An output that is not
connected but still driven is switched off with `xrandr --output DVI1 --off`.
Nothing else issues a command.

The code has no lid, power, inhibitor or dual-head logic. The `SystemState` record
(src/monitord.c:33-37) is declared but never used.

Two details of the code, as written:
- `handle_xcb_event` compares the event code with `XCB_RANDR_NOTIFY_OUTPUT_CHANGE`
  (value 1). This is the sub-code of a RandR notify event, and it happens to equal
  the notify event's own number (also 1). The sub-code field itself is never
  examined. The model classifies on `response_type` and the event base only, as the
  code does.
- If the connection has failed, Check reports ready with an empty queue. The next
  Dispatch then passes NULL to `handle_xcb_event`, which returns FALSE, and GLib
  drops the source. `Monitord.ConnectionErrorDispatch` states this.

## Model

| member | source | states |
|---|---|---|
| `XcbSource.PDXcbSource.constructor` | src/pd_xcb_source.c:106-117 | The new source is valid and has an empty queue and empty histories. It polls the connection's descriptor for `G_IO_IN`, keeps the given callback and user data, and holds two references: the caller's and the main context's. |
| `XcbSource.New` | src/pd_xcb_source.c:97-124 | Returns no source exactly when no callback is given. Otherwise the source is fresh and valid, with an empty queue and empty histories, two references (so the caller's later unref leaves it alive), polling the connection's descriptor for `G_IO_IN`, with the given callback and user data. |
| `XcbSource.PDXcbSource.Poll` | src/pd_xcb_source.c:48 | The main loop's poll step sets the `revents` that Check tests, and changes nothing else of the descriptor record. |
| `XcbSource.PDXcbSource.Prepare` | src/pd_xcb_source.c:36-42 | Changes nothing and requests timeout -1. Reports ready exactly when the queue is non-empty. |
| `XcbSource.Connection.HasError` | src/pd_xcb_source.c:53 | Returns the connection's error status. |
| `XcbSource.Connection.PollForEvent` | src/pd_xcb_source.c:56 | Returns the next buffered event and removes it, or returns None when nothing is buffered. |
| `XcbSource.PDXcbSource.Check` | src/pd_xcb_source.c:44-64 | Not readable: queue and connection unchanged, ready exactly when the queue is non-empty. Readable with a connection error: nothing drained, ready is true. Readable and healthy: every buffered event is appended in arrival order behind the queued ones, the connection buffer ends empty, and ready exactly when the queue is non-empty. `Valid()` is kept. |
| `XcbSource.PDXcbSource.Dispatch` | src/pd_xcb_source.c:66-80 | Removes exactly the head of the queue, records it as delivered and released, and returns the callback's result on (head, user data). An empty queue passes None and changes nothing. `Valid()` is kept, so successive dispatches deliver events in arrival order, each exactly once. |
| `XcbSource.PDXcbSource.Finalise` | src/pd_xcb_source.c:82-88 | Releases the queued events in order and empties the queue. Afterwards every event that arrived has been released, so the source owns none. |
| `XcbSource.Ref` | src/pd_xcb_source.c:126-132 | No-op on NULL. Otherwise adds one reference and leaves the queue and histories unchanged. |
| `XcbSource.Unref` | src/pd_xcb_source.c:134-140 | No-op on NULL. Otherwise drops one reference. When the count reaches zero the source is finalised and owns no event; otherwise the queue is unchanged. |
| `Monitord.StrNDup` | src/monitord.c:51-55 | The compared name is the longest NUL-free prefix of the first name_len reply bytes. |
| `Monitord.StrNDupReadsOnlyLen` | src/monitord.c:51-55 | Reply bytes past the stated name length never change the compared name. |
| `Monitord.NameIsDVI1Iff` | src/monitord.c:51-58 | The name equals "DVI1" exactly when the first name_len bytes begin with D,V,I,1 and either end there or continue with a NUL. |
| `Monitord.Decide` | src/monitord.c:58-65 | Enable exactly when the name is DVI1, the output is Connected and no CRTC drives it. Disable exactly when the name is DVI1, the output is not Connected and a CRTC drives it. Any other name, or exactly one of the two conditions, gives no command. |
| `Monitord.CommandLine` | src/monitord.c:58-65 | A command line exists exactly for the enable and disable commands. They are `xrandr --output DVI1 --auto --above LVDS1` and `xrandr --output DVI1 --off`. |
| `Monitord.HandleOutputChange` | src/monitord.c:44-67 | The same rule, stated on the raw GetOutputInfo reply for the changed output. At most one command results. |
| `Monitord.DecisionDependsOnlyOnNameConnectionCrtc` | src/monitord.c:44-67 | Two output changes with the same name bytes (up to the stated length), connection and CRTC get the same command. A duplicated event therefore gets the same decision. |
| `Monitord.MaskIsRemainder` | src/monitord.c:77 | `response_type & ~0x80` is `response_type` modulo 128. |
| `Monitord.Classify` | src/monitord.c:77-83 | The route is output-change exactly when `response_type` modulo 128 equals the event base plus the output-change code. Every other code is ignored. |
| `Monitord.SendEventBitIgnored` | src/monitord.c:77 | Setting or clearing bit 0x80 of `response_type` never changes the route. |
| `Monitord.HandleXcbEvent` | src/monitord.c:69-88 | A NULL event or NULL user data gives FALSE and no command. Otherwise the result is TRUE. A command is issued only for an event routed as an output change. |
| `Monitord.HandleXcbEventCommands` | src/monitord.c:44-88 | End to end, enable is issued exactly when event and user data are present, the masked code is output-change, the reply names DVI1, and DVI1 is Connected and not driven. Disable is issued under the same conditions except that DVI1 is not Connected and is driven. |
| `Monitord.ConnectionErrorDispatch` | src/pd_xcb_source.c:62-76 | With handle_xcb_event as callback, an empty queue, a readable descriptor and a failed connection: Check reports ready, and the following Dispatch delivers nothing and returns FALSE. |

## Left out

- `main` (src/monitord.c:90-139): connecting, looking up the RandR extension and the root screen, selecting input, and creating and running the GLib main loop.
- The GLib main loop itself, `g_source_attach`, `g_source_add_poll` and `g_source_set_callback`. The source stores the registered callback and user data, and the main context's reference is counted in the initial reference count. The `context` and `destroy_func` parameters of `pd_xcb_source_new` are not modelled.
- XcbSource.PDXcbSource.Prepare: the call to `xcb_flush`, which only sends queued requests and does not touch the event queue.
- Real xcb I/O. `xcb_poll_for_event` takes the next element of a pending-event sequence. `xcb_connection_has_error` reads a status that does not change during one Check. The GetOutputInfo round-trip is a function from output id to a successful reply; the code never checks the reply for NULL (src/monitord.c:50-52), and a failed request is not modelled.
- Monitord.HandleOutputChange: the `system()` call is not executed. The command is returned as a value, and `CommandLine` gives its text.
- The memory of events and names. Freeing an event is recorded in the `released` history. The `cleanup_free` release of the duplicated name has no counterpart.
- Logging (`log_info`, and the messages of the `check` macro).
- The callback is a pure function of the event and the user data; its commands are captured by `Handled`. It does not change the source or the connection.
- XcbSource.PDXcbSource.Dispatch: the callback's GetOutputInfo round trip on the same connection the source drains (src/monitord.c:49-50) is not modelled. Waiting for that reply reads the socket, and events read on the way are buffered inside xcb, so a real dispatch can grow the connection's pending events; the model's Dispatch leaves them unchanged. Such events stay in xcb until the descriptor is next reported readable, since Prepare looks only at the source's own queue (src/pd_xcb_source.c:41); the model's `revents` is an input, so it does not show that delay.
- src/pd_xcb_source.h holds declarations only.
