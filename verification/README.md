# jack notifications — a Dafny model

This project models the library part of `jack_notification_rs`. That library lets an application listen to the notifications a JACK audio server sends to its clients:

- thread init, shutdown, freewheel and sample-rate changes;
- client and port registration, port renames and port connections;
- graph reorders and xruns.

It has three pieces, each modelled here:

- **`Notification`** (module `Notifications`). This is a closed sum of ten variants. Its `Display` rendering writes one line per event, starting with `JACK: `. `Render` is that rendering as a pure function. The `Debug` spelling of `jack::ClientStatus` belongs to jack, so it is a parameter, `showStatus`.
- **`SimpleNotificationHandler`** (module `Handler`). Each of the ten callbacks builds the matching event and sends it on an `mpsc` channel. The channel is modelled in module `Mpsc` as a state machine: two alive flags and a FIFO queue. Each callback is a transition of that state. The four callbacks with a `jack::Control` result answer `Continue` when the send succeeded and `Quit` when the receiver is gone. The other six ignore the send result.
- **`DummyProcessHandler`** (module `DummyProcessHandler`). This always answers `Continue`.

Module `Decode` holds a reader that inverts `Render`. The round-trip lemma shows that rendering keeps every field of every notification. There is one exception: a port's old name, or a shutdown's status text, may contain the separator written after it. `Decode.PortRenameAmbiguous` shows two different renames that render to the same line. Module `Text` holds the decimal form of `u32` values and the prefix, suffix and separator helpers. Module `Jack` holds jack's types: `Frames` and `PortId` as `u32`, `ClientStatus` as flags in a `u32`, and `Control`.

Four variants (`Freewheel`, `PortRegistration`, `PortRename`, `PortsConnected`) have a `\n` in their format string on top of the one `writeln!` adds, so their lines end in a blank line. A `Shutdown` line also ends in a blank line when its reason ends in a newline. `Notifications.RenderSpacing` states exactly which lines do.

## Model

| member | source | states |
|---|---|---|
| Notifications.Render | src/lib.rs:55-108 | the rendering of every notification is total, starts with the banner `JACK: ` and ends with a newline (the one `writeln!` adds) |
| Notifications.RenderSpacing | src/lib.rs:59-105 | a rendering ends in a blank line if and only if the variant is `Freewheel`, `PortRegistration`, `PortRename` or `PortsConnected`, or it is a `Shutdown` whose reason ends in a newline; every other rendering ends in exactly one newline |
| Notifications.FreewheelWords | src/lib.rs:63-67 | `Freewheel(b)` renders as `JACK: freewheel mode is on` exactly when `b`, and as `... off` exactly when not `b` |
| Notifications.ClientRegistrationWords | src/lib.rs:69-78 | a client registration line starts `JACK: registered ` exactly when the flag is set and `JACK: unregistered ` exactly when it is clear |
| Notifications.PortRegistrationWords | src/lib.rs:79-88 | the same two-way choice of word for a port registration line |
| Notifications.ConnectionWords | src/lib.rs:93-103 | a connection line ends ` are connected` plus a blank line exactly when the flag is set, and ` are disconnected` plus a blank line exactly when it is clear |
| Notifications.RenderMentions | src/lib.rs:57-106 | every line contains the phrase naming its kind (`thread init`, `shutdown`, `sample rate`, `xrun`, ...) and every payload value: the status text and reason, the names, and the decimal form of every id and frame count |
| Text.Decimal | src/lib.rs:68 | the text of a `u32` is non-empty, all digits, has no leading zero unless the value is 0, and has one digit exactly for values below 10 |
| Text.ValueOfDecimal | src/lib.rs:68 | the decimal text of a number reads back to that number |
| Text.DecimalInjective | src/lib.rs:87-97 | different ids or frame counts render as different digit strings |
| Decode.RenderRoundTrip | src/lib.rs:41-108 | reading back a rendered line gives the notification back, variant and every field. This holds for every notification in which no ` because ` starts inside the status text and no ` to ` starts inside the old port name, counting occurrences that run on into the separator written after them. It also needs a status reader that inverts `showStatus` on the status at hand |
| Decode.RenderInjective | src/lib.rs:41-108 | under the same conditions, two notifications that render to the same line are equal |
| Decode.PortRenameAmbiguous | src/lib.rs:89-92 | without that condition the rendering is not injective: two different renames render to the same line |
| Mpsc.Open | src/lib.rs:245 | a new channel has both ends alive and an empty queue |
| Mpsc.Send | src/lib.rs:156-159 | a send succeeds exactly when the receiver is alive; then the event is appended after all earlier ones; otherwise the channel is unchanged and the event is handed back |
| Mpsc.TryRecv | src/main.rs:50 | `try_recv` takes the oldest event; on an empty queue it reports `Empty` while the sender lives and `Disconnected` once it is gone, changing nothing |
| Mpsc.DropReceiver | src/lib.rs:156-159 | after the receiver is dropped it is dead, nothing stays buffered, and the sender's state is kept |
| Mpsc.DropSender | src/lib.rs:247-250 | after the sender is dropped with the client that owns it, the sender is dead and the receiver's state and the buffered events are kept |
| Mpsc.DrainAfterSenderDropped | src/lib.rs:247-250 | once the sender is dropped, the consumer still reads every buffered event, oldest first, and then sees `Disconnected` |
| Mpsc.SendAfterReceiverDropped | src/lib.rs:155-160 | once the receiver is gone, every send fails, gives the event back and leaves the channel as it was |
| Mpsc.DrainAll | src/main.rs:50-52 | the consumer loop takes exactly the queued events, oldest first; it leaves the queue empty and the end flags as they were, and stops on `Empty` or `Disconnected` depending on whether the sender lives |
| Handler.ControlOf | src/lib.rs:156-159 | the `Control` is `Continue` exactly when the send succeeded, `Quit` otherwise |
| Handler.ThreadInit | src/lib.rs:135-138 | with a live receiver, exactly one `ThreadInit` is appended and nothing else changes; with none, the channel is unchanged |
| Handler.Shutdown | src/lib.rs:140-145 | exactly one `Shutdown(status, reason)` with the callback's own status and reason is appended when the receiver lives; otherwise nothing changes |
| Handler.Freewheel | src/lib.rs:147-152 | exactly one `Freewheel(isEnabled)` is appended when the receiver lives; otherwise nothing changes |
| Handler.SampleRate | src/lib.rs:154-160 | exactly one `SampleRate(srate)` is appended when the receiver lives; the answer is `Continue` exactly then and `Quit` when the receiver is gone, leaving the channel unchanged |
| Handler.ClientRegistration | src/lib.rs:162-167 | exactly one `ClientRegistration(name, isReg)` is appended when the receiver lives; otherwise nothing changes |
| Handler.PortRegistration | src/lib.rs:169-174 | exactly one `PortRegistration(portId, isReg)` is appended when the receiver lives; otherwise nothing changes |
| Handler.PortRename | src/lib.rs:176-190 | exactly one `PortRename(portId, oldName, newName)` is appended when the receiver lives; `Continue` exactly then, `Quit` otherwise |
| Handler.PortsConnected | src/lib.rs:192-203 | exactly one `PortsConnected(portIdA, portIdB, areConnected)` is appended when the receiver lives; otherwise nothing changes |
| Handler.GraphReorder | src/lib.rs:205-211 | exactly one `GraphReorder` is appended when the receiver lives; `Continue` exactly then, `Quit` otherwise |
| Handler.XRun | src/lib.rs:213-219 | exactly one `XRun` is appended when the receiver lives; `Continue` exactly then, `Quit` otherwise |
| Handler.Invoke | src/lib.rs:131-220 | while the handler, and so its sender, is alive, whichever callback the server fires forwards the variant of the same name, carrying its arguments field for field; a `Control` comes back exactly for the four callbacks that return one, and it is `Continue` exactly when the receiver is alive |
| Handler.RunAllForwards | src/lib.rs:131-220 | a run of callbacks appends exactly their events, in invocation order, behind what was queued; with the receiver gone it changes nothing |
| Handler.DeliverAndDrain | src/lib.rs:245 | on a fresh channel, any run of callbacks followed by draining yields exactly the run's events in invocation order, for every length including 0 (FIFO, unbounded buffer) |
| DummyProcessHandler.Process | src/lib.rs:113-116 | `process` answers `Continue` for every process scope |
| DummyProcessHandler.BufferSize | src/lib.rs:118-121 | `buffer_size` answers `Continue` for every buffer size |

## Left out

- `jack_notification_handle` (src/lib.rs:240-252) is left out. It opens a client with `Client::new` and starts it with `activate_async`, both in the foreign jack library, so its connection and activation errors are not visible here. Only the channel it creates is modelled, as `Mpsc.Open`.
- The generic payload `T: From<Notification>` is left out. The channel carries `Notification` itself, which is what the binary instantiates.
- Threads are left out. The jack server calls the handler from several threads. The model runs callbacks one after another and does not model how sends from different threads interleave; each send is atomic in the model, as it is in `mpsc`.
- The `Debug` text of `jack::ClientStatus` is left out. `Render` takes it as the parameter `showStatus`. `Decode` takes a reader for it and needs that reader to invert it on the status at hand.
- Notifications.Render: formatter failure is left out. `writeln!` into a `fmt::Formatter` can return an error; the model treats rendering as always succeeding.
- Handler.ThreadInit and the nine other callback functions accept a channel whose sender is gone. That state is unreachable in the source, because the `Sender` is a field of the handler. `Handler.Invoke`, `Handler.RunAll` and `Handler.RunAllForwards` require a live sender.
- Mpsc.DropReceiver: the model discards the buffered events at the moment the receiver is dropped. It does not model when `std` actually frees their memory.
- All of src/main.rs is left out except the drain loop, modelled as `Mpsc.DrainAll`. The name lookup through `env::current_exe`, the `ctrlc` handler, the atomic running flag, the 100 ms sleep and the `println!` of each event are I/O and concurrency. Note that `println!` adds one more newline after each rendered line.
- The derived `Debug` and `PartialEq` of `Notification` are left out. Dafny's structural equality on the datatype stands in for `PartialEq`.
