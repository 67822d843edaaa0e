# Play-with-Docker: client event layer and session countdown, in Dafny

This project models two pieces of the Play-with-Docker playground.

The first is the play page controller in
`handlers/www/assets/app-simplified.js`. It covers:

- the publish/subscribe layer the page builds on its websocket: `on`, `emit`, and the `open`, `close` and `message` listeners;
- the socket callbacks that keep "the one instance" of a session up to date: instance new and delete, status, stats, terminal output, ports, swarm ports and viewport resize;
- terminal creation and attach, and the buffer that holds output until the terminal is ready;
- the one-slot window-resize debounce;
- the `uploadFiles` sequencer;
- the embedded editor's tabs;
- the small helpers: `getProxyUrl`, `runCommand`'s newline rule, `getCheatCommands` and `getCurrentSessionId`.

The second is the server-side session countdown in
`scheduler/task/session_timer.go`: the registry that keeps at most one timer
per session, the decision each tick takes, and the `HH:MM:SS` / `MM:SS`
rendering of the time left.

The layout follows the program:

| file | module | what it holds |
|---|---|---|
| `decimal.dfy` | `Decimal` | decimal rendering of naturals and Go's `%02d`, with their parser |
| `js_values.dfy` | `JsValues` | event argument values and the JavaScript rules the page applies to them (truthiness, `== 0`, `String(v)`, property reads) |
| `event_channel.dfy` | `EventChannel` | the listener dictionary, `on`, `emit` and the lookup the dispatch loops use |
| `instances.dfy` | `Instances` | the instance record and the pure transitions its handlers apply; the port-list and terminal-output theorems |
| `instance_store.dfy` | `InstanceStore` | `$scope.instance`, the instance objects, and the pending `$timeout` callbacks that captured one of them |
| `resize.dfy` | `Resize` | the resize debounce as a state machine over event traces |
| `upload.dfy` | `Upload` | the upload status line, the percentage, and the chain of `uploadFile` calls |
| `editor_tabs.dfy` | `EditorTabs` | the open-file list and its cursor |
| `helpers.dfy` | `Helpers` | the pure helpers |
| `controller.dfy` | `PlayController` | the controller: its scope fields, the socket it sets up, and the methods run by each browser or socket event |
| `session_timer.dfy` | `SessionTimer` | the Go timer registry, the tick decision and the clock formatter |

State that the source changes in place is held in classes: the socket
dictionary and its sent-frame log, the instance store, the editor tabs, the
upload chain and status, the controller scope and the Go registry. Each
method states its new state. The properties the source promises are proved
as lemmas about the pure functions those methods are specified by.

## Design choices

These are the main ways the model departs from a literal transcription:

- **Object references.** JavaScript instance objects are identified by a reference (`InstanceStore.Ref`) into a map. A `$timeout` callback or a `term.on('data')` callback that captured an object keeps working on that object after `$scope.instance` has moved on, as it does in the page.
- **The terminal widget.** It is abstracted to four things: the list of strings written to it, whether it was opened in the page, its last size, and whether its keyboard input was wired to the socket.
- **Frames.** A frame arrives already decoded, as a name and its arguments.
- **Uncaught errors.** An exception that JavaScript would throw out of a callback is an outcome of the model:
  - `stats.instance` on `null` makes `instance stats` throw, and the `message` loop stops at that callback;
  - with no instance, `proposeGeometry()` throws and no resize frame is sent;
  - with no instance, `$scope.instance.name` throws and the upload chain stalls.
- **The tick.** The storage lookup and the clock are the tick's input, as a `Lookup` holding the remaining nanoseconds.
- **Goroutines.** A goroutine is a ghost multiset entry. Its cancellation and exit are explicit steps.
- **Callback effects.** Each socket callback's effect is defined once, as a two-state predicate: `PlayController.Controller.Handled` for every callback, built on `InstanceStore.Store.InstanceAdded`, `InstanceDeleted`, `StatusSet`, `StatsApplied`, `OutputDelivered`, `PortAdded`, `SwarmPortAdded` and `ViewportResizeApplied` for the store. The store methods, the dispatch methods and the `message` listener are all specified by these predicates. Every scope case of `Handled` gives the whole new value of the scope fields and the resize state (`Fields`), so a callback changes exactly the fields it writes.

Two behaviours of the page are modelled as written, although a reader might expect otherwise:

- **Output order.** The terminal object is assigned before the page element is found (app-simplified.js:843). Output that arrives in that window is written straight to the terminal, so it lands before the output buffered earlier. `Instances.OutputOrder` states exactly this reordering, `Instances.EarlyOutputIsReordered` exhibits it, and `Instances.InOrderWithoutEarlyOutput` shows the order is kept when nothing arrives in that window.
- **Buffer of a loaded instance.** Instances installed by `getSession` get port-list defaults but no `buffer` (app-simplified.js:356-358). `buffer += data` on them would start with `"undefined"` (`Instances.Appended`). That path cannot happen, because `getSession` creates the terminal at once (`InstanceStore.Store.Load`).

## Model

| member | source | states |
|---|---|---|
| Decimal.NatToString | handlers/www/assets/app-simplified.js:430 | the decimal text of a number is non-empty, all digits, and has no leading zero |
| Decimal.ParseNatToString | handlers/www/assets/app-simplified.js:243 | reading the decimal text of `n` back gives `n`, so numbers in status lines and file names are unambiguous |
| Decimal.Pad2 | scheduler/task/session_timer.go:103-105 | `%02d` gives at least two digits, exactly two below 100, and reads back as its value |
| JsValues.Prop | handlers/www/assets/app-simplified.js:748 | reading a property throws exactly for `null` and `undefined`, and gives the field of an object that has it |
| JsValues.LooselyZeroExamples | handlers/www/assets/app-simplified.js:735 | `cols == 0` holds for `0`, `"0"` and `"00"`, and not for `80`, `"80"` or `null` |
| EventChannel.Register | handlers/www/assets/app-simplified.js:612-617 | `on(name, cb)` appends `cb` to the list of `name` only, creating the list on first use |
| EventChannel.BuildMatchesLog | handlers/www/assets/app-simplified.js:612-617 | looking a name up after any sequence of `on` calls gives exactly the callbacks registered for it, in registration order |
| EventChannel.UnregisteredNameHasNoHandlers | handlers/www/assets/app-simplified.js:658-659 | a name never registered has no callbacks |
| EventChannel.Channel.On | handlers/www/assets/app-simplified.js:612-617 | the dictionary stays equal to the one the registration log builds, and no frame is sent |
| EventChannel.Channel.Emit | handlers/www/assets/app-simplified.js:619-626 | `emit(name, a1..an)` sends exactly one frame `{name, args: [a1..an]}` |
| EventChannel.Channel.Listeners | handlers/www/assets/app-simplified.js:658 | `socket.listeners[name]` is the registration-ordered list of callbacks for `name` |
| Instances.Created | handlers/www/assets/app-simplified.js:707-716 | `instance new` builds a record with the given name, ip, hostname and proxy host, empty port lists, an empty buffer and no terminal |
| Instances.FromServer | handlers/www/assets/app-simplified.js:356-358 | a loaded instance gets empty port lists where they are missing, keeps them where present, and gets no buffer or terminal |
| Instances.AddUnique | handlers/www/assets/app-simplified.js:777-780 | the port is in the list afterwards, it is appended only when missing, and a duplicate-free list stays duplicate-free |
| Instances.OutputArrived | handlers/www/assets/app-simplified.js:766-770 | output is appended to the buffer while there is no terminal and written to the terminal once there is one |
| Instances.TermCreated | handlers/www/assets/app-simplified.js:839-846 | attaching gives the record a terminal, and changes nothing when it already has one; a new terminal has nothing written, is not open and has no input wired; no other field changes |
| Instances.Flushed | handlers/www/assets/app-simplified.js:584-587 | a non-empty buffer is written to the terminal as one piece and becomes `""`; otherwise nothing is written and the buffer is kept; no other field of the record or the terminal changes |
| Instances.TermReady | handlers/www/assets/app-simplified.js:849-860 | after the DOM-ready callback the terminal is open and its input is wired |
| Instances.ViewportResized | handlers/www/assets/app-simplified.js:734-744 | a zero dimension or a missing terminal changes nothing; otherwise the terminal's size becomes (cols, rows), a non-empty buffer is written to it and emptied, and an empty or missing buffer is left as it was; the name, the port lists and whether there is a terminal never change |
| Instances.AnnounceStep | handlers/www/assets/app-simplified.js:775-782 | one more announcement keeps the list the first-occurrence deduplication of all announcements |
| Instances.AnnounceKnown | handlers/www/assets/app-simplified.js:777 | announcing a port already listed keeps the list the deduplication of all announcements |
| Instances.AnnounceNew | handlers/www/assets/app-simplified.js:777-778 | announcing a new port appends it and keeps the list the deduplication of all announcements |
| Instances.AnnouncedKeepsPrefix | handlers/www/assets/app-simplified.js:778 | announcements only append: the initial list stays the list's prefix |
| Instances.AnnouncedPorts | handlers/www/assets/app-simplified.js:775-791 | after any announcements the list keeps its start, holds every announced port exactly once, and lists ports in the order of their first announcement |
| Instances.FlushStep | handlers/www/assets/app-simplified.js:739-742 | a flush puts the buffered block behind what was written directly and empties the buffer |
| Instances.StepKeepsInvariant | handlers/www/assets/app-simplified.js:764-772 | every output, create, ready or resize step keeps terminal and buffer in line with the three-phase account of the output |
| Instances.OutputInvariantHolds | handlers/www/assets/app-simplified.js:764-772 | from a fresh instance, terminal and buffer match the phase account after any trace |
| Instances.AllOutputAccounted | handlers/www/assets/app-simplified.js:764-772 | every byte received is counted in exactly one phase, in arrival order |
| Instances.OutputOrder | handlers/www/assets/app-simplified.js:764-772 | the terminal plus the buffer hold every byte received exactly once; output received between terminal creation and the flush comes before the output buffered earlier |
| Instances.InOrderWithoutEarlyOutput | handlers/www/assets/app-simplified.js:584-587 | without output in that window, the terminal plus the buffer equal all output in arrival order |
| Instances.EarlyOutputIsReordered | handlers/www/assets/app-simplified.js:843 | output `a` before the terminal and `b` in the window are shown as `b` then `a` |
| InstanceStore.Store.constructor | handlers/www/assets/app-simplified.js:11 | the page starts with no instance and no pending callbacks |
| InstanceStore.Store.InstanceNew | handlers/www/assets/app-simplified.js:705-725 | `InstanceAdded`: a fresh object with the given fields replaces the current instance wholesale, the other objects are untouched, and `setupInstance` on that object is queued |
| InstanceStore.Store.InstanceDelete | handlers/www/assets/app-simplified.js:727-732 | `InstanceDeleted`: the instance is cleared exactly when its name matches; the objects and the pending callbacks never change |
| InstanceStore.Store.TerminalStatus | handlers/www/assets/app-simplified.js:757-762 | `StatusSet`: on a name match only the status field of the current object changes; otherwise nothing does |
| InstanceStore.Store.InstanceStats | handlers/www/assets/app-simplified.js:746-755 | `StatsApplied`: it throws exactly when there is an instance and the stats are `null` or `undefined`; on a match with `stats.instance` only cpu and mem change; otherwise nothing does |
| InstanceStore.Store.TerminalOut | handlers/www/assets/app-simplified.js:764-772 | `OutputDelivered`: on a name match the output is buffered or written to the terminal; otherwise nothing changes |
| InstanceStore.Store.InstancePort | handlers/www/assets/app-simplified.js:775-782 | `PortAdded`: on a name match the port is added only when missing; otherwise nothing changes |
| InstanceStore.Store.SwarmPort | handlers/www/assets/app-simplified.js:784-791 | `SwarmPortAdded`: the same rule for the swarm port list |
| InstanceStore.Store.ViewportResize | handlers/www/assets/app-simplified.js:734-744 | `ViewportResizeApplied`: a zero dimension or no instance changes nothing; otherwise only the current object changes, as `Instances.ViewportResized` says |
| InstanceStore.Store.SetupInstance | handlers/www/assets/app-simplified.js:377-382 | an object that has a terminal is left alone; otherwise a terminal is created at once and the DOM-ready wait queued |
| InstanceStore.Store.FireTimer | handlers/www/assets/app-simplified.js:849-864 | a pending callback runs on the object it captured: setup creates a terminal once; DOM-ready opens, flushes and wires it when the element exists; `$scope.instance` is untouched |
| InstanceStore.Store.Load | handlers/www/assets/app-simplified.js:355-359 | a loaded instance becomes current with a terminal, and its DOM-ready wait is queued |
| Resize.OnWindowResized | handlers/www/assets/app-simplified.js:262-271 | a timeout is scheduled exactly when there is a terminal and none is pending, and the slot is pending afterwards exactly when one was before or there is a terminal |
| Resize.OnFired | handlers/www/assets/app-simplified.js:265-267 | the firing sends the geometry read at fire time, or nothing when reading it throws |
| Resize.ExtendTrace | handlers/www/assets/app-simplified.js:265 | a timeout may only fire while one is pending, and one more event extends the replay by one step |
| Resize.DebounceAccounting | handlers/www/assets/app-simplified.js:262-271 | every scheduled timeout has fired or is the one pending, so at most one is outstanding, and each firing sends at most one frame |
| Resize.BurstSchedulesOnce | handlers/www/assets/app-simplified.js:263-264 | a burst of window resizes schedules one timeout when any of them saw a terminal, and sends nothing |
| Resize.DebouncedBurst | handlers/www/assets/app-simplified.js:262-298 | a burst followed by its timeout sends exactly one resize frame with the fire-time geometry and frees the slot |
| Upload.StatusLineShape | handlers/www/assets/app-simplified.js:243 | the status line starts with "Uploading file(s) " and ends with " : " and the file name |
| Upload.Percent | handlers/www/assets/app-simplified.js:249 | the percentage is `NaN` exactly for a zero total; otherwise it is the whole part of 100·loaded/total, at most 100 when loaded ≤ total |
| Upload.PercentMonotone | handlers/www/assets/app-simplified.js:249 | more bytes loaded never shows a smaller percentage |
| Upload.Schedule | handlers/www/assets/app-simplified.js:234-241 | one call shows one line per file and ends with the cleared line |
| Upload.ScheduleIndex | handlers/www/assets/app-simplified.js:243 | line k of one call reads "Uploading file(s) k+1/total : name of file k", and the last line is empty |
| Upload.UploadStatus.constructor | handlers/www/assets/app-simplified.js:15-16 | the page starts with an empty message and progress 0 |
| Upload.UploadChain.constructor | handlers/www/assets/app-simplified.js:234 | a chain starts with the caller's array, its length as total, nothing shown and nothing posted |
| Upload.UploadChain.Next | handlers/www/assets/app-simplified.js:235-253 | `uploadFile`: with the array empty, the message and progress reset and the full schedule has been shown; otherwise the front file is taken, its status line set and its post made to the current instance, or the chain stalls without one |
| Upload.UploadChain.Drain | handlers/www/assets/app-simplified.js:237-241 | the drained branch resets the message and progress and completes the schedule |
| Upload.UploadChain.Take | handlers/www/assets/app-simplified.js:236-250 | the shifting branch takes the front file, shows its line, and posts it to the instance's upload URL |
| Upload.UploadChain.Progress | handlers/www/assets/app-simplified.js:248-250 | a progress event sets the progress to the percentage of that event |
| Upload.UploadChain.Settle | handlers/www/assets/app-simplified.js:252 | a settled post, whether it succeeded or failed, takes the next file, so the chain shrinks each step until it drains |
| Upload.StartChain | handlers/www/assets/app-simplified.js:234-255 | a new chain over the caller's array, and its first `uploadFile` call: an empty array resets the message and progress; otherwise the first file's status line is shown and its post goes to the instance's upload URL |
| Upload.DrainAll | handlers/www/assets/app-simplified.js:228-256 | with the instance present throughout, one call shows every line of the schedule in order, posts every file once, in order: the posts are `Posts` of the instance's upload URL over the files, and ends with message "" and progress 0 |
| Upload.PostsAt | handlers/www/assets/app-simplified.js:237-246 | post k of `Posts` sends file k, the one `files.shift()` returned k-th, to the given URL |
| EditorTabs.IndexOf | handlers/www/assets/app-simplified.js:455 | `indexOf` gives the first position of the file, or -1 exactly when it is not open |
| EditorTabs.CloseRemovesOne | handlers/www/assets/app-simplified.js:455-457 | closing an open file removes exactly one copy of it, and closing a file that is not open changes nothing |
| EditorTabs.CloseKeepsCurrentOpen | handlers/www/assets/app-simplified.js:459-465 | the current file stays one of the open files; it is only cleared when no tab is left, and a close of another file keeps it |
| EditorTabs.CloseCurrentSelectsNeighbour | handlers/www/assets/app-simplified.js:455-465 | closing the current file selects the tab to its left, or the one to its right when it was first; none is current exactly when it was the only tab |
| EditorTabs.CloseExample | handlers/www/assets/app-simplified.js:455-465 | five concrete closes: the current first, last and only tab, another tab, and a file that is not open |
| EditorTabs.UntitledName | handlers/www/assets/app-simplified.js:430 | the N-th new file is named `Untitled-`, then the decimal text of N, then `.txt` |
| EditorTabs.UntitledNameInjective | handlers/www/assets/app-simplified.js:430-431 | different counter values give different names |
| EditorTabs.EditorFile.constructor | handlers/www/assets/app-simplified.js:433-438 | a new file has the given name and content, is new and is not dirty |
| EditorTabs.Tabs.constructor | handlers/www/assets/app-simplified.js:19-21 | no tab is open, none is current, and the counter is 1 |
| EditorTabs.Tabs.SelectFile | handlers/www/assets/app-simplified.js:445-447 | the selected file becomes current |
| EditorTabs.Tabs.CreateNewFile | handlers/www/assets/app-simplified.js:429-442 | a fresh `Untitled-N.txt` with the welcome text is appended and selected, and the counter moves on |
| EditorTabs.Tabs.CloseFile | handlers/www/assets/app-simplified.js:450-467 | the tabs and the cursor become those of the reference close rule, and the current file stays open |
| Helpers.ProxyUrl | handlers/www/assets/app-simplified.js:420-424 | empty exactly without an instance; https exactly for ports 443 and 8443, http otherwise; the URL is exactly `<protocol>://<proxy_host>-<port>.<host>` (prefix, suffix and length) |
| Helpers.WithTrailingNewline | handlers/www/assets/app-simplified.js:159 | the command ends with a newline, extending the original by at most one character, and is unchanged exactly when it already ended with one |
| Helpers.TrailingNewlineIdempotent | handlers/www/assets/app-simplified.js:159 | applying the newline rule twice adds nothing more |
| Helpers.FindCategory | handlers/www/assets/app-simplified.js:148 | `find` gives the first category with the id, or none exactly when no category has it |
| Helpers.CheatCommands | handlers/www/assets/app-simplified.js:147-150 | the commands of the first category with the selected id, and none when there is no such category |
| Helpers.LastSegment | handlers/www/assets/app-simplified.js:826-828 | the session id is the suffix of the path after its last slash, and contains no slash |
| Helpers.SessionIdExample | handlers/www/assets/app-simplified.js:827 | `/p/abc` gives `abc`, and a trailing slash gives the empty id |
| PlayController.NamedAppend | handlers/www/assets/app-simplified.js:612-617 | the callbacks two runs of `on` calls register for a name are those of the first run followed by those of the second |
| PlayController.RegistrationRuns | handlers/www/assets/app-simplified.js:670-798 | `connect` registers the session callbacks, then the instance callbacks, then the session timer |
| PlayController.SessionListeners | handlers/www/assets/app-simplified.js:670-702 | the session run registers, for each name, exactly the session callback the table gives it |
| PlayController.InstanceListeners | handlers/www/assets/app-simplified.js:705-791 | the instance run registers, for each name, exactly the store callback the table gives it |
| PlayController.TimerListener | handlers/www/assets/app-simplified.js:794-797 | the last registration gives `session timer` its callback and no other name anything |
| PlayController.AppListeners | handlers/www/assets/app-simplified.js:670-798 | every event name of the page has exactly its one callback, and every other name has none |
| PlayController.Calls | handlers/www/assets/app-simplified.js:660-663 | a dispatch calls each callback once, in order, with the frame's arguments |
| PlayController.RegisterAll | handlers/www/assets/app-simplified.js:670-798 | `connect` registers the page's callbacks in source order on the fresh socket and sends nothing |
| PlayController.ConnectSocket | handlers/www/assets/app-simplified.js:609-798 | the socket `connect` sets up maps each name to exactly the reference callbacks |
| PlayController.Controller.constructor | handlers/www/assets/app-simplified.js:9-21 | scope defaults (no instance, alive, ttl `--:--:--`, not connected, empty upload status) and the session id taken from the path |
| PlayController.Controller.InstanceNameText | handlers/www/assets/app-simplified.js:245 | the instance name as concatenated into the upload URL, absent exactly when there is no instance |
| PlayController.Controller.HandleConnect | handlers/www/assets/app-simplified.js:670-680 | connected is set, one `session` frame with the session id is sent, and the session and the playground are fetched |
| PlayController.Controller.HandleSessionReady | handlers/www/assets/app-simplified.js:311-324 | the state is stored, and the builder dialog opens exactly when it is falsy |
| PlayController.Controller.HandleBuilderOut | handlers/www/assets/app-simplified.js:690-694 | output is written to the builder terminal when there is one, and dropped otherwise |
| PlayController.Controller.HandleSessionEnd | handlers/www/assets/app-simplified.js:696-702 | the session-expired alert is shown, the session is marked dead and the socket is closed, in that order |
| PlayController.Controller.Invoke | handlers/www/assets/app-simplified.js:662-798 | `Handled`: one callback runs with the frame's arguments and has exactly its own effect on the scope, the socket and the store, as the callback it is registered under does; every scope field it does not write, and the resize slot, stay as they were; only `instance stats` can throw, exactly on `null` or `undefined` stats with an instance |
| PlayController.Controller.InvokeOnScope | handlers/www/assets/app-simplified.js:670-702 | `Handled` for the scope callbacks: `connect` sends `session` and fetches; `disconnect` clears connected; `session ready` stores the flag and opens the builder dialog exactly when it is falsy; builder output goes to the builder terminal if any; `session end` alerts, marks the session dead and closes the socket; `session timer` sets the ttl; each keeps every other scope field and the resize state, and none touches the store |
| PlayController.Controller.InvokeOnStore | handlers/www/assets/app-simplified.js:705-791 | `Handled` for the store callbacks: each has the effect of its `InstanceStore.Store` method on the store, with the arguments at its own parameter positions, leaves the scope and the socket alone, and only `instance stats` can throw |
| PlayController.Controller.MessageReceived | handlers/www/assets/app-simplified.js:656-665 | every callback of the frame's name runs, in registration order, until one throws; a name with one callback (every name the page registers) has exactly that callback's `Handled` effect; a name without callbacks changes nothing |
| PlayController.Controller.RunListeners | handlers/www/assets/app-simplified.js:659-664 | the dispatch loop calls the callbacks in order, and stops exactly after the one that throws; a list of one callback has exactly its `Handled` effect; an empty list changes nothing |
| PlayController.Controller.MessageUnknown | handlers/www/assets/app-simplified.js:658-659 | a frame whose name has no callbacks runs nothing, throws nothing, and leaves the scope, the socket and the store unchanged |
| PlayController.Controller.SocketOpened | handlers/www/assets/app-simplified.js:628-640 | `open` sets connected and runs the `connect` callback, which sends `session` and fetches the state; every other scope field, the resize state and the store are unchanged |
| PlayController.Controller.SocketClosed | handlers/www/assets/app-simplified.js:642-654 | `close` clears connected and runs the `disconnect` callback, sending nothing; every other scope field, the resize state and the store are unchanged |
| PlayController.Controller.WindowResize | handlers/www/assets/app-simplified.js:262-271 | a browser resize arms the timeout only with a terminal and none pending |
| PlayController.Controller.FireResize | handlers/www/assets/app-simplified.js:265-267 | the timeout frees the slot and sends one `instance viewport resize` with the geometry read then, or nothing without a terminal |
| PlayController.Controller.TermData | handlers/www/assets/app-simplified.js:590-594 | keystrokes are sent under the name of the object the callback was bound to |
| PlayController.Controller.RunCommand | handlers/www/assets/app-simplified.js:153-164 | without an instance the user is told and nothing is sent; otherwise the newline-terminated command is sent to the instance |
| PlayController.Controller.UploadFiles | handlers/www/assets/app-simplified.js:228-256 | without an instance the user is told; otherwise a chain starts and its first file goes to the instance's upload URL, or it resets at once when there are no files |
| PlayController.Controller.UploadSettled | handlers/www/assets/app-simplified.js:252 | the chain moves on, reading the instance name as it is at that moment |
| PlayController.Controller.SessionLoaded | handlers/www/assets/app-simplified.js:341-366 | the first instance becomes current with its terminal set up, or a retry is scheduled when there is none |
| PlayController.Controller.SessionLoadFailed | handlers/www/assets/app-simplified.js:367-372 | only a 404 is reported, and then the page goes home |
| PlayController.Controller.SessionRetryFired | handlers/www/assets/app-simplified.js:363-365 | the retry fetches the session again |
| PlayController.Controller.BuilderDialogOpened | handlers/www/assets/app-simplified.js:802-810 | a fresh, empty builder terminal |
| PlayController.Controller.CurrentProxyUrl | handlers/www/assets/app-simplified.js:420-424 | the proxy URL of the current instance, empty exactly when there is none |
| SessionTimer.FormatRemaining | scheduler/task/session_timer.go:96-106 | `MM:SS`, five characters exactly, below an hour; from an hour up at least eight characters, exactly eight (`%02d` hours) below 100 hours; the seconds are always behind the last colon |
| SessionTimer.ClockFields | scheduler/task/session_timer.go:101-106 | the clock's colon-separated fields are the zero-padded hours (only from an hour up), minutes and seconds, in that order |
| SessionTimer.ClockArithmetic | scheduler/task/session_timer.go:97-99 | hours·3600 + minutes·60 + seconds is the whole time left, and no hours means under an hour |
| SessionTimer.ClockRoundTrip | scheduler/task/session_timer.go:97-106 | reading the clock back gives the seconds it was made from; it has three fields from an hour up and two below; every field is all digits and at least two wide, the minutes and seconds are two digits below 60, and the hours field reads as the whole hours and is two digits wide below 100 hours |
| SessionTimer.TickDecision | scheduler/task/session_timer.go:74-110 | stop exactly for a missing or expired session, skip exactly on another storage error, otherwise emit the formatted clock of the whole seconds left, which reads back as those seconds |
| SessionTimer.SessionTimer.constructor | scheduler/task/session_timer.go:115-121 | no timer is registered or running, and the task is named "SessionTimer" |
| SessionTimer.SessionTimer.Run | scheduler/task/session_timer.go:32-52 | a session that has a timer keeps it unchanged; otherwise exactly one entry and one goroutine are added; either way the session has exactly one |
| SessionTimer.SessionTimer.Exit | scheduler/task/session_timer.go:55-60 | the deferred cleanup deletes the session's entry and ends its goroutine, and leaves other sessions alone |
| SessionTimer.SessionTimer.Cancelled | scheduler/task/session_timer.go:69-71 | a cancelled context ends the timer through the same cleanup |
| SessionTimer.SessionTimer.TickOnce | scheduler/task/session_timer.go:72-111 | a tick follows the reference decision: stop cleans up, skip changes nothing, emit sends the clock to that session |

## Left out

- JSON decoding of frames: `JSON.parse` is not modelled, and frames arrive decoded. A malformed frame throws in the source, and the model has no such frame.
- Reconnection and backoff of `ReconnectingWebSocket`: each `open` and `close` is a step, and they may repeat.
- HTTP requests, upload transport, dialogs, alerts and navigation: these are I/O and presentation, so each is recorded as an `Effect` or a posted URL, and its completion is a step the environment takes.
- `$scope.$apply` and view refresh: these are presentation only.
- The `$destroy` disconnect: it is framework teardown.
- `getCpuUsage` and `getMemoryUsage`: they use floating-point parsing and formatting.
- The cheat-sheet data and the sample file contents: they are static content. Categories keep only their id and commands.
- `saveFile`, `openPort`, `openEditor`, `closeSession` and `loadPlaygroundConf`: these are dialogs and HTTP calls with no state rule of their own. `loadPlaygroundConf` is the `FetchPlayground` effect.
- The `session_id` field of the `instance new` record: no handler reads it.
- Terminal rendering, page-element lookup and `fit`: the terminal is abstracted.
- Keyboard shortcuts: they are not part of this model.
- Object equality: instance names and ports compare by value. `===` on two distinct JavaScript objects would be false, while the model compares object-valued names structurally.
- Property reads on `null` or `undefined` are modelled as the `TypeError`. Inherited prototype keys are not modelled: a missing key reads `undefined`.
- JsValues.Value: numbers are integers, so there is no floating point and no `NaN` value. There are no arrays either, so conversions such as `[] == 0` being true or `String([1,2])` being `"1,2"` are not modelled.
- JsValues.LooselyZero: JavaScript's `== 0` on strings is modelled for the empty string and all-digit strings only. Strings such as `" 0"` or `"0x0"`, and objects with `valueOf`, are not modelled.
- Helpers.ProxyUrl: the port is a natural number. A string port from the `openPort` prompt that compares loosely with 443 (`"443"`) is not modelled.
- Upload.Percent: it is exact integer division. The source parses the decimal text of a double. When 100·loaded/total is below 1e-6 that text is in exponent form (`5e-7`), so `parseInt` gives its leading digit (5) where the model gives 0. Values beyond double precision can also differ.
- Upload.UploadChain: a picked file is reduced to its name, and `file.name` is the only field read.
- Upload: a stalled chain, where the instance went away and reading its name threw, is terminal. The `TypeError` escapes `uploadFile`, no post is made and nothing runs it again.
- PlayController.Controller.UploadFiles: the instance name is converted to text, as URL concatenation does, before the chain runs.
- PlayController.Controller.UploadSettled: it states the file taken and the phase. The status line and the posted URLs are stated by `Upload.UploadChain.Next`.
- PlayController.Controller.RunListeners: the state effect is stated for a list of at most one callback. For longer lists only the call log is stated. `connect` registers one callback per event name, so every frame the page receives is covered.
- PlayController.Controller.MessageReceived: as for `RunListeners`, the state effect is stated for names with one callback, which are all the names the page registers.
- Upload.UploadChain.Settle: it states the shrinking of the chain and the totals. It omits the exact URL appended, which is stated by `Upload.UploadChain.Next`.
- Goroutines, the mutex, the ticker and `time.Now` in the session timer: concurrency and the clock become explicit `Run`, `TickOnce`, `Cancelled` and `Exit` steps. The contents of the cancel function are a handle number.
- SessionTimer.TickDecision: the remaining time is an unbounded integer number of nanoseconds. The `int64` range of `time.Duration` and the float truncation in `Hours()`, `Minutes()` and `Seconds()` are not modelled; both agree with integer division for non-negative values within range.
- The order among timers that fire at once: a pending `$timeout` callback may be fired in any order the environment chooses.
