# sundash in Dafny

sundash is a server-driven UI framework. A Python server keeps a layout of
components, one per browser connection. It pushes commands such as
`UpdateLayout` and `SetVar` over a WebSocket as `<Name> <json>` frames. The
browser renders the layout and answers with events such as `ButtonClick`
and `InputUpdated`, which the server dispatches to component callbacks.
The repository holds several incompatible drafts of this engine. Each draft
is modelled on its own terms, one Dafny module per source file:

| module | source file | flavour |
|---|---|---|
| `Messages` | sundash/messages.py | datatypes and functions over an explicit class table |
| `Sessions` | sundash/sessions.py | id counter and context binding as classes; framing and parsing as functions |
| `Apps` | sundash/app.py | callback registry, routed `Layout` and `App` as classes; pages as values |
| `Layouts` | sundash/layout.py | per-connection components and layout as classes; collaborators as an effect log |
| `Core` | sundash/core.py | event-callback and system-hook tables as classes; the loops as methods returning their steps |
| `Scheduler` | sundash/scheduler.py | the scheduled-session dict as a class; one scheduler pass as a method |
| `SignalBus` | sundash/_bus.py | the signal queue and handler sets as a class; listener and tick loops as methods |
| `BusOld` | sundash/bus_OLD.py | Signal enum values, `Request.parse`, the shared handler table |
| `Bus` | sundash/bus.py | Signal and Command enums, `handle_request` |
| `StrEnums` | sundash/bus_OLD.py, sundash/bus.py | how `enum.StrEnum` gives `auto()` members their values |
| `Utils` | sundash/utils.py | reflection helpers as functions |
| `Tables` | sundash/tables.py | the table renderer, with a decoder as its inverse |
| `Html` | sundash/html.py | the tag helpers over `str.format` templates, with a params decoder as inverse |
| `Client` | sundash/web/client.js | the `#app` element as a class; frame splitting and placeholder substitution |
| `Text`, `Common` | (shared) | Python and JavaScript string built-ins; `Result`/`Option` and set enumeration |

Conventions used throughout:

- Every `await` is one sequential step.
- The current session or connection is an explicit argument. In the
  source it is a context variable.
- A callback is identified by name. Dispatch methods do not run callbacks:
  they return the sequence of callbacks they would await, in order. Which
  callbacks raise is a predicate parameter (`raises`); a loop that awaits
  callbacks without catching stops after the first one that raises.
- A Python exception is the `Failure` of a `Result`, named after the
  exception class (`KeyError`, `ValueError`, `RuntimeError`, `TypeError`,
  `SessionClosed`).
- Where Python iterates a `set`, the iteration order is unspecified. The
  method returns that order as a ghost sequence and promises only that it
  lists the set exactly once (`Common.Enumerates`).
- layout.py imports `subscribe`, `unsubscribe` and `send_command` from
  core.py and `get_connection` from server.py, but neither module defines
  them (core2.py has module-level `send_command` and `subscribe`, which
  layout.py does not import). These calls, and layout.py's calls of
  core.py's `on` (sundash/core.py:151-156), are modelled as an effect log.
  Each call appends one entry to the log.

## Model

| member | source | states |
|---|---|---|
| Messages.FieldMap | sundash/messages.py:13 | `asdict` of a record: the keys are exactly the declared fields |
| Messages.FieldMapAt | sundash/messages.py:13 | a field that no later field repeats maps to the value at its own position (later names win) |
| Messages.FieldMapValues | sundash/messages.py:13 | with distinct field names, each field maps to the value at its own position |
| Messages.DataOf | sundash/messages.py:13 | `_data` maps exactly the message's declared fields to their current values |
| Messages.DirectSubclasses | sundash/messages.py:24 | `Event.__subclasses__()` holds exactly the classes whose direct base is Event |
| Messages.LookupLast | sundash/messages.py:24 | the dict comprehension keyed by class name: None exactly when no class has the name; otherwise a class with that name |
| Messages.GetEventByName | sundash/messages.py:22-24 | `get_by_name` returns a direct Event subclass with that name; KeyError exactly when no direct Event subclass has it |
| Messages.FromKwargs | sundash/sessions.py:77 | a dataclass built from keywords: it succeeds exactly when the keywords are the declared fields (TypeError otherwise), each field taking the value given under its name |
| Messages.FromKwargsOfData | sundash/messages.py:13 | rebuilding a message from its own `_data` gives the message back |
| Messages.GetEventNeverCommand | sundash/messages.py:16-31 | `get_by_name` never yields a Command class |
| Messages.GrandchildNeverFound | sundash/messages.py:24 | a grandchild of Event is never found by name |
| Utils.GetClassName | sundash/utils.py:11-16 | `get_f_cls_name`: None iff the qualname has no dot; RuntimeError iff it has two or more dots; with one dot, the dot-free text before the dot |
| Sessions.IdCounter.constructor | sundash/sessions.py:62 | the class counter starts at 0 |
| Sessions.IdCounter.NewId | sundash/sessions.py:64-67 | `new_id` returns one more than the previous value and stores it |
| Sessions.Session.constructor | sundash/sessions.py:69-71 | a new session draws a fresh counter value; its id is that value in decimal |
| Sessions.TwoSessionsDistinctIds | sundash/sessions.py:64-71 | two sessions made one after the other have different ids |
| Sessions.FrameRoundTrip | sundash/sessions.py:73-90 | splitting `name + " " + payload` at the first space gives back name and payload when the name has no space |
| Sessions.EventOf | sundash/sessions.py:77 | `event_cls(**json.loads(data))`: ValueError when the payload is not JSON, TypeError when it decodes to something other than a dict, otherwise construction from the dict's keywords |
| Sessions.ParseEvent | sundash/sessions.py:73-77 | `_parse_event`: ValueError when the frame has no space; on success, a registered Event class named by the text before the first space, built from the decoded rest |
| Sessions.ParseEventOfFrame | sundash/sessions.py:73-77 | an event's frame whose payload decodes to the event's `_data` parses back to that same event |
| Sessions.ParseEventBadPayload | sundash/sessions.py:77 | a registered name with a payload that is not JSON fails with ValueError; one that is not an object with exactly the class's fields fails with TypeError |
| Sessions.ParseEventUnknownName | sundash/sessions.py:73-75 | a frame whose name is no Event class fails with KeyError naming it, whatever its payload |
| Sessions.ListenEvent | sundash/sessions.py:79-85 | `_listen_event`: SessionClosed exactly on a transport disconnect; a success is the parse of a received frame |
| Sessions.LogCopy | sundash/sessions.py:53-56 | the log copy keeps every key, replaces only `html` with `'...'`, and leaves the other values unchanged |
| Sessions.Session.SendCommand | sundash/sessions.py:50-58 | `send_command` writes exactly one frame `<class name> <dumps(data)>` with the full data, then logs the elided copy |
| Sessions.SessionContext.constructor | sundash/sessions.py:20 | the `_session` variable starts unset |
| Sessions.SessionContext.Get | sundash/sessions.py:34-36 | `get` fails with LookupError exactly while unset; otherwise it returns the bound session |
| Sessions.Session.Enter | sundash/sessions.py:27-29 | after entering, `get` returns this session, and entering returns the session itself |
| Sessions.Session.Exit | sundash/sessions.py:31-32 | after exiting, `get` returns None |
| Apps.UpdateLayoutCommand | sundash/app.py:21-24 | an UpdateLayout command is a well-formed record of its two fields |
| Apps.SetVarCommand | sundash/app.py:31-34 | a SetVar command is a well-formed record of its two fields |
| Apps.DeclaringClassSpec | sundash/app.py:64-67 | `on` accepts exactly unbound functions whose qualname has one dot and a non-empty class part; the class part is the dot-free text before the dot |
| Apps.ComponentRegistry.constructor | sundash/app.py:59 | the registry starts empty |
| Apps.ComponentRegistry.On | sundash/app.py:62-73 | `on` appends (event class, method name) under the declaring class and returns the callback; otherwise RuntimeError with the registry unchanged |
| Apps.KeepKindAppend | sundash/app.py:108-112 | filtering by event kind distributes over concatenated callback maps |
| Apps.KeepKindOfComponent | sundash/app.py:85-91 | filtering a component's callbacks by kind keeps exactly its registry entries for that kind |
| Apps.KeepKindOfPage | sundash/app.py:107-112 | filtering the page's callback map by kind gives the page-then-registration order of matching callbacks |
| Apps.MatchingCallbacksSound | sundash/app.py:214-217 | every callback `on_event` awaits belongs to a page component and was registered for that event class |
| Apps.MatchingEntriesSound | sundash/app.py:215-216 | a matching callback comes from this component and from an entry for the event class |
| Apps.UpdateVar | sundash/app.py:93-95 | `update_var` sends exactly one SetVar frame with the name and current value; AttributeError and nothing sent when the variable is absent |
| Apps.ConvertToPage | sundash/app.py:119-128 | one component per raw item, in order: a string becomes an HTMLComponent with that html; a class is instantiated with its own defaults |
| Apps.PageHtmlAppend | sundash/app.py:155-157 | the page html is the in-order concatenation of component html |
| Apps.PageVarsLastWins | sundash/app.py:159-164 | a variable is present iff some component has it, and its value comes from the last component declaring it |
| Apps.FirstRouteStays | sundash/app.py:142-144 | after adding routes in order starting from none, the first (non-empty) route is current |
| Apps.Layout.constructor | sundash/app.py:135-140 | a new layout has no current route; it has no pages, or, given a raw page, exactly that page converted under the route None |
| Apps.Layout.AddPage | sundash/app.py:142-146 | sets the current route only while it is falsy, stores the conversion of the raw page under that route (overwriting), leaves other pages alone |
| Apps.Layout.SwitchPage | sundash/app.py:148-149 | sets the current route, unchecked, and nothing else |
| Apps.Layout.CurrentPage | sundash/app.py:151-153 | the current route's page, the route None included; KeyError when the current route has no page |
| Apps.Layout.Vars | sundash/app.py:159-164 | the loop computes the last-wins union of the current page's variables |
| Apps.Layout.CallbacksMap | sundash/app.py:166-168 | the loop computes the current page's callbacks in component order; the current page's KeyError when there is none |
| Apps.Layout.SendUpdate | sundash/app.py:170-173 | exactly one UpdateLayout frame with the current page's html and variables; nothing sent when there is no current page |
| Apps.RouteSetSpec | sundash/app.py:220 | the route set is exactly the routes listed in `raw_pages` |
| Apps.BuildLayout | sundash/app.py:204-206 | a fresh layout holding, under each route of `raw_pages` and no other, the conversion of that route's raw page; its current route is the first one added |
| Apps.App.constructor | sundash/app.py:188-189 | an app holds its raw pages and no layout yet |
| Apps.App.OnSessionOpen | sundash/app.py:203-209 | stores a fresh layout holding the conversion of every raw page under its route, then sends exactly one UpdateLayout of its current page |
| Apps.ConvertedPageHtml | sundash/app.py:155-157 | a converted page renders to the raw page's own markup, item by item in order |
| Apps.FirstPageCurrent | sundash/app.py:203-209 | after `on_session_open` the first route is current and the page it shows is the conversion of the first raw page, with that page's markup |
| Apps.App.OnSessionClose | sundash/app.py:211-212 | the layout slot is set to None |
| Apps.App.CurrentLayout | sundash/app.py:195-201 | the stored layout; a failure when none is set |
| Apps.AwaitMatching | sundash/app.py:215-217 | awaits the map's callbacks for the event's class, in order, up to and including the first that raises, and then fails with its exception |
| Apps.KeepKindPrefix | sundash/app.py:215-217 | filtering a beginning of a callbacks map gives a beginning of the filtered map |
| Apps.App.OnEvent | sundash/app.py:214-217 | awaits the current page's callbacks whose event class equals the event's, in page-then-registration order, until one raises, whose exception it then raises; the layout's LookupError, AttributeError or KeyError with nothing awaited when there is no layout or current page |
| Apps.App.SwitchPage | sundash/app.py:219-224 | ValueError with nothing sent and the route unchanged for an unknown route; the layout slot and its pages are never changed; a known route becomes current, and succeeds exactly when the layout holds a page for it (KeyError otherwise, nothing sent), sending one UpdateLayout of that page |
| Layouts.Collaborators.constructor | sundash/layout.py:6-16 | the collaborator log starts empty |
| Layouts.ActiveSnoc | sundash/layout.py:94-100 | subscribe adds exactly its pair, unsubscribe removes exactly its pair, other calls change no subscription |
| Layouts.WrapperIsolation | sundash/layout.py:71-78 | the wrapper calls the method once exactly when the current connection is the component's own, and otherwise calls nothing |
| Layouts.CallbackTable.constructor | sundash/layout.py:61 | the shared triple set starts empty |
| Layouts.CallbackTable.Schedule | sundash/layout.py:80-84 | a set insert; scheduling a triple already present changes nothing |
| Layouts.Component.constructor | sundash/layout.py:63-69 | a component takes its class's `Vars` defaults and the current connection id |
| Layouts.Component.CallbacksMap | sundash/layout.py:86-92 | exactly the triples whose class name is the component's own class name |
| Layouts.Component.SubscribeCallbacks | sundash/layout.py:94-96 | one subscribe per map entry, each with the connection-filtering wrapper; afterwards exactly those wrappers are added to what is subscribed |
| Layouts.Component.SubscribesActive | sundash/layout.py:94-96 | replaying the subscribe calls of an enumeration adds exactly the wrappers of the enumerated entries |
| Layouts.Component.UnsubscribeCallbacksAsWritten | sundash/layout.py:98-100 | one unsubscribe per map entry, each with the bare bound method |
| Layouts.AsWrittenTeardownLeavesWrapper | sundash/layout.py:94-100 | after subscribe then the as-written unsubscribe, the wrapper is still subscribed |
| Layouts.Component.UnsubscribeCallbacks | sundash/layout.py:98-100 | the intended unsubscribe: the log gains one unsubscribe per map entry, in iteration order, with the wrapper; the active subscriptions lose exactly this component's wrapped pairs |
| Layouts.Component.UnsubscribesActive | sundash/layout.py:98-100 | a run of unsubscribe effects removes exactly the unsubscribed pairs from the active set |
| Layouts.UnsubscribeAll | sundash/layout.py:147-148 | with the intended unsubscribe (see Findings): unsubscribing each component of a session in order appends their unsubscribe effects in order and removes exactly the session's subscriptions |
| Layouts.Component.Set | sundash/layout.py:102-104 | stores the value under the key and sends exactly one SET_VAR with that key and value to the current connection |
| Layouts.ClassesVarsLastWins | sundash/layout.py:134-136 | the merged variables take, for each name, the default of the last class declaring it |
| Layouts.Instantiate | sundash/layout.py:129-130 | a fresh component of the class for the connection, after which exactly its wrappers are added to the subscriptions, each filtered to that connection |
| Layouts.Materialise | sundash/layout.py:127-132 | one fresh component per class, in order, owned by the connection and holding its defaults; the subscriptions gained are exactly the components' wrappers, each filtered to that connection; RuntimeError exactly when some class has no dataclass `Vars`, with the earlier components still subscribed (a `Vars` field without a default is not modelled) |
| Layouts.SessionSubscriptionsSpec | sundash/layout.py:127-132 | a session's subscriptions are, for each component and each table entry of its class, that component's wrapper under that signal, and nothing else |
| Layouts.MergeVars | sundash/layout.py:134-136 | the loop computes the last-wins union of the components' variables, which are their classes' defaults |
| Layouts.Layout.Publish | sundash/layout.py:138-143 | stores the components under the connection and sends exactly one UPDATE_LAYOUT with the in-order html and the merged variables; subscriptions unchanged |
| Layouts.Layout.constructor | sundash/layout.py:110-114 | an empty layout with `open_session`/`close_session` hooked on connect/disconnect |
| Layouts.Layout.Append | sundash/layout.py:116-125 | an HTML string becomes an HTMLComponent class with that html; a class is kept as given; it goes at the end and nothing else changes |
| Layouts.Layout.OpenSession | sundash/layout.py:127-143 | stores fresh components of the layout's classes under the connection, leaves other entries alone, adds exactly their wrappers to the subscriptions, and sends exactly one UPDATE_LAYOUT with the in-order html and the last-wins variables; RuntimeError stores and sends nothing (a `Vars` field without a default is not modelled) |
| Layouts.Layout.CloseSession | sundash/layout.py:145-150 | with the intended unsubscribe (see Findings): KeyError with nothing changed for an unknown connection; otherwise removes only its entry, appends the in-order unsubscribe effects of its components, and the active subscriptions lose exactly the session's subscriptions |
| Core.CallbacksAfter | sundash/core.py:140-148 | a name's callbacks are exactly those registered under it, duplicates included; empty for a name never registered |
| Core.CallbacksAfterAppend | sundash/core.py:144-148 | registrations append: later callbacks follow earlier ones |
| Core.EventCallbacks.constructor | sundash/core.py:137 | the callback table starts empty |
| Core.EventCallbacks.Register | sundash/core.py:144-148 | appends the callback to its name's list and leaves every other name's list unchanged |
| Core.EventCallbacks.On | sundash/core.py:151-156 | registers under the event class name and returns the callback unchanged |
| Core.DispatchStepsAppend | sundash/core.py:109-115 | draining the queue is FIFO: the steps for two batches are the steps of the first, then of the second |
| Core.DispatchStepsSound | sundash/core.py:109-115 | every dispatch step delivers a queued event to a callback registered for its name |
| Core.EventCallbacks.DispatchEvents | sundash/core.py:109-115 | the dispatcher awaits each event's callbacks in registration order before taking the next event, and stops at the first callback that raises: what it delivers is the full FIFO dispatch up to and including that call, each delivery going to a callback registered for the event's name |
| Core.DispatchPrefix | sundash/core.py:109-115 | dispatching the first events of the queue is how dispatching the whole queue begins |
| Core.DeliveriesSound | sundash/core.py:109-115 | every step of a beginning of the dispatch delivers a queued event to a callback registered for its name |
| Core.HookAfter | sundash/core.py:83-91 | a hook never replaced is the no-op placeholder (for the three system names) and absent otherwise; a replaced hook is a registered one |
| Core.HookAfterLastWins | sundash/core.py:90-91 | the last registration under a name wins |
| Core.SystemCallbacks.constructor | sundash/core.py:83-87 | the hook table starts with only the three placeholders |
| Core.SystemCallbacks.Register | sundash/core.py:90-91 | replaces that name's hook and leaves the others unchanged |
| Core.SystemCallbacks.Run | sundash/core.py:94-95 | KeyError exactly for an unknown name; a placeholder runs as no step; otherwise one run of the current hook |
| Core.EventsBeforeStop | sundash/core.py:98-106 | the listener reads events until the first receive that raises |
| Core.ListenStepsBound | sundash/core.py:101-106 | the listener delivers nothing itself; each queued event and each `on_event` run carries the reading session's context |
| Core.ListenEvents | sundash/core.py:98-106 | runs `on_event` then queues each event, in read order, and stops on SessionClosed or another error |
| Core.OnSession | sundash/core.py:118-132 | `on_session_open` first, then listening, then dispatching up to the first callback that raises; `on_session_closed` runs last exactly when the task is cancelled or both tasks have ended (the listener stopped and a callback raised) |
| Core.OnSessionClosedOnlyAtEnd | sundash/core.py:118-132 | no `on_session_closed` run happens among the opening hook, the listener's steps or any part of the dispatch |
| Common.PrefixUntilFirst | sundash/core.py:109-115 | a loop that stops after the first raising call has run the whole sequence up to and including that call, and failed exactly when some call raises |
| Common.UntilFirstPrefix | sundash/core.py:109-115 | what runs before the stop is a beginning of the whole sequence, and is all of it exactly when no call raises |
| Scheduler.IndexOf | sundash/scheduler.py:15 | the position of a session id in the dict's insertion order, None exactly when absent |
| Scheduler.AsMapLookup | sundash/scheduler.py:15 | the dict view of the ordered entries holds an id exactly when it is listed, with that entry's session |
| Scheduler.ScheduledSessions.constructor | sundash/scheduler.py:15 | no session is scheduled at first |
| Scheduler.ScheduledSessions.Open | sundash/scheduler.py:20-22 | the session is stored under its id, other entries unchanged; a new id goes last, a known id keeps its place |
| Scheduler.AsMapUpdate | sundash/scheduler.py:22 | overwriting an entry in place is the dict update |
| Scheduler.ScheduledSessions.Close | sundash/scheduler.py:24-26 | removes that id and nothing else; KeyError with nothing changed when absent |
| Scheduler.DistinctIdsRemove | sundash/scheduler.py:26 | removing an entry keeps ids distinct |
| Scheduler.AsMapRemove | sundash/scheduler.py:26 | removing an entry in place is the dict pop |
| Scheduler.PassTicks | sundash/scheduler.py:29-40 | one EVERY_SECOND per scheduled session, in insertion order, bound to that session; a pass ends early only right after a tick that raised |
| Scheduler.ScheduledSessions.Pass | sundash/scheduler.py:28-40 | one pass dispatches the ticks of `PassTicks` and reports whether the loop stopped |
| Scheduler.PassTicksStop | sundash/scheduler.py:39-40 | a pass stops at the first tick that raises and dispatches nothing after it |
| SignalBus.DeliveriesAppend | sundash/_bus.py:57-65 | the listener is FIFO: deliveries for two batches are those of the first, then of the second |
| SignalBus.DeliveriesSnoc | sundash/_bus.py:57-65 | handling one more message appends exactly its handler calls |
| SignalBus.HandledStep | sundash/_bus.py:56-68 | handling the next message keeps the listener invariant, including when a handler raises |
| SignalBus.CallsPrefix | sundash/_bus.py:64-65 | the calls made before stopping are a prefix of the full calls |
| SignalBus.Bus.constructor | sundash/_bus.py:37-38 | empty queue and no handlers |
| SignalBus.Bus.EmitSignal | sundash/_bus.py:41-42 | enqueues exactly one message, with `{}` when data is missing |
| SignalBus.Bus.CallCommand | sundash/_bus.py:45-46 | enqueues one CMD_CALL whose data holds the command and its params (`{}` when missing) |
| SignalBus.Bus.AddHandler | sundash/_bus.py:49-50 | a set insert into that signal's handlers; adding a handler twice changes nothing |
| SignalBus.Bus.RunHandlers | sundash/_bus.py:64-65 | each handler of the signal is awaited once with the data, stopping at the first that raises |
| SignalBus.Bus.Listen | sundash/_bus.py:53-68 | messages are taken FIFO, a signal without handlers is skipped, every handler gets the data once; a raising handler ends the loop with the rest of the queue left |
| SignalBus.Bus.OnTick | sundash/_bus.py:71-78 | every EVERY_SECOND handler is called with `{}`; nothing happens when none is registered |
| StrEnums.MemberNames | sundash/bus_OLD.py:25-30 | the members, in declaration order |
| StrEnums.MemberNamesOfAutos | sundash/bus.py:24-27 | a body of `auto()` members declares exactly those names |
| StrEnums.HookFirst | sundash/bus_OLD.py:21-30 | a hook before the members gives upper-cased values |
| StrEnums.NoHook | sundash/bus.py:24-27 | without a hook, values are the lower-cased names |
| StrEnums.HookLast | sundash/bus.py:9-18 | a hook after a member makes class creation fail with TypeError |
| StrEnums.ByValue | sundash/bus.py:39 | `Signal(text)` returns a member with that value; ValueError exactly when none has it |
| StrEnums.ByValueDistinct | sundash/bus_OLD.py:54 | with distinct values, looking up a member's value returns that member |
| BusOld.SignalNamesUpper | sundash/bus_OLD.py:25-30 | the Signal names are already upper case |
| BusOld.SignalNamesDistinct | sundash/bus_OLD.py:25-30 | the Signal names are distinct and contain no space |
| BusOld.Signals | sundash/bus_OLD.py:21-30 | each Signal member's value is its own name, e.g. `'EVERY_SECOND'` |
| BusOld.ParseWith | sundash/bus_OLD.py:51-54 | `Request.parse`: ValueError when there is no space or the signal text is no Signal value; on success the frame is exactly `value + " " + payload` and the data is the decoded payload |
| BusOld.ParseWithOfFrame | sundash/bus_OLD.py:51-54 | a frame built from a signal value and a decodable payload parses back to that signal and data |
| BusOld.ParseOfFrame | sundash/bus_OLD.py:51-54 | the same round trip over the Signal class itself |
| BusOld.HandlerTable.constructor | sundash/bus_OLD.py:60 | the class-level table starts empty |
| BusOld.BusManager.constructor | sundash/bus_OLD.py:57-60 | every manager uses the one class-level table |
| BusOld.BusManager.AddHandler | sundash/bus_OLD.py:62-63 | one handler per signal; a later call replaces the earlier one |
| BusOld.BusManager.HandleSignal | sundash/bus_OLD.py:65-70 | no call when the signal has no handler; otherwise exactly one call with the data |
| BusOld.BusManager.HandleRequest | sundash/bus_OLD.py:72-74 | a parse failure propagates; otherwise the parsed signal's handler, if any, is called once with the parsed data |
| BusOld.SharedAcrossInstances | sundash/bus_OLD.py:60 | a handler added through one manager is called through another |
| Bus.SignalAsWritten | sundash/bus.py:9-18 | as written, creating the Signal class fails with TypeError |
| Bus.Signals | sundash/bus.py:9-18 | with the hook first, each Signal value is its own upper-case name |
| Bus.CommandNamesLower | sundash/bus.py:24-27 | the Command names are already lower case |
| Bus.CommandValues | sundash/bus.py:24-27 | each Command value equals its member name, e.g. `'update_var'` |
| Bus.BusManager.HandleRequest | sundash/bus.py:35-46 | `handle_request` only parses: ValueError on a bad frame; otherwise a Signal member and the decoded payload of `value + " " + payload` |
| Tables.RenderTable | sundash/tables.py:20-28 | ValueError exactly for empty data; otherwise the table markup of the datasheet |
| Tables.NewTable | sundash/tables.py:37-42 | ValueError without `table_data`; otherwise a component whose html is the rendered table |
| Tables.DecodeCells | sundash/tables.py:11-12 | the decoder of a run of cells never grows its input |
| Tables.DecodeRow | sundash/tables.py:13 | the row decoder consumes a non-empty prefix |
| Tables.TemplatesAreTagPairs | sundash/tables.py:10-13 | the four templates each open with `<` and close with `</` |
| Tables.CloseIsNotOpen | sundash/tables.py:10-13 | a closing tag is never mistaken for an opening one |
| Tables.DecodeCellsStep | sundash/tables.py:11-12 | decoding a filled cell yields that cell, then decoding continues after it |
| Tables.CellsFront | sundash/tables.py:16-17 | the joined cells are the first cell followed by the rest |
| Tables.CellsOnIsConcat | sundash/tables.py:16-17 | the cell text is the join of the filled cells |
| Tables.DecodeCellsOfCells | sundash/tables.py:16-17 | decoding the joined cells of a row gives back the row when no cell contains `<` |
| Tables.DecodeRowOfText | sundash/tables.py:13 | a `<tr>` around decodable cells decodes to that row |
| Tables.DecodeRowOfRow | sundash/tables.py:16-17 | decoding `tr` of a row's cells gives back the row |
| Tables.BodyTextIsConcat | sundash/tables.py:24-26 | the body text is the concatenation of the body rows |
| Tables.DecodeRowsOfRows | sundash/tables.py:24-26 | decoding the body gives back the rows |
| Tables.DecodeTableOfInner | sundash/tables.py:28 | a `<table>` around a header row and decodable rows decodes to the header then the rows |
| Tables.DecodeTableOfTable | sundash/tables.py:20-28 | decoding the rendered table gives back the datasheet when no cell contains `<` |
| Tables.HeaderOnly | sundash/tables.py:24-28 | data holding only a header renders just that header row inside the table |
| Html.Format | sundash/html.py:28-39 | `str.format`: KeyError naming the first field the arguments lack, and only then |
| Html.FirstMissingShift | sundash/html.py:28-39 | the first missing field of the template's tail is the first missing field of the whole template when its head is fine |
| Html.FormatTwoSlots | sundash/html.py:17-21 | filling a two-slot tag puts the params text and the slot argument verbatim between its literals |
| Html.Button | sundash/html.py:42 | `button` is `<button params>inner</button>`, with the corrected `_html_params` (see Findings) |
| Html.Th | sundash/html.py:46 | `th` is `<th params>inner</th>`, with the corrected `_html_params` (see Findings) |
| Html.Td | sundash/html.py:47 | `td` is `<td params>inner</td>`, with the corrected `_html_params` (see Findings) |
| Html.Table | sundash/html.py:44 | `table` puts the in-order concatenation of its items in `<table params>…</table>`, with the corrected `_html_params` (see Findings) |
| Html.Tr | sundash/html.py:45 | `tr` puts the in-order concatenation of its items in `<tr params>…</tr>`, with the corrected `_html_params` (see Findings) |
| Html.TextTagOverContainer | sundash/html.py:35-39 | a text tag over a container template fails with KeyError `items` |
| Html.ContainerTagOverText | sundash/html.py:28-32 | a container tag over a text template fails with KeyError `inner` |
| Html.ButtonWithoutParams | sundash/html.py:42 | `button('x')` is `<button >x</button>` |
| Html.ParamTextDecodes | sundash/html.py:24-25 | one `name=value ` entry splits back into its name and value |
| Html.HtmlParamsFront | sundash/html.py:24-25 | the params text is the first entry followed by the rest |
| Html.DecodeParamsStep | sundash/html.py:24-25 | decoding an entry then the rest gives the entry before the rest's decoding |
| Html.PlainParamsTail | sundash/html.py:24-25 | the rest of plain params is plain |
| Html.DecodeParamsRoundTrip | sundash/html.py:24-25 | the intended params text decodes back to the keyword arguments, in order |
| Html.DecodeOne | sundash/html.py:24-25 | a single `name=value ` decodes to that one argument |
| Html.ParamsIgnoredAsWritten | sundash/html.py:24-25 | as written, the params text depends only on how many arguments there are |
| Html.AsWrittenOne | sundash/html.py:24-25 | as written, one argument renders as the literal `{k}={v} ` |
| Html.ButtonAsWritten | sundash/html.py:24-25 | as written, `button(inner, name=value)` is `<button {k}={v} >inner</button>` |
| Html.ButtonIntended | sundash/html.py:24-25 | as intended, `button(inner, name=value)` is `<button name=value >inner</button>` |
| Html.DecodeAsWritten | sundash/html.py:24-25 | as written, whatever the argument, the params text reads back as `{k}` = `{v}` |
| Client.Get | sundash/web/client.js:86-87 | an object lookup: absent iff no field has the key; otherwise a value stored under it |
| Client.Assign | sundash/web/client.js:100 | after assignment the key has the new value, every other key is unchanged, and a new key goes last |
| Client.SplitFrame | sundash/web/client.js:8-9 | the name is the text before the first space and the payload the rest, spaces kept; no space gives an empty payload |
| Client.SplitFrameOfFrame | sundash/web/client.js:8-9 | the client split inverts the server's `<name> <payload>` framing |
| Client.Render | sundash/web/client.js:85-89 | the loop replaces, for each variable in order, the first `{{ key }}` with its value |
| Client.LayoutPayload | sundash/web/client.js:82-83 | an UpdateLayout payload is accepted exactly when it is an object with a string `html` and an object `vars`, and yields those two |
| Client.VarPayload | sundash/web/client.js:100-101 | `data.name` and `data.value` throw only on `null` or `undefined`; a field that is missing reads as `undefined`, and a name becomes its text as a key |
| Client.Page.constructor | sundash/web/client.js:49 | the page starts with no template, no variables, and nothing sent |
| Client.Page.ClearLayout | sundash/web/client.js:52-55 | empties the page and sends `LayoutClean {}` |
| Client.Page.UpdateLayout | sundash/web/client.js:80-96 | stores template and variables, shows the substituted template, sends `LayoutUpdated {}`, and leaves the page consistent; a refused payload leaves the page cleared |
| Client.Page.SetVarAsWritten | sundash/web/client.js:99-106 | stores the variable, shows the raw template with only that variable's first placeholder replaced, sends `VarSet {}`; TypeError on a `null` payload or before the first layout |
| Client.Page.SetVar | sundash/web/client.js:99-106 | the intended `set_var`: stores the variable and re-renders with every stored variable, so the page stays consistent |
| Client.Page.OnMessage | sundash/web/client.js:7-28 | a payload `JSON.parse` rejects (including a frame with no space) throws; ClearLayout always succeeds with ClearLayout's state; UpdateLayout succeeds exactly on a valid layout payload, with UpdateLayout's state, and otherwise throws TypeError with the page emptied; SetVar is `set_var` as written (raw template, one placeholder), with its success condition, stored variable and TypeError cases; any other name is a dispatching error that changes nothing |
| Client.Page.ButtonClicked | sundash/web/client.js:61-63 | sends exactly one `ButtonClick` frame with the button id |
| Client.Page.InputChanged | sundash/web/client.js:72-73 | sends exactly one `InputUpdated` frame with the input's name and value |
| Client.OnlyFirstPlaceholder | sundash/web/client.js:88 | only the first occurrence of a placeholder is replaced |
| Client.SubstituteAbsent | sundash/web/client.js:85-89 | a template without placeholders renders unchanged |
| Client.FirstOccurrenceAfter | sundash/web/client.js:88 | a placeholder after brace-free text first occurs right after that text |
| Client.ReplaceAfter | sundash/web/client.js:88 | replacing it swaps exactly that occurrence |
| Client.SubstituteTwo | sundash/web/client.js:85-89 | rendering two variables replaces the first's placeholder and then the second's |
| Client.AssignFirstOfTwo | sundash/web/client.js:100 | assigning the first of two keys keeps their order and the other value |
| Client.PlaceholderDiffers | sundash/web/client.js:101 | a raw placeholder is never the same text as a brace-free value |
| Client.AsWrittenTwo | sundash/web/client.js:101 | as written, updating the first of two placeholders leaves the second raw |
| Client.ConsistentTwo | sundash/web/client.js:85-89 | re-rendering the two-variable template from the stored variables shows both values |
| Client.SetVarAsWrittenLosesOthers | sundash/web/client.js:99-101 | the as-written page differs from the consistent rendering |
| Client.AppNamesDistinct | sundash/app.py:21-49 | the message classes app.py declares have distinct names |
| Client.AppEventFrameParses | sundash/web/client.js:54-105 | a client frame named after an app Event class, whose payload decodes to an event's fields, parses on the server to that event |
| Client.ButtonClickFrameParses | sundash/web/client.js:62 | the ButtonClick frame parses to the ButtonClick event carrying the button id |
| Client.InputUpdatedFrameParses | sundash/web/client.js:73 | the InputUpdated frame parses to the InputUpdated event carrying the name and value |
| Client.LayoutUpdatedFrameParses | sundash/web/client.js:95 | the `LayoutUpdated {}` frame parses to a LayoutUpdated event |
| Client.VarSetFrameParses | sundash/web/client.js:105 | the `VarSet {}` frame parses to a VarSet event |
| Client.LayoutCleanUnknown | sundash/web/client.js:54 | `LayoutClean {}` names no app event class, so the server rejects it with KeyError |
| Text.FirstIndex | sundash/sessions.py:74 | the first position of a character, None exactly when it is absent |
| Text.SplitFirst | sundash/sessions.py:74 | `split(c, 1)`: None iff there is no separator; otherwise a separator-free head, the separator, and the tail make up the text |
| Text.SplitFirstOfConcat | sundash/sessions.py:74 | splitting `head + c + tail` with a separator-free head gives them back |
| Text.Split | sundash/utils.py:12 | `str.split` returns at least one piece |
| Text.JoinSplit | sundash/utils.py:12 | joining the pieces with the separator gives back the text |
| Text.SplitCount | sundash/utils.py:12-13 | there is one more piece than separators, and no piece holds the separator |
| Text.ConcatAppend | sundash/app.py:157 | `''.join` distributes over concatenated lists |
| Text.FindFrom | sundash/web/client.js:88 | the first occurrence of a pattern at or after a position, None when there is none |
| Text.ReplaceFirst | sundash/web/client.js:88 | JavaScript `replace` with a string pattern: only the first occurrence is replaced; no occurrence leaves the text unchanged |
| Text.Decimal | sundash/sessions.py:70 | `str(n)` is a non-empty string of digits |
| Text.DecimalRoundTrip | sundash/sessions.py:70 | reading the digits back gives the number |
| Text.DecimalInjective | sundash/sessions.py:70 | different numbers give different id strings |
| Text.UpperIdentity | sundash/bus_OLD.py:23 | upper-casing text without lower-case letters changes nothing |
| Text.LowerIdentity | sundash/bus.py:24-27 | lower-casing text without upper-case letters changes nothing |
| Common.CompleteEnumeration | sundash/_bus.py:64-65 | a partial enumeration of a set extends to a full one |

## Left out

- Utils.GetSelf: has no contract of its own; `get_f_self` is the `boundSelf` field of a callable, and a missing `__self__` is the absence of that field.
- Python reflection is replaced by explicit tables: `__subclasses__`, `__qualname__`, `getattr`, `is_dataclass` and `asdict`.
- Messages.LookupLast: finds a class whose name matches, but does not say which one when two classes share a name; the dict comprehension keeps the last one. Messages.GetEventByName inherits this.
- JSON is not modelled. `json.loads` is a parameter returning the decoded value or nothing. `json.dumps` is a function a session is built with. An inbound event payload stays text.
- The `logger` output is left out, and so is the whole logging setup. Only the `html` elision of the log copy is kept (`Sessions.LogCopy`).
- `AbstractSession.listen_event` is left out; only its log line differs from `_listen_event`. The copies of `AbstractSession`, `EVENT` and `COMMAND` in core.py (sundash/core.py:17-77) are not modelled separately, because sessions.py and messages.py define the same behaviour.
- Real task scheduling is not modelled: `asyncio.sleep`, `create_task`, `cancel`, `asyncio.wait`, and ContextVar scoping per task. Each await is one step, and the current session or connection is an argument.
- Core.OnSession: models one schedule of the two tasks, the listener running to its stop and the dispatcher then draining the queue. Interleavings of the two loops are not modelled.
- Scheduler.ScheduledSessions.Pass: models one pass of the `while True` loop. The one-second sleep between passes and the cancellation of the task in `run` (sundash/scheduler.py:42-47) are left out.
- SignalBus.Bus.Listen: drains the queue as it stands. A listener waiting for messages that arrive later is not modelled, nor is the `on_tick` task it starts.
- Core.EventCallbacks.DispatchEvents: a callback that registers further callbacks for the same event name while the dispatch runs is not modelled. `get_event_callbacks` returns the live list (sundash/core.py:140-141), so Python would also call a callback appended during the loop.
- Core.OnSession: the system hooks (`on_session_open`, `on_event`, `on_session_closed`) are taken not to raise; only event callbacks may raise.
- Layouts: `on`, `subscribe`, `unsubscribe` and `send_command` are recorded as entries of an effect log (`Layouts.Collaborators`). The effect of `on` on Core's callback registry is not connected to `Core.EventCallbacks`.
- Layouts.Layout: `_sessions` is a class attribute shared by every Layout (sundash/layout.py:108); the model keeps it per Layout object.
- Sessions.EventOf: a dataclass does not check field types, and neither does the model. `json.loads` is a parameter, so what text decodes to what value is not modelled.
- Layouts.Layout.OpenSession: the current connection is the argument `conn`. `get_connection` is not defined in server.py, the module layout.py imports it from. A `Vars` dataclass with a field that has no default makes `self.Vars()` raise TypeError (sundash/layout.py:68); this second failure of `open_session` is not modelled, as for Materialise below.
- Layouts.Materialise: a component class is either without a dataclass `Vars` (RuntimeError) or with one whose every field has a default. The TypeError that `self.Vars()` raises for a field without a default (sundash/layout.py:68) is not modelled.
- Layouts.UnsubscribeAll: built on the intended `Component.UnsubscribeCallbacks` of the sundash/layout.py:98-100 Findings row. As written, each component unsubscribes its bare bound methods, which were never subscribed, so every wrapper of the session stays active (`Layouts.AsWrittenTeardownLeavesWrapper`).
- Layouts.Layout.CloseSession: uses `Layouts.UnsubscribeAll`, so it models the intended teardown of the sundash/layout.py:98-100 Findings row. As written, `close_session` removes the session's entry but leaves every one of its wrappers active (`Layouts.AsWrittenTeardownLeavesWrapper`).
- `Component.callback_wrapper`'s `functools.wraps` metadata copy is left out. Only the filtering on the connection is modelled (`Layouts.WrapperIsolation`).
- The server, its routing and the WebSocket itself are not part of this model: main.py, _server.py, server.py, __main__.py. Neither are logging.py, logger_.py, core2.py (stubs), _drafts.py (pseudo-code), web/app.js (connection logging only) and the examples.
- `App.run` stores the raw pages, then starts the server; `App.run_sync` and `SchedulerMixin.run` wrap it. Starting the server is left out.
- Apps.App.constructor: `rawPages` stands for what `run` stores in `raw_pages` (sundash/app.py:232-237). The `assert page or routed_pages` and the `'*'` route under which a single `page` is stored are not modelled; the routed pages are given directly.
- Apps.ConvertToPage: instantiating a component class is taken not to fail. A Table without `table_data` raises ValueError (sundash/tables.py:39-40), and a `Vars` dataclass with a field lacking a default raises TypeError (sundash/app.py:83); neither failure is modelled. A Table's html, computed when it is instantiated (sundash/tables.py:42), is taken to be the class's html.
- Html.Button: the params slot uses the corrected `_html_params` (`k=v ` per keyword, the Findings row), not the as-written literal `{k}={v} `; `Html.ButtonAsWritten` models the latter.
- Html.Th: the params slot uses the corrected `_html_params`, not the as-written literal `{k}={v} `.
- Html.Td: the params slot uses the corrected `_html_params`, not the as-written literal `{k}={v} `.
- Html.Table: the params slot uses the corrected `_html_params`, not the as-written literal `{k}={v} `.
- Html.Tr: the params slot uses the corrected `_html_params`, not the as-written literal `{k}={v} `.
- Html: `str(v)` of a non-string keyword value is left out; a value is given as its rendered text.
- Client.Page.UpdateLayout: a payload that is not `null` but lacks a string `html` or an object `vars` is modelled as a TypeError after the markup is cleared, with the stored template and variables unspecified. The browser stores whatever `data.html` and `data.vars` are, and then either renders them (`undefined` text, a `for…in` over a string's indices) or throws later.
- Client.Page.OnMessage: a payload that `JSON.parse` turns into `undefined` cannot occur; the model still treats it like `null`.
- Client: JavaScript `replace` treats `$` sequences in the replacement specially; the model inserts the value verbatim.
- Client: object key order is insertion order; the integer-like keys JavaScript orders first are not modelled. Array values and duplicate JSON keys are left out.
- Client: DOM work is left out: `_init_buttons`/`_init_inputs` binding, clearing the input after it changes, console logging, and the socket's open/close/error handlers. The outbound frames are kept as the frames `socket.send` would write; JSON escaping of the button id and input values is left out.
- Client.LayoutCleanUnknown: the `LayoutClean` frame that `clear_layout` sends names no Event class in app.py, so the server would reject it.
- sundash/core.py:118-132: a transport disconnect ends only the listener task. `asyncio.wait` waits for both tasks, and the dispatcher ends only when an event callback raises. So `on_session_closed` runs when the session task is cancelled, or once the listener has stopped and a callback has raised (`Core.OnSession`, `Core.OnSessionClosedOnlyAtEnd`). A disconnect alone does not trigger it.

## Findings

| source | as written | input that shows it | evidently intended | confidence | as-written member | corrected member |
|---|---|---|---|---|---|---|
| sundash/layout.py:98-100 | `unsubscribe_callbacks` unsubscribes the bare bound method, but `subscribe_callbacks` subscribed its connection wrapper | one component with one scheduled callback, opened then closed | closing a session removes exactly the wrappers it subscribed | not executed | Layouts.AsWrittenTeardownLeavesWrapper | Layouts.Component.UnsubscribeCallbacks |
| sundash/bus.py:9-18 | `Signal` declares `_generate_next_value_` after its `auto()` members, which Python 3.12 rejects with TypeError when the class is created | importing sundash/bus.py | the hook declared first, as bus_OLD.py does, giving upper-case values | not executed | Bus.SignalAsWritten | Bus.Signals |
| sundash/html.py:24-25 | the params string has no `f` prefix, so each keyword renders as the literal `{k}={v} ` | `button('x', id='ok')` gives `<button {k}={v} >x</button>` | `<button id=ok >x</button>` | not executed | Html.ButtonAsWritten | Html.DecodeParamsRoundTrip |
| sundash/web/client.js:99-101 | `set_var` re-renders the raw template with only the updated variable substituted | template `{{ a }}{{ b }}` with a=x, b=y, then set_var a=z, shows `z{{ b }}` | `zy`, every stored variable substituted | not executed | Client.SetVarAsWrittenLosesOthers | Client.Page.SetVar |
