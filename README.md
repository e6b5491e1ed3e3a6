# osc-js core in Dafny

This project models two sequential components of the osc-js library and proves properties of them.

1. **`OSCEventHandler`**, the subscription router.
   - It keeps three lifecycle channels (`onOpen`, `onError`, `onClose`), each an ordered list of `{token, callback}` entries.
   - It keeps a trie of address handlers, keyed by `/`-separated segments. Every node that `on` creates has its own ordered `_cb` list; the root has one only once something was subscribed at the empty path.
   - It keeps a counter `_uuid`, from which tokens are issued.
   - `on` subscribes and returns a fresh token. `off` unsubscribes by token. `notify` calls every callback of exactly one list, in order.
2. **`WebsocketClientPlugin`**, the transport's state machine.
   - The options are merged over defaults.
   - The URL and the routing info (`rinfo`) are fixed when a connection is opened.
   - A status flag takes the values -1..3.
   - There is one replaceable `notify` target.
   - Four socket callbacks emit notifications; `onopen` and `onclose` also move the status.

Files:
- `outcomes.dfy`: `Option` and `Result`.
- `decimal.dfy`: `Number.prototype.toString` for non-negative integers below 10^21, and its inverse. Tokens and ports are written with it.
- `address.dfy`: `_transformToArray`, which is `split('/')` followed by dropping empty pieces.
- `trie.dfy`:
  - the trie as a datatype: a node's children by segment, plus its `_cb` list;
  - exact-path lookup;
  - the two updates the router makes: append at a path, creating missing nodes, and replace the list at a path.
- `osc.dfy`:
  - the router as a class whose fields are the channel table, the trie root and the counter;
  - `off`'s splice loop, as written;
  - dispatch as a specification function.
- `wsclient.dfy`:
  - options and their merge; the URL, its parser and its round trip; `rinfo`;
  - the plugin as a class;
  - the same transitions as a function `Next`, over a record of the plugin's fields, with `Run` over sequences of inputs.

Callbacks are opaque ids, and `notify` targets are opaque sinks. A dispatch returns the calls it would make, as `(callback, payload)` pairs. The plugin records every `notify` call in a log, and every socket it asked to close. The socket itself is an abstract record: its URL, its protocol, and the `rinfo` its handlers captured.

Two behaviours of the code that differ from what one might expect:
- **Channel names.** The router's channels are named `onOpen`/`onError`/`onClose` (src/osc.js:30-34), not `open`/`error`/`close`.
- **Unmatched addresses.** Dispatching to an address with no node in the trie (or to the root, before anything was subscribed at the empty path) is not a silent no-op: the code dereferences null there (see Findings). A node that exists, such as a proper prefix of a subscribed path or a node whose entries `off` removed, has an empty list, and dispatching to it calls nobody.

The model follows the code in both cases: the names as written, and for unmatched addresses both the faulting dispatch and the guarded one.

## Model

| member | source | states |
|---|---|---|
| Decimal.DecimalString | src/osc.js:78 | the token text `(n).toString()`: a non-empty digit string, one digit iff n < 10, no leading zero unless n is 0 |
| Decimal.ParseDecimalString | src/osc.js:78 | reading a token's digits back gives the counter value it was issued from |
| Decimal.DecimalStringInjective | src/osc.js:78 | distinct counter values give distinct tokens, so a token is never reused |
| Address.Split | src/osc.js:43 | `split('/')` gives at least one piece, and no piece contains '/' |
| Address.JoinSplit | src/osc.js:43 | splitting loses nothing: joining the pieces with '/' gives the string back |
| Address.SplitAtSlash | src/osc.js:43 | a '/' between two strings separates their pieces: `Split(a + "/" + b) == Split(a) + Split(b)` |
| Address.NonEmpty | src/osc.js:44 | the filter leaves only non-empty items, all taken from its input, and keeps every non-empty item as often as it occurs; with NonEmptyConcat, in order |
| Address.NonEmptyConcat | src/osc.js:44 | the filter distributes over concatenation |
| Address.TransformToArray | src/osc.js:42-46 | an address tokenises to segments that are non-empty and contain no '/' |
| Address.TransformAtSlash | src/osc.js:42-46 | tokenising is a homomorphism from '/'-joined strings to concatenated paths, so extra, leading and trailing slashes vanish |
| Address.TransformSegment | src/osc.js:42-46 | a single segment tokenises to itself |
| Address.TransformJoin | src/osc.js:42-46 | any path of segments, written with '/' between them (with or without a leading '/'), tokenises back to that path |
| Address.NormalisationExamples | src/osc.js:42-46 | "/a/b", "a/b" and "a//b/" all give ["a", "b"] |
| Trie.NodeAt | src/osc.js:48-57 | the walk of `_findAddressHandler`: a node exists at a path only if one exists at its parent path |
| Trie.Lookup | src/osc.js:48-64 | the list `_findAddressHandler` returns: none where a segment is missing, and the root's own list at the empty path |
| Trie.Insert | src/osc.js:96-111 | `on`'s walk and `push`: the list at the path becomes the old list (empty if there was none) followed by the new entry |
| Trie.Replace | src/osc.js:146-155 | `off`'s in-place splice: where a node exists at the path its list becomes the given one; where none exists the trie is unchanged |
| Trie.Empty | src/osc.js:36 | the root `{}` as the constructor creates it: no children, no `_cb` list |
| Trie.NodeAtSnoc | src/osc.js:51-57 | one step of the walk: extending the path by a segment moves to that child, or to nothing |
| Trie.InsertNodes | src/osc.js:96-105 | after `on` at a path, a node exists exactly where one existed before or on the way to the path |
| Trie.InsertLookup | src/osc.js:96-111 | after `on` at a path, the terminal list has the new entry appended at its end; the nodes created on the way carry empty lists; every other list is unchanged |
| Trie.ReplaceLookup | src/osc.js:146-155 | `off`'s in-place splice changes the one list at the path and nothing else |
| Trie.ReplaceSame | src/osc.js:146-155 | writing back the list already at a path leaves the trie as it was |
| Osc.LifecycleChannels | src/osc.js:30-34 | the three channels `onOpen`, `onError`, `onClose`, each with an empty list |
| Osc.IsObject | src/osc.js:73 | `typeof name === 'object'`: arrays, other objects and null |
| Osc.NameTypeOk | src/osc.js:73-74 | the name test of `on` and `off`: a string or an object |
| Osc.NameTypes | src/osc.js:73-74 | the name test lets every string and every object through, null included, and rejects exactly undefined and the other scalars |
| Osc.IsChannel | src/osc.js:84 | the test `on`, `off` and `notify` make: a string that is a key of the channel table |
| Osc.ChannelNames | src/osc.js:30-34 | on the constructor's table exactly `onOpen`, `onError` and `onClose` are channels; every other string is an address |
| Osc.AddressOf | src/osc.js:83-98 | the path a name resolves to: a string's tokens, an array as it is, the root for any other object or a scalar, and a fault for null and undefined, whose `length` cannot be read |
| Osc.Without | src/osc.js:130-135 | removing a token keeps only entries of the list without it, and never lengthens the list |
| Osc.WithoutConcat | src/osc.js:130-135 | removal by token distributes over concatenation, so the others keep their relative order |
| Osc.WithoutLength | src/osc.js:130-136 | a list holds the token iff removing it shortens the list; otherwise the list is unchanged |
| Osc.WithoutAppended | src/osc.js:78-111 | subscribing a fresh token and unsubscribing it again gives the list back |
| Osc.FreshToken | src/osc.js:38-78 | the next token is held by no list whose tokens were all issued before it |
| Osc.AppendFresh | src/osc.js:78-85 | appending the next token keeps a list's tokens issued and pairwise distinct |
| Osc.WithoutUnique | src/osc.js:130-135 | removal keeps a list's tokens pairwise distinct |
| Osc.TrieInsert | src/osc.js:96-111 | subscribing at an address keeps every list of the trie well issued |
| Osc.TrieRemove | src/osc.js:146-155 | unsubscribing at an address keeps every list of the trie well issued |
| Osc.ChannelsAppend | src/osc.js:84-86 | subscribing to a channel keeps every channel list well issued |
| Osc.ChannelsRemove | src/osc.js:128-135 | unsubscribing from a channel keeps every channel list well issued |
| Osc.SpliceOut | src/osc.js:130-135 | the `for`/`splice` loop as written removes something iff the token is present, changes nothing otherwise, always leaves the same set of other entries, and equals removing every entry with the token when the list's tokens are distinct |
| Osc.Calls | src/osc.js:168-170 | `forEach` calls each callback of the list once, in list order, with the payload |
| Osc.Dispatch | src/osc.js:162-188 | `notify` as written: it faults exactly for a null or undefined name and for a non-channel name without a list at its path; a channel dispatch makes one call per entry |
| Osc.GuardedDispatch | src/osc.js:162-188 | the corrected `notify`: it agrees with the code wherever the code returns; an address without a node dispatches to nobody; only a null or undefined name faults |
| Osc.SubscribeThenDispatch | src/osc.js:96-185 | subscribing at an address and then notifying it makes the node's earlier calls, then one call of the new callback |
| Osc.ChannelSubscribeThenDispatch | src/osc.js:84-171 | after `on` at a channel, `notify` of it makes the channel's earlier calls and then one call of the new callback |
| Osc.PrefixCallsNothing | src/osc.js:100-185 | notifying a proper prefix of a freshly created path calls nothing |
| Osc.ScenarioAddress | src/osc.js:83-185 | on a fresh router, after `on("/x/y", cb)`: notifying "/x/y" calls cb once with the payload; notifying "/x/z" faults as written and calls nobody when guarded |
| Osc.AddressString | src/osc.js:83-88 | "/x/y" names no channel, and resolves to the path [x, y] |
| Osc.DispatchSegments | src/osc.js:172-185 | an array name is never a channel: `notify` with it calls the list at exactly that path, in order |
| Osc.TwoSubscriptions | src/osc.js:96-111 | two `on` calls at one path of a fresh router leave that node's list holding both entries, in subscription order |
| Osc.SubscriptionOrder | src/osc.js:111-185 | two subscriptions at one path are called in subscription order; removing the first one's token leaves only the second |
| Osc.UnmatchedAddressFaults | src/osc.js:181-185 | as written, notifying any address of a fresh router faults, where the guarded dispatch calls nobody |
| Osc.EventHandler.constructor | src/osc.js:30-38 | the three empty lifecycle channels, an empty trie, counter -1 |
| Osc.EventHandler.FindAddressHandler | src/osc.js:48-64 | the walk returns the list of the node at exactly that path, or nothing when a segment or the list is missing: no prefix or wildcard fallback |
| Osc.EventHandler.On | src/osc.js:70-114 | a bad name type or a non-function callback is rejected before a token is issued; otherwise the counter goes up by one and the token is its decimal numeral, held by no list; a channel name appends to that channel only; any other string or array appends at its path in the trie; null consumes a token and faults; the router invariant is kept |
| Osc.EventHandler.Off | src/osc.js:118-158 | a bad name type or a falsy token is rejected; otherwise the result is true iff the resolved list held the token; that list loses exactly the entries with the token and nothing else changes; an unknown address returns false and changes nothing |
| Osc.EventHandler.Notify | src/osc.js:162-188 | the calls equal the dispatch specification: a channel's list, or the list at the name's path; it faults when the node is missing |
| Osc.CallEach | src/osc.js:168-185 | the loop's calls are exactly `Calls` of the list |
| WsClient.Code | src/plugin/wsclient.js:9-15 | each status is stored as a number in -1..3 |
| WsClient.FromCode | src/osc.js:7-13 | a number stands for a status iff it lies in -1..3 |
| WsClient.CodeRoundTrip | src/plugin/wsclient.js:9-15 | the status table is a bijection between the five statuses and -1..3 |
| WsClient.DefaultOptions | src/plugin/wsclient.js:21-26 | host "localhost", port 8080, not secure, no protocols |
| WsClient.NoOverrides | src/plugin/wsclient.js:102 | the default argument `{}` of `open`: an object with no fields |
| WsClient.Merge | src/plugin/wsclient.js:56-103 | `{ ...base, ...o }`: spreading an empty object gives the base back (MergeFields gives every field) |
| WsClient.MergeLaws | src/plugin/wsclient.js:56-103 | spreading two option objects in turn is spreading their combination; spreading nothing changes nothing; spreading an object twice is spreading it once |
| WsClient.MergeFields | src/plugin/wsclient.js:56-103 | for each of host, port, secure and protocol: a field present in the override object is taken from it, even a null port; any other field is kept from the base |
| WsClient.Scheme | src/plugin/wsclient.js:114 | "wss" iff secure, "ws" iff not |
| WsClient.Authority | src/plugin/wsclient.js:122-126 | the host, extended (by `:port`) exactly when the port is not null |
| WsClient.Url | src/plugin/wsclient.js:114-126 | the URL starts with "wss://" iff secure and with "ws://" iff not |
| WsClient.ColonAt | src/plugin/wsclient.js:122-123 | finds the first ':' of a string, or reports that there is none |
| WsClient.UrlRoundTrip | src/plugin/wsclient.js:114-126 | for a host without ':', the URL names exactly the options' security, host and port; the port is absent iff it was null |
| WsClient.AuthorityRoundTrip | src/plugin/wsclient.js:122-126 | `host:port`, or the bare host, reads back as the same host and port |
| WsClient.RoutingInfoOf | src/plugin/wsclient.js:114-120 | `rinfo` carries the host as address, the scheme as family ("wss" when secure, "ws" otherwise), the port, and size 0 |
| WsClient.Initial | src/plugin/wsclient.js:45-74 | a new plugin: defaults overridden by the argument, no socket, status -1, the no-op notify, nothing emitted |
| WsClient.Connect | src/plugin/wsclient.js:114-128 | the socket is created with the URL, the protocol and the `rinfo` of the merged options |
| WsClient.CloseSocket | src/plugin/wsclient.js:154-157 | `close`: status Closing, the current socket appended to the sockets asked to close, everything else kept |
| WsClient.Next | src/plugin/wsclient.js:82-157 | one method call or socket callback: the options never change; there is a socket afterwards iff there was one or this is `open`; a socket callback appends exactly one emission, to the current target, and the other inputs none; earlier emissions are kept |
| WsClient.Run | src/plugin/wsclient.js:82-157 | a sequence of inputs, faulting where `close()` or a callback finds no socket: the log only grows and the options never change |
| WsClient.Enabled | src/plugin/wsclient.js:154-157 | `close()` needs a socket to call `close` on, and socket callbacks come only from an existing socket |
| WsClient.RunOne | src/plugin/wsclient.js:82-157 | a single enabled input runs to its step |
| WsClient.RunThen | src/plugin/wsclient.js:82-157 | extending a run by one enabled input takes one more step |
| WsClient.RunConcat | src/plugin/wsclient.js:82-157 | running two input sequences in turn is running their concatenation; a fault stops the run |
| WsClient.OpenEffect | src/plugin/wsclient.js:102-129 | `open` merges its argument for this connection only, leaves the stored options alone, creates the socket from the merge and is Connecting (0); an existing socket was asked to close first |
| WsClient.CallbackEffects | src/plugin/wsclient.js:132-148 | `onopen`/`onclose` set Open/Closed whatever the prior status; `onerror`/`onmessage` leave the status alone; each emits exactly one notification, to the current target, and keeps the socket and the options |
| WsClient.LatestTargetReceives | src/plugin/wsclient.js:82-84 | after `registerNotify(fn)`, every later notification goes to fn until the next registration; earlier ones are kept |
| WsClient.RunConsistent | src/plugin/wsclient.js:62-157 | every run keeps "no socket iff status -1", never changes the options and never drops the socket |
| WsClient.OpenedStaysInitialised | src/plugin/wsclient.js:102-157 | once opened, the status never returns to -1; before the first `open`, `close()` or a socket callback faults |
| WsClient.KeepsSocket | src/plugin/wsclient.js:109-126 | only `open` replaces the socket |
| WsClient.MessagesCarryOpenInfo | src/plugin/wsclient.js:115-148 | every message of a connection carries the `rinfo` fixed when it was opened, until the next `open` |
| WsClient.ScenarioOpenClose | src/plugin/wsclient.js:102-157 | open at any host and port (localhost:9000, say) on a fresh plugin: status 0; the connected signal: status 1; `close`: status 2; the disconnected signal: status 3; the socket was asked to close once; the target got "open" then "close" |
| WsClient.ScenarioOpens | src/plugin/wsclient.js:102-126 | `open` on a fresh plugin with a host and a port builds the socket from exactly those, keeps the stored defaults, is Connecting, and has emitted and closed nothing |
| WsClient.ScenarioSignals | src/plugin/wsclient.js:132-157 | from Connecting with the no-op target: the connected signal gives 1, `close()` gives 2 and asks the socket to close, the disconnected signal gives 3; the target gets "open" then "close" |
| WsClient.WebsocketClientPlugin.constructor | src/plugin/wsclient.js:45-74 | the state is `Initial` of the argument |
| WsClient.WebsocketClientPlugin.RegisterNotify | src/plugin/wsclient.js:82-84 | replaces the single target, and nothing else |
| WsClient.WebsocketClientPlugin.Status | src/plugin/wsclient.js:90-92 | returns the stored status's number, with no side effect |
| WsClient.WebsocketClientPlugin.Open | src/plugin/wsclient.js:102-149 | the new state is `Next` of the old one for this `open` (see OpenEffect) |
| WsClient.WebsocketClientPlugin.Close | src/plugin/wsclient.js:154-157 | becomes Closing (2) and asks the current socket to close |
| WsClient.WebsocketClientPlugin.HandleOpen | src/plugin/wsclient.js:132-135 | becomes Open (1) and notifies "open" |
| WsClient.WebsocketClientPlugin.HandleClose | src/plugin/wsclient.js:137-140 | becomes Closed (3) and notifies "close" |
| WsClient.WebsocketClientPlugin.HandleError | src/plugin/wsclient.js:142-144 | notifies "error" with the error; the status stays |
| WsClient.WebsocketClientPlugin.HandleMessage | src/plugin/wsclient.js:146-148 | notifies the data with the connection's `rinfo`; the status stays |

## Left out

- JavaScript object lookups. `in` and truthiness tests on plain objects (src/osc.js:52, 84, 100, 128, 166) also match inherited properties such as "toString". A segment spelled "_cb" collides with the callback-list key. The model keeps the channels as a fixed map, and keeps a node's children apart from its list.
- Osc.EventHandler.On: the counter is an unbounded integer. In the source `_uuid` is a double, so from 2^53 on `++this._uuid` no longer changes it and `on` would issue the same token again. The freshness `On` promises holds only below that bound, which no program reaches in practice.
- Decimal.DecimalString: writes every number in plain digits. `Number.prototype.toString` switches to exponent form ("1e+21") from 10^21 on; the counter never gets there (see the line above), and ports are far smaller.
- Non-string tokens passed to `off`. The model takes tokens as strings; a falsy token is the empty string.
- Array-like objects with a numeric `length` as names. An object name is modelled as an array of segments (`Segments`) or as an object without `length` (`Record`), whose walk stays at the root.
- Callback bodies and reentrancy. Callbacks are opaque ids, so a callback calling `on` or `off` in the middle of a `notify` is not modelled. So are their return values and exceptions.
- Osc.EventHandler.On: the trie is a value updated with `Insert`, so the model does not capture that `on` mutates node objects in place. The same goes for `off` through `Replace`: nothing else can hold a reference to a node or a list.
- Osc.EventHandler.Notify: returns the calls it makes; the `true` the source returns on success is implied by the `Ok` outcome.
- The WebSocket itself, and how it is created. So are `binaryType`, `send`, and the asynchronous delivery of its events (src/plugin/wsclient.js:1, 48-50, 123-128, 156, 163-165). The socket is a record, `close()` appends it to a list, and socket callbacks are inputs a caller supplies.
- WsClient.WebsocketClientPlugin.Close: modelled only with a socket. On a null socket the source sets the status to Closing and then faults; the model treats the call as not enabled instead. This is `Enabled` for `Run`, and a precondition for the method.
- The stale-handler effect. After `open` replaces a socket, the old socket's `onclose` can still write the status. In the model, callbacks always act on the current socket, because which socket fires when is up to the runtime.
- Option values of other JavaScript types. A truthy non-boolean `secure`, a string `protocol`, and a non-integer or negative port written into the URL are not modelled. Ports are natural numbers, or absent for null and undefined.
- Hosts containing ':'. UrlRoundTrip is stated for hosts without one, because the URL puts no brackets around such a host.
- Wiring the plugin to the router.
  - The plugin emits "open"/"close"/"error", but the router's channels are `onOpen`/`onError`/`onClose`.
  - The `Plugin` base class and the OSC facade are not part of this model.
  - The same holds for `OSCSocket`, the module singletons and `OSCMessage` (src/osc.js:195-278). They forward to the socket or to the router.
- Message data. It is a byte sequence; its decoding is not part of the source shown.
- Build tooling (rollup.config.js).

## Findings

| source | as written | input that shows it | evidently intended | confidence | as-written member | corrected member |
|---|---|---|---|---|---|---|
| src/osc.js:181-185 | `notify` calls `handlers.forEach` on whatever `_findAddressHandler` returns, which is null when no node exists at the address, and also at the root while the root has no `_cb`, so `notify("/")` on a fresh router faults (`off` checks for null at src/osc.js:148) | on a fresh router, `notify("/a/c", 1)` or `notify("/", 1)`; or, after `on("/a/b", cb)`, `notify("/a/c", 1)` | an address nobody subscribed to dispatches to nobody and returns normally | not executed | Osc.UnmatchedAddressFaults (with Osc.Dispatch and Osc.ScenarioAddress) | Osc.GuardedDispatch |
