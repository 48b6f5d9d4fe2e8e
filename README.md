# ensime-vim client core in Dafny

This project models two sequential parts of the ensime-vim editor client, and proves properties about the model.

**`EnsimeClient` bookkeeping** (`ensime_shared/client.py`) covers the state the client keeps around its websocket:
- **Connection gate.** `connect`, `send`, `disconnect` and `teardown` drive the fields `connected` and `running`, the recorded `server`, and a connection budget of 6.
- **Call ids.** `send_request` hands out call ids, and `call_options` holds per-call options.
- **Refactor ids.** `send_refactor_request` hands out refactor ids and records each target file in `refactorings`.
- **Drain loop.** `unqueue` reads queued responses.
- **Completion.** `complete_func` runs the two-phase completion handshake. Its helpers are `get_position` and `detect_row_column_start`.

The model has three layers:
- Module `Session` gives the connection logic as functions on a state value.
- Module `Drain` gives the drain loop as functions on the loop's variables.
- Module `Client` holds a class `EnsimeClient` with the same fields. Its methods update those fields in place and are proved to follow the `Session` and `Drain` functions, so every lemma proved about those functions holds of the object.

The websocket is a scripted transport, `Session.Link`:
- `creates[k]` says whether the `k`-th coming connection attempt succeeds.
- `sends[k]` says whether the `k`-th coming send succeeds.
- Once a script is used up, every further call succeeds. Any pattern of failures can be scripted, so a server that goes away after a working session can be expressed.
- It counts connection attempts and records every message the server received.

**`ProjectConfig`** (`ensime_shared/config.py`) turns the S-expression list of an `.ensime` file into a dictionary:
- Elements are paired, and a trailing odd element is dropped.
- Keys are the Python text of the unwrapped symbol with leading colons stripped.
- A non-empty list value whose head is a list is converted recursively.
- Later pairs overwrite earlier ones.

Module `Config` has `sexp2dict` twice:
- an imperative method `Sexp2Dict`, which keeps the loop that fills the dictionary;
- the function `ToDict`, which that method is proved equal to.

The read-only mapping is the value type `ProjectConfig`, with `Get`, `Len` and `Repr`.

Behaviour of the code that the model keeps, and that a reader might not expect:
- **Connection budget.** A connection attempt to a server that is absent or not running still costs one unit of the budget, because the decrement comes before the server check (`ensime_shared/client.py:183-186`; `Session.ConnectWithoutServer`).
- **Missing payload.** A message without a `payload` is not skipped. `_json["payload"]` raises `KeyError`, which ends `unqueue` and leaves the later messages queued (`ensime_shared/client.py:581`; `Drain.MissingPayloadRaises`).
- **Second completion phase.** A second phase without a first one leaves `suggestions` as it was rather than setting it to `None` (`ensime_shared/client.py:617-628`; `Client.EnsimeClient.CompleteFunc`).
- **`should_wait`.** It only matters when the queue is empty on entry (`ensime_shared/client.py:565`; `Drain.ShouldWaitOnlyWhenEmpty`).
- **Call id reused on reconnect.** When a send fails and the reconnection succeeds, the reconnection's `ConnectionInfoReq` is sent with the call id `c` of the request being sent, because the counter has not moved on yet. The retried request then goes out with `c` as well, `send_request` returns `c + 1`, and the counter ends at `c + 2`. On this path the id returned is not the one the request carried, and two messages share an id (`ensime_shared/client.py:161-165, 539-545`; `Session.ReconnectReusesCallId`).
- **Lost requests.** When both the send and the reconnection fail, the request is dropped without an error, and its id is still handed out (`Session.LostConnection`).

## Model

| member | source | states |
|---|---|---|
| Sexps.Unwrap | ensime_shared/config.py:141-144 | the unwrapped datum is never a symbol, so it can serve as a Python dictionary key |
| Sexps.LStripColons | ensime_shared/config.py:152 | `lstrip(':')`: the result is a suffix of the input, does not start with a colon, and only colons were removed |
| Sexps.SymbolKey | ensime_shared/config.py:152 | a symbol's key is its name with every leading colon dropped, so `:scala-version` gives `scala-version` |
| Sexps.StringAndSymbolKeysAgree | ensime_shared/config.py:141-144 | a string datum and a symbol of the same name give the same key |
| Sexps.KeywordKey | ensime_shared/config.py:152 | the keyword `:name` gives the key `name` when `name` does not start with a colon |
| Config.Paired | ensime_shared/config.py:136-139 | `len / 2` pairs, pair `i` being `(s[2i], s[2i+1])`; a trailing odd element is dropped |
| Config.Entries | ensime_shared/config.py:151-158 | one entry per pair |
| Config.EntriesAt | ensime_shared/config.py:151-158 | entry `j` is pair `j`'s normalised key with its converted value |
| Config.KeywordEntry | ensime_shared/config.py:152-158 | a pair keyed `:name` contributes the entry `(name, converted value)` |
| Config.ConvertCases | ensime_shared/config.py:155-158 | a non-empty list headed by a list becomes the dictionary of that head; any other value is stored as it is |
| Config.Sexp2Dict | ensime_shared/config.py:146-160 | the loop that fills the dictionary pair by pair computes `ToDict`, recursing into nested sections |
| Config.ConvertValue | ensime_shared/config.py:155-158 | the loop body for one value computes the converted value |
| Config.AssignKeys | ensime_shared/config.py:151-158 | the keys of the loop's dictionary are exactly the keys assigned, at most one per assignment |
| Config.AssignLastWins | ensime_shared/config.py:151-158 | an assigned key holds the value of its last assignment |
| Config.ToDictKeys | ensime_shared/config.py:146-160 | the key set is the set of normalised keys of all pairs, and there are at most `len / 2` of them |
| Config.ToDictLastPairWins | ensime_shared/config.py:151-158 | when a key repeats, the later pair wins; a nested section keeps only its head, and every other value, including empty lists and lists of atoms, is kept unchanged |
| Config.AssignDistinctSize | ensime_shared/config.py:151-158 | pairwise distinct keys give one dictionary entry per assignment |
| Config.ToDictDistinctKeys | ensime_shared/config.py:151-158 | with distinct keys, every pair has its own entry with its converted value, and the length is the number of pairs |
| Config.AssignThree | ensime_shared/config.py:151-158 | three assignments give the map of the three entries, in order |
| Config.ThreePairs | ensime_shared/config.py:151-158 | six elements give the dictionary of their three pairs, a later key overwriting an earlier one |
| Config.KeywordShapeDict | test/test_config.py:13-15 | the test file's shape (name, version, nested section under keyword symbols) gives the expected three-entry dictionary |
| Config.KeywordConfigShape | test/test_config.py:13-30 | on that shape, the version is looked up unchanged, the section becomes the dictionary of its head list, the keys are the three names and `len` is 3 |
| Config.ProjectConfig.Repr | ensime_shared/config.py:114-118 | `repr` is `ProjectConfig('<path>')`, with the path exactly between the quotes |
| Config.Load | ensime_shared/config.py:99-101 | a configuration exists exactly when the file parsed, and it records the canonical path |
| Config.LoadedLookup | ensime_shared/config.py:105-112 | `config[key]` on a loaded configuration succeeds exactly when some pair normalises to `key` (a missing key is an error), and `len(config)` counts those keys, at most `len / 2` |
| Config.LoadedValue | ensime_shared/config.py:105-106 | `config[key]` gives the converted value of the last pair whose key normalises to `key` |
| Config.ReprDeterminesPath | ensime_shared/config.py:114-123 | two configurations with the same `repr` have the same path |
| Text.Take | ensime_shared/client.py:265 | Python's `lines[:n]`: a prefix of the lines, of length `min(n, len)` for `n >= 0` and `max(len + n, 0)` for negative `n` |
| Text.GetPosition | ensime_shared/client.py:261-268 | the offset is never less than the column |
| Text.PositionIndexesText | ensime_shared/client.py:261-268 | for a row in the buffer and a column within its line, the offset indexes that very character of the buffer's text (or the line break just past the line) |
| Text.RowZeroSkipsLastLine | ensime_shared/client.py:265 | row 0 counts every line but the last, as `lines[:-1]` does |
| Text.DetectStart | ensime_shared/client.py:598-605 | the scan succeeds exactly when the cursor is within the line; then the start is at least 1 and at most the column (or 1), no delimiter lies between start and cursor, and either a delimiter precedes the start or the scan reached column 0 and reports 1 |
| Text.WordStartUnique | ensime_shared/client.py:598-605 | the start column is determined by the line and the cursor |
| Session.Connect | ensime_shared/client.py:173-208 | returns with nothing changed when already connected without `reconnect` or out of budget; otherwise spends at least one unit of budget (a reconnection inside the handshake's send spends more); never raises budget plus attempts, never lowers the call id, only extends what was delivered, keeps polling once started |
| Session.Send | ensime_shared/client.py:159-171 | nothing happens unless polling runs and the client is connected; otherwise the progress guarantees of `connect` hold |
| Session.SendRequest | ensime_shared/client.py:535-545 | the returned id is one below the new counter and not below the old one |
| Session.Disconnect | ensime_shared/client.py:210-219 | afterwards the client is disconnected and nothing else has changed |
| Session.Teardown | ensime_shared/client.py:221-226 | afterwards polling is stopped and the client disconnected, nothing else changed |
| Session.SendAll | ensime_shared/client.py:535-545 | one id per request, with the progress guarantees kept |
| Session.ReturnedIdsIncrease | ensime_shared/client.py:539-545 | successive `send_request` calls return strictly increasing ids, from the counter's value up to below its final value, whatever the scripted outcomes of connections and sends |
| Session.SendRequestDelivers | ensime_shared/client.py:539-545 | over a working connection the envelope carries the current call id, that id is returned, and the counter moves on by exactly one |
| Session.SequentialIds | ensime_shared/client.py:539-545 | over a working connection `n` requests get ids `c, c+1, ..., c+n-1` with no gap or repeat and reach the server in order |
| Session.ConnectWithoutServer | ensime_shared/client.py:183-186 | past the early returns, an absent or not-running server costs one unit of budget and changes nothing else |
| Session.ConnectFailure | ensime_shared/client.py:197-202 | a failed connection attempt leaves the client disconnected, costs one unit and one attempt |
| Session.ConnectSuccess | ensime_shared/client.py:203-208 | a successful connection records the server, starts polling and sends `ConnectionInfoReq` with the next call id |
| Session.HandshakeComesFirst | ensime_shared/client.py:197-208 | a new client that connects sends the handshake first, with call id 0 |
| Session.ConnectTimes | ensime_shared/client.py:173-186 | repeated `connect` keeps the progress guarantees |
| Session.ExhaustBudget | ensime_shared/client.py:179-186 | against an unreachable server (absent, not running, or whose next `b` connection attempts fail), a budget of `b` allows at most `b` connection attempts, after which `connect` changes nothing |
| Session.DisconnectIdempotent | ensime_shared/client.py:216-219 | a second `disconnect` changes nothing |
| Session.LostConnection | ensime_shared/client.py:159-171 | when a send fails and so does the reconnection, the request is lost without an error: nothing more is delivered, the client ends disconnected with one unit spent, and the id is still returned |
| Session.DisconnectedDropsRequests | ensime_shared/client.py:168 | a disconnected client sends nothing: each request only consumes the next id |
| Session.ReconnectReusesCallId | ensime_shared/client.py:159-171 | when a send fails and the reconnect succeeds, the handshake and the request both go out with the request's call id and `send_request` returns the next one |
| Drain.StepProgress | ensime_shared/client.py:567-585 | each iteration reads a message or brings the window one tick nearer its end |
| Drain.Run | ensime_shared/client.py:567-585 | the loop ends with its condition false and only extends the handler calls |
| Drain.DrainInOrder | ensime_shared/client.py:567-585 | without waiting, the loop never sleeps, empties the queue and calls the handler for exactly the messages with a truthy payload, in queue order |
| Drain.UnqueueDispatchesInOrder | ensime_shared/client.py:562-587 | `unqueue` on readable messages empties the queue and dispatches in arrival order |
| Drain.EmptyQueueReturnsAtOnce | ensime_shared/client.py:565-567 | an empty queue without waiting returns at once with no handler call |
| Drain.SkippedLeavesTimer | ensime_shared/client.py:574-584 | an empty or `nil` message is dropped without dispatch, without clearing `wait` and without restarting the window |
| Drain.MessageRestartsTimer | ensime_shared/client.py:574-577 | any other message clears `wait` and restarts the window |
| Drain.WaitingOnNilTimesOut | ensime_shared/client.py:567-585 | while only empty and `nil` messages arrive, waiting never calls the handler and runs until the window ends |
| Drain.NilNeverEndsTheWait | ensime_shared/client.py:562-587 | `unqueue(should_wait=True)` on an empty queue while only `nil` arrives calls no handler and runs for the whole timeout |
| Drain.SingleResponseDispatched | ensime_shared/client.py:562-587 | one queued response with a call id and a truthy payload reaches the handler exactly once with that call id and payload |
| Drain.NoCallIdDispatchedWithNone | ensime_shared/client.py:580-582 | a response with no `callId`, or a `null` one, reaches the handler with `None`, as `_json.get("callId")` gives |
| Drain.FalsyPayloadNotDispatched | ensime_shared/client.py:581-582 | a response whose payload is falsy calls no handler and raises nothing, but still restarts the window |
| Drain.MissingPayloadRaises | ensime_shared/client.py:578-581 | a message that is not JSON, not an object, or has no `payload` ends `unqueue` with an error at once, with no handler call and the later messages left queued |
| Drain.ShouldWaitOnlyWhenEmpty | ensime_shared/client.py:565 | `should_wait` changes nothing when the queue already holds messages |
| Client.DefinitionOptions | ensime_shared/client.py:335-343 | the options get `open_definition` and `display`; other keys of existing non-empty options are kept, and otherwise the two flags are all there is |
| Client.SplitOptions | ensime_shared/client.py:368-371 | `split` is set to true, `vert` is present (and true) exactly when asked for, and there are no other keys |
| Client.SplitKeepsLayout | ensime_shared/client.py:366-373 | asking for the definition in a split keeps `split` and, when asked for, `vert` (both true) beside the two flags |
| Client.RefactorRequestFields | ensime_shared/client.py:503-511 | the options are merged last: each option keeps its own value, and the three fixed fields keep theirs unless an option replaces them |
| Client.SuggestionsAfter | ensime_shared/client.py:621-622 | the last dispatched response for which the handler stores a list decides the stored suggestions; when none does, the earlier ones stay |
| Client.EnsimeClient.constructor | ensime_shared/client.py:56-121 | a new client: disconnected, not polling, no server, budget 6, call id 0, refactor id 1, empty tables and queue |
| Client.EnsimeClient.StartPolling | ensime_shared/client.py:123-128 | polling is running afterwards |
| Client.EnsimeClient.StopPolling | ensime_shared/client.py:130-132 | polling is stopped afterwards |
| Client.EnsimeClient.Connect | ensime_shared/client.py:173-208 | updates the fields as `Session.Connect` says, keeping the object invariant (attempts plus budget at most 6) |
| Client.EnsimeClient.Send | ensime_shared/client.py:159-171 | updates the fields as `Session.Send` says |
| Client.EnsimeClient.SendRequest | ensime_shared/client.py:535-545 | updates the fields as `Session.SendRequest` says and returns its id |
| Client.EnsimeClient.Disconnect | ensime_shared/client.py:210-219 | as `Session.Disconnect` |
| Client.EnsimeClient.Teardown | ensime_shared/client.py:221-225 | as `Session.Teardown` |
| Client.EnsimeClient.SendRefactorRequest | ensime_shared/client.py:498-512 | raises exactly when the parameters name no file, then changing nothing; otherwise records the file under the old refactor id, moves the id on by one and sends the request with that `procId` and the options merged last |
| Client.EnsimeClient.SymbolAtPointReq | ensime_shared/client.py:334-348 | merges the two flags into the current call's options and sends `SymbolAtPointReq` for the offset after the cursor |
| Client.EnsimeClient.OpenDeclarationSplit | ensime_shared/client.py:366-373 | stores split options, then the definition request keeps them beside the two flags |
| Client.EnsimeClient.Unqueue | ensime_shared/client.py:562-587 | the loop makes the handler calls `Drain.Unqueue` describes and leaves the rest of the queue as it does |
| Client.EnsimeClient.CompleteFunc | ensime_shared/client.py:594-628 | first phase: fails exactly when the cursor is past the line, otherwise returns the word start, sends the completion request and marks the completion started; second phase after a first: drains for 40 ticks and returns the stored suggestions (empty when none), resetting both fields; second phase without a first: returns no words and changes nothing |

## Left out

- Websocket I/O is the scripted `Session.Link`: the outcome of every connection attempt and send is fixed in advance, and closing the socket is not recorded.
- `util.catch` is not part of this model: `Session.Send` takes a failure of the retried send inside the reconnect handler as swallowed.
- The polling thread (`_poll_socket`) and all concurrency are left out. `start_polling` and `stop_polling` only set `running`. Messages reach the queue only while `unqueue` sleeps, as the batches `arrivals`.
- Real time: `unqueue`'s timeout counts 0.25 s sleeps (the completion wait of 10 s is 40 ticks), and reading a message takes no time. The closing warning when the window ran out is not modelled.
- Client.EnsimeClient.Unqueue: returns the handler calls it would make instead of making them; `ProtocolHandler.handle_incoming_response` is not part of this model, and its effect on the stored suggestions is the parameter `sets` of `CompleteFunc`.
- `json.loads` is the parameter `decode` (its error is `None`); `json.dumps` is left out, a sent message being the `Envelope` itself. Floating-point JSON numbers are not modelled.
- Editor calls (`cursor`, `getline`, `path`, the buffer's lines, file information) are the `Editor` value passed in; messages shown to the user are left out.
- `EnsimeClientV2`'s subprotocol option, logging, the temporary folder and its removal in `teardown`, and `apply_refactor`'s external `patch` process are left out.
- The other request builders (`rename`, `inspect_type`, `doc_uri`, and the like) and `ensime_shared/debugger.py` are left out as editor-facing wrappers; `complete`'s request is kept as `CompletionsRequest`.
- `sexpdata.loads` and reading the `.ensime` file are the parameter `parsed` of `Config.Load`, and `os.path.realpath` is the parameter `realPath`. S-expression floats and booleans are not modelled.
- The one-element list `[sexp2dict(value[0])]` that Python stores for a nested section is the constructor `Nested`.
- Config.ProjectConfig.Repr: states Python's `repr` only for paths that need no escaping (no quote or backslash), because the escaping rules of `repr` are not modelled.
- `__iter__` is modelled only as the key set of the dictionary; its order is not.
- Text.DetectStart: the cursor column is a natural number, as the editor reports it.
