# qtcurl: transfers and their scheduler

qtcurl glues libcurl's "multi socket" interface to the Qt event loop. A
`CurlEasy` is one transfer. It keeps:

- the engine's easy handle and its option table;
- the bound data, seek and progress callbacks;
- a table of HTTP headers, which it turns into the engine's header list;
- an idle/running state, bound to the `CurlMulti` it runs on.

A `CurlMulti` is the scheduler. It keeps:

- the set of registered transfers;
- one record per socket the engine watches, holding a read and a write notifier;
- a single-shot timer.

The socket records follow the engine's interest requests. The timer follows
its timeout requests. On each timer expiry or socket event the scheduler runs
one step of the engine, then drains the engine's queue of finished-transfer
messages into the transfers the messages concern.

The model has five modules:

- **`CurlDefs`**: the engine's constants, its C integer widths and the message record.
- **`HeaderTable`**: the `QMap<QString, QByteArray>` header table. It is a
  sequence of entries whose names strictly increase, with lookup, insert,
  remove and their round trips.
- **`HeaderLines`**: one header-list line per entry. A line is the UTF-8 name,
  `": "` and the value, cut at the first NUL as `curl_slist_append` does.
- **`SocketInterest`**: the per-socket record and how one `CURL_POLL_*`
  request changes it, as written and as evidently intended.
- **`QtCurl`**: the classes `CurlEasy`, `CurlMulti` and `ThreadStorage`,
  whose methods update their fields in place.

The engine and Qt are abstract in the model:

- The option table of an easy handle is a `map` field.
- The `CURLINFO_PRIVATE` lookup from easy handle to transfer is a map parameter `privateOf`.
- The engine's message queue is a field of `CurlMulti`. The messages one
  engine step produces are a parameter.
- Every `curl_multi_socket_action` call is recorded in `socketActions`.
- Signals (`aborted`, `progress`, `done`) are appended to a `SignalLog`.
  Transfers share one log, so the order of signals across transfers can be
  stated.

## Model

| member | source | states |
|---|---|---|
| CurlDefs.SizeProduct | src/CurlEasy.cpp:147-156 | `size * nitems` in `size_t`: equal to the product whenever the product fits |
| QtCurl.ClampTimeout | src/CurlMulti.cpp:191-198 | the engine's `long` timeout saturated into `[-1, INT_MAX]`; the result is non-negative exactly when the input is |
| QtCurl.CurlEasy.constructor | src/CurlEasy.cpp:4-14 | a new transfer is idle with no scheduler, no callbacks, an empty header table, no header list and the "were set" flag false. Its option table holds exactly `CURLOPT_PRIVATE` (the transfer itself) and the progress callback with its data |
| QtCurl.CurlEasy.IsRunning | src/CurlEasy.h:24 | returns the running flag and changes nothing |
| QtCurl.CurlEasy.Set | src/CurlEasy.h:26 | true exactly when the engine answers `CURLE_OK`; only then does the option take the value |
| QtCurl.CurlEasy.Perform | src/CurlEasy.cpp:34-49 | on a running transfer nothing changes. From idle the transfer runs and is bound to the preferred scheduler, else to the thread's default one (created on first use). It becomes a member of that scheduler's set, keeping the registration invariant; of the scheduler only the set changes, and a newly created default scheduler is otherwise in its initial state (open driver, no timer, no sockets, empty queue and action log). The header list is rebuilt when headers were ever set |
| QtCurl.CurlEasy.Abort | src/CurlEasy.cpp:51-61 | on an idle transfer nothing changes and nothing is emitted. On a running one the transfer leaves its scheduler's set and becomes idle and unbound, and exactly one `aborted` is emitted |
| QtCurl.CurlEasy.OnCurlMessage | src/CurlEasy.cpp:63-72 | a non-DONE message changes nothing (empty frame). A DONE message deregisters the transfer, makes it idle and unbound, and emits `done` with the message's result |
| QtCurl.CurlEasy.Destroy | src/CurlEasy.cpp:16-32 | a running transfer leaves its scheduler without emitting anything; the header list is freed |
| QtCurl.CurlEasy.RebuildCurlHttpHeaders | src/CurlEasy.cpp:74-97 | nothing happens until a header was ever set or removed. Then the old list is replaced by exactly one line per table entry, in key order, and handed to the engine as `CURLOPT_HTTPHEADER` |
| QtCurl.CurlEasy.SetReadFunction | src/CurlEasy.cpp:99-109 | binds the function; the engine's read callback and its data are armed exactly when a function is bound, and cleared otherwise |
| QtCurl.CurlEasy.SetWriteFunction | src/CurlEasy.cpp:111-121 | the same for the write callback |
| QtCurl.CurlEasy.SetHeaderFunction | src/CurlEasy.cpp:123-133 | the same for the header callback |
| QtCurl.CurlEasy.SetSeekFunction | src/CurlEasy.cpp:135-145 | the same for the seek callback |
| QtCurl.CurlEasy.StaticCurlWriteFunction | src/CurlEasy.cpp:147-156 | forwards `size * nitems` to the bound write function; with none bound, every offered byte is accepted |
| QtCurl.CurlEasy.StaticCurlHeaderFunction | src/CurlEasy.cpp:158-167 | the same for the header function |
| QtCurl.CurlEasy.StaticCurlSeekFunction | src/CurlEasy.cpp:169-178 | forwards to the bound seek function; with none bound, answers `CURL_SEEKFUNC_CANTSEEK` |
| QtCurl.CurlEasy.StaticCurlReadFunction | src/CurlEasy.cpp:180-189 | forwards to the bound read function; with none bound, reports the whole buffer |
| QtCurl.CurlEasy.StaticCurlXferInfoFunction | src/CurlEasy.cpp:191-200 | always returns 0 (go on) and emits one `progress` carrying the four counters |
| QtCurl.CurlEasy.RemoveHttpHeader | src/CurlEasy.cpp:202-206 | afterwards the header is absent. Removing an absent header leaves the table as it was. Every other header keeps its value, the table stays ordered, and the table is marked for rebuilding |
| QtCurl.CurlEasy.HttpHeaderRaw | src/CurlEasy.cpp:208-211 | the value stored under the name, or empty when the name is absent |
| QtCurl.CurlEasy.SetHttpHeaderRaw | src/CurlEasy.cpp:213-217 | reading the header back gives the stored value. Every other header keeps its value, the table stays ordered, and the table is marked for rebuilding |
| QtCurl.CurlEasy.SetString | src/CurlEasy.cpp:219-220 | true exactly when the engine answers `CURLE_OK`; the option then holds the UTF-8 text cut at its first NUL, so a text without NUL arrives whole |
| QtCurl.CurlEasy.HasHttpHeader | src/CurlEasy.cpp:231-232 | true exactly when the table holds the name |
| QtCurl.CurlMulti.constructor | src/CurlMulti.cpp:20-34 | a new scheduler has no transfers, no sockets, no armed timer, an empty queue and an open driver |
| QtCurl.ThreadStorage.constructor | src/CurlMulti.cpp:49 | the thread's storage starts without a scheduler |
| QtCurl.CurlMulti.AddTransfer | src/CurlMulti.cpp:56-60 | the set becomes the old set plus the transfer, so adding twice keeps one membership |
| QtCurl.CurlMulti.RemoveTransfer | src/CurlMulti.cpp:62-68 | the set loses exactly that transfer; nothing changes for a non-member |
| QtCurl.CurlMulti.Destroy | src/CurlMulti.cpp:36-45 | the loop ends with every member aborted: still well formed, idle, unbound and gone from the set (only their running state changes), in some order that lists each member once, with one `aborted` each in that order. The driver is closed after the set is empty |
| QtCurl.ThreadStorage.ThreadInstance | src/CurlMulti.cpp:47-54 | the first call creates a fresh scheduler; every later call returns that same one |
| QtCurl.CurlMulti.CurlSocketFunction | src/CurlMulti.cpp:70-122 | REMOVE or NONE for an unknown descriptor creates nothing. REMOVE destroys the record. Any other request creates the record if need be and applies the request as `SocketInterest.ApplyInterest`. Always returns 0 |
| QtCurl.CurlMulti.CurlTimerFunction | src/CurlMulti.cpp:124-132 | a non-negative timeout arms the single-shot timer with exactly that duration, replacing the previous one; a negative one stops it |
| QtCurl.CurlMulti.StaticCurlTimerFunction | src/CurlMulti.cpp:185-201 | negative timeouts stop the timer. In-range ones arm it unchanged. Timeouts beyond `INT_MAX` arm it with `INT_MAX` |
| QtCurl.CurlMulti.CurlMultiTimeout | src/CurlMulti.cpp:134-135 | the timer slot runs a driver action for `(CURL_SOCKET_TIMEOUT, 0)` and drains the queue |
| QtCurl.CurlMulti.SocketReadyRead | src/CurlMulti.cpp:137-138 | the read slot runs a driver action with `CURL_CSELECT_IN` and drains the queue |
| QtCurl.CurlMulti.SocketReadyWrite | src/CurlMulti.cpp:140-141 | the write slot runs a driver action with `CURL_CSELECT_OUT` and drains the queue |
| QtCurl.CurlMulti.SocketException | src/CurlMulti.cpp:143-144 | the exception slot runs a driver action with `CURL_CSELECT_ERR` and drains the queue |
| QtCurl.CurlMulti.InfoRead | src/CurlMulti.cpp:156 | pops the oldest message and reports how many remain; with an empty queue, none |
| QtCurl.CurlMulti.CurlSocketAction | src/CurlMulti.cpp:146-172 | one action is recorded and the queue is drained completely within the call. Every finishing message reaches its transfer, in queue order. The log grows by exactly those `done` signals, in that order, and exactly those transfers leave the set, idle and unbound. Messages with a null handle or owner are skipped, and the registration invariant is kept |
| QtCurl.CurlMulti.DeliverNext | src/CurlMulti.cpp:155-171 | one turn of the do-while: stop on an empty queue, else deliver the oldest message. It keeps the drain invariant and shrinks the queue whenever it goes on |
| QtCurl.CurlMulti.Dispatch | src/CurlMulti.cpp:158-170 | a message with a null handle or no owner changes nothing. A finishing message removes exactly its owner from the set, makes it idle and unbound, and appends its `done` |
| QtCurl.DoneOwners | src/CurlMulti.cpp:161-170 | the transfers a queue finishes are all owners known to the `CURLINFO_PRIVATE` lookup |
| QtCurl.AbortSignals | src/CurlMulti.cpp:38-40 | one `aborted` per transfer aborted |
| QtCurl.AbortSignalsAt | src/CurlMulti.cpp:38-40 | the i-th `aborted` is the i-th aborted transfer's |
| QtCurl.AbortSignalsOfMembers | src/CurlMulti.cpp:36-45 | destroying a scheduler emits `aborted` for every member, for no one else, and never twice for the same transfer |
| QtCurl.DeliveryStep | src/CurlMulti.cpp:155-171 | delivering one more message extends the emitted signals and the finished transfers by exactly that message's |
| QtCurl.OwnerIsDone | src/CurlMulti.cpp:164-170 | the owner of a finishing message is among the transfers the queue finishes, from that message onwards |
| QtCurl.FinishesOnceLater | src/CurlMulti.cpp:164-170 | when no transfer is finished twice, a transfer finished at one position was not finished before it and is not finished after it |
| QtCurl.DoneOwnersBefore | src/CurlMulti.cpp:164-170 | every transfer finished by a prefix of the queue is the owner of some message in that prefix |
| QtCurl.DoneSignalsAppend | src/CurlMulti.cpp:154-171 | draining `a` then `b` emits the signals of `a`, then those of `b`: delivery is in queue order |
| QtCurl.OneDonePerTransfer | src/CurlMulti.cpp:154-171 | when no transfer is finished twice, each finished transfer emits exactly one `done` |
| HeaderTable.LessIrreflexive | src/CurlEasy.h:70 | the key order never puts a name before itself |
| HeaderTable.LessTransitive | src/CurlEasy.h:70 | the key order is transitive |
| HeaderTable.LessTotal | src/CurlEasy.h:70 | any two different names are ordered one way or the other |
| HeaderTable.OrderedNamesDistinct | src/CurlEasy.h:70 | in an ordered table each name appears at most once, so it has one entry per key |
| HeaderTable.Find | src/CurlEasy.h:70 | finds a value exactly when the name is present, and the value found is stored under that name |
| HeaderTable.Lookup | src/CurlEasy.cpp:208-211 | an absent name reads as the empty value; a present name reads as its stored value |
| HeaderTable.LookupUnique | src/CurlEasy.cpp:208-211 | in an ordered table the value read is the only one stored under the name |
| HeaderTable.Insert | src/CurlEasy.cpp:213-217 | keeps the table ordered and adds exactly the name to its names |
| HeaderTable.Remove | src/CurlEasy.cpp:202-206 | keeps the table ordered and takes exactly the name out of its names; an absent name leaves the table as it was |
| HeaderTable.FindInsert | src/CurlEasy.cpp:213-217 | reading a name after storing it gives the stored value; every other name reads as before |
| HeaderTable.FindRemove | src/CurlEasy.cpp:202-206 | after removing a name it is absent; every other name reads as before |
| HeaderLines.EncodeChar | src/CurlEasy.cpp:88 | one character encodes to 1 to 4 bytes; ASCII to itself, anything else to bytes at or above 0x80 |
| HeaderLines.Utf8 | src/CurlEasy.cpp:88 | a name encodes to between one and four bytes per character |
| HeaderLines.Utf8HasNoNul | src/CurlEasy.cpp:88 | a name without NUL characters encodes without NUL bytes |
| HeaderLines.CString | src/CurlEasy.cpp:91-93 | the line the engine copies is the longest NUL-free prefix of the bytes handed to it |
| HeaderLines.HeaderLineExact | src/CurlEasy.cpp:85-93 | when neither name nor value holds a NUL, the line is exactly `name ": " value` |
| HeaderLines.HeaderLine | src/CurlEasy.cpp:88-93 | the line of one entry is the longest NUL-free prefix of `name ": " value`, so it holds no NUL |
| HeaderLines.Lines | src/CurlEasy.cpp:84-94 | the header list has one line per table entry, the i-th from the i-th entry |
| HeaderLines.LinesOnePerHeader | src/CurlEasy.cpp:84-94 | the list built from the table has exactly one line per header name: no two lines come from entries with the same name |
| SocketInterest.NewRecord | src/CurlMulti.cpp:77-78 | a record created for a descriptor carries that descriptor and has no notifier, so nothing is watched yet |
| SocketInterest.Disabled | src/CurlMulti.cpp:114 | disabling keeps a notifier's existence and leaves it disabled |
| SocketInterest.ApplyInterest | src/CurlMulti.cpp:96-119 | IN enables the read notifier and disables any write notifier. INOUT enables both. OUT leaves the read notifier alone and creates the write notifier, enabled exactly when there was no read notifier (as written). Other requests change nothing |
| SocketInterest.ApplyInterestIntended | src/CurlMulti.cpp:96-119 | the same, except that OUT enables the write notifier and disables any read notifier |
| SocketInterest.AsWrittenDiffersOnlyOnOut | src/CurlMulti.cpp:117 | the code and its evident intent agree on every request except write-only interest on a socket that has a read notifier |
| SocketInterest.ReadThenWriteOnly | src/CurlMulti.cpp:112-118 | after IN then OUT on a new socket, the code leaves reading enabled and writing disabled; the intended version leaves only writing enabled |

## Left out

- `set(CURLoption, const QUrl&)`, `setHttpHeader` and `httpHeader` (src/CurlEasy.cpp:222-229) are not modelled. They only convert through Qt's URL and percent-encoding routines (RFC 3986 section 2.1), which are not part of this model. The raw setter and header accessors they wrap are modelled.
- Callback byte contents are not modelled. A bound data function is modelled only by the count it returns, and the seek function by its answer.
- The `qint64` casts of the progress counters are not modelled; the counters pass through as integers.
- The Qt event loop is not modelled: notifier activation, timer firing, signal/slot connections and the thread locality of `QThreadStorage`. The slots are methods the caller invokes. The per-thread instance is the one optional field of a `ThreadStorage`.
- Memory management is not modelled: `new`/`delete` of records and notifiers, `curl_easy_cleanup` and `curl_slist_free_all`. Freeing the header list is modelled as setting it to the empty list.
- `curl_multi_add_handle` and `curl_multi_remove_handle` are not modelled separately. They move in step with the transfer set, so the driver's handle set is the transfer set.
- The engine's own bookkeeping is not modelled: dropping queued messages of a removed handle, callbacks the engine makes during one step, and the step's return code. The return code is ignored by the source too (src/CurlMulti.cpp:150-152, a TODO). The messages a step produces are a parameter, and they are delivered after the step.
- `curl_multi_add_handle` and `curl_multi_remove_handle` (src/CurlMulti.cpp:59, 65) are modelled as plain set updates, but libcurl may call the scheduler's timer and socket callbacks from inside them (typically re-arming the timer when a transfer is added). The model's engine never calls back there. So `QtCurl.CurlEasy.Perform`, `QtCurl.CurlEasy.Abort` and `QtCurl.CurlMulti.RemoveTransfer` promise that the scheduler's timer and sockets stay as they were, which holds only for that engine.
- The engine's answer to the adapter's own option calls is not modelled. These are the constructor's three `set` calls (src/CurlEasy.cpp:11-13), the four callback setters (src/CurlEasy.cpp:103-107, 115-119, 127-131, 139-143) and the header-list hand-over (src/CurlEasy.cpp:96). The source ignores that answer, and the model stores those options as if the engine accepted them. Only `QtCurl.CurlEasy.Set` and `QtCurl.CurlEasy.SetString` model a refusal.
- `staticCurlSocketFunction` (src/CurlMulti.cpp:176-183) is folded into `QtCurl.CurlMulti.CurlSocketFunction`. It only recovers the scheduler and the socket record, which the model has directly: the record is looked up in `sockets`.
- The error notifier of `CurlMultiSocket` is always null, because no code path creates it. The model therefore has no error notifier, and nothing activates `socketException`.
- `abortTransfer` is declared in src/CurlMulti.h:23 but defined nowhere, so there is nothing to model.
- The key order of header names is code-point order. Qt compares UTF-16 code units, which differ only between supplementary characters and U+E000..U+FFFF. Lone surrogates are not modelled either.
- QtCurl.CurlEasy.OnCurlMessage requires a running transfer for a DONE message. The source dereferences the scheduler back-reference, which is null on an idle transfer.
- QtCurl.CurlMulti.CurlSocketAction requires what the engine guarantees: a finishing message names a transfer registered with this scheduler, and no transfer is finished twice. `privateOf` gives each handle its owner.
- QtCurl.CurlMulti.CurlSocketAction does not restate `Valid()` for the transfers it finishes. The frame leaves their handle and header table untouched, and their new state is stated outright.
- QtCurl.CurlMulti.Destroy states the abort order only as some enumeration of the members. `QSet` iteration order is unspecified.
- QtCurl.CurlMulti.CurlSocketFunction keeps the behaviour of the code as written at src/CurlMulti.cpp:117. The intended behaviour is `SocketInterest.ApplyInterestIntended` (see Findings).

## Findings

| source | as written | input that shows it | evidently intended | confidence | as-written member | corrected member |
|---|---|---|---|---|---|---|
| src/CurlMulti.cpp:117 | on `CURL_POLL_OUT`, if a read notifier exists, the WRITE notifier is disabled, right after being enabled | `CURL_POLL_IN` then `CURL_POLL_OUT` on one descriptor: reading stays enabled and writing ends disabled, so a socket that only needs to be written is never reported writable | disable the READ notifier, symmetric to the `CURL_POLL_IN` case at line 114 | high, not executed | SocketInterest.ReadThenWriteOnly | SocketInterest.ApplyInterestIntended |
