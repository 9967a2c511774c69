# Client registry, batching and table models of the client–server monitor

This project is a Dafny model of the server side of a Qt client–server
monitoring application. Agents connect over TCP, register under an id, and
stream telemetry. The server keeps a registry of its clients, reports
changes in batches on a timer, and shows clients, telemetry and a log in
table views.

The model covers:

- **The client registry** (`DataProcessing`, `registry.dfy`). It holds a map
  from socket descriptor to client record, the set of ids in use, and two
  append-only batches: status snapshots and telemetry records.
  - Connect, disconnect, register, purge, clear, message dispatch,
    configuration routing, broadcast and the two batch takes are methods on
    a class.
  - Socket effects (the confirmation sent, `server->removeClient`, a routed
    or broadcast message) are appended to an `outbox`.
  - The id collision rule (`id_N` with the smallest free N ≥ 1) and the
    takeover of a DISCONNECTED record are stated exactly, for ids without a
    Qt place marker (see "Left out").
  - A registry invariant (`RegistryInv`) is proved to be kept by every
    operation, under the preconditions the code needs. Registered ids are
    reserved and pairwise distinct; an authorizing record carries its
    descriptor as id.
- **The worker** (`ServerWorker`, `worker.dfy`).
  - The batch-timer tick drains the registry's batches and the log batch and
    publishes the non-empty ones. It chooses the next interval from the
    client batch alone.
  - The log collector appends one line per message.
  - Starting and stopping a server also starts and stops the timer.
  - The signals emitted are appended to `published`. The lemmas prove that
    every drained item is published exactly once, in order, and that no
    empty batch is ever published.
- **The view model** (`ServerViewModel`, `viewmodel.dfy`).
  - The merge of a snapshot batch into the client table by descriptor. It is
    proved equal to an independent reference merge, and it keeps
    descriptors distinct.
  - Trimming of the data table, prepending of log batches, and the sort
    order that flips on every sort.
- **The table models** (`BaseTableModel` and its client and data subclasses,
  `tables.dfy`).
  - In-place row operations.
  - The column comparator, including the id comparator that splits at the
    last `_`, proved to be a strict weak ordering.
  - Sorting, proved to give a sorted permutation.
  - The client table's display texts.
- **The server list** (`ServerListModel`, `serverlist.dfy`). It keeps a
  (type, port) uniqueness invariant and provides the pure status and action
  helpers.
- **The enumerations and their display texts** (`enums.dfy`).

`text.dfy` holds decimal formatting and parsing (`QString::number`,
`QString::toInt`), the `id_N` suffix and its injectivity, and string
ordering. `variants.dfy` holds the loosely typed values (`QVariant`) and rows
(`QVariantMap`) with the conversions the code applies when it reads them
back. `lists.dfy` holds reversal and joining.

QHash iteration order is unspecified. Where the code walks a hash (the purge
loop, the broadcast loop, the takeover search, the merge of new rows), the
model picks elements with `:|`. A ghost `order` out-parameter then names the
order that was taken.

## Model

| member | source | states |
|---|---|---|
| AppEnums.TypeToString | ServerApp/core/appenums.h:14-27 | TCP, UDP, MODBUS_TCP and MODBUS_RTU show as "TCP", "UDP", "MODBUS TCP" and "MODBUS RTU", each text for exactly one type |
| AppEnums.TypeNamesDistinct | ServerApp/core/appenums.h:14-27 | two server types have the same display name only when they are the same type |
| AppEnums.ServerStatusNamesDistinct | ServerApp/core/appenums.h:36-47 | STOPPED, RUNNING and ERROR have pairwise distinct display names |
| AppEnums.ClientStatusNames | ServerApp/core/appenums.h:57-68 | DISCONNECTED, AUTHORIZING and CONNECTED have pairwise distinct names, none of them the fallback; DELETED falls to "Неизвестно" |
| AppEnums.Code | ServerApp/core/appenums.h:49-54 | a client status is carried as an integer in 0..3 |
| AppEnums.StatusOfCode | ServerApp/core/appenums.h:49-54 | an integer names a client status exactly when it lies in 0..3 |
| AppEnums.CodeOrderAndRoundTrip | ServerApp/core/appenums.h:49-54 | codes follow declaration order DELETED < DISCONNECTED < AUTHORIZING < CONNECTED, are distinct, and convert back to their status |
| Text.NatToString | ServerApp/core/dataprocessing.cpp:24 | the placeholder id is a non-empty string of decimal digits, one digit exactly for descriptors below 10 |
| Text.NatToStringInjective | ServerApp/core/dataprocessing.cpp:24 | distinct descriptors get distinct placeholder ids |
| Text.SuffixedInjective | ServerApp/core/dataprocessing.cpp:131-134 | `id_a` equals `id_b` exactly when a equals b, so each round of the suffix loop tries a new name |
| Text.SuffixedIsNotNumber | ServerApp/core/dataprocessing.cpp:131-134 | a suffixed name `id_N` is never the decimal text of a descriptor |
| Text.SuffixesTakenBound | ServerApp/core/dataprocessing.cpp:131-134 | if `id_1` … `id_k` are all in use then k ≤ the number of ids in use, so the suffix loop ends by N = \|used\| + 1 |
| Text.ParseInt | ServerApp/models/tablemodel.cpp:126-131 | a successful `toInt` yields a 32-bit value read from an optional sign followed by decimal digits; empty text fails. Digits, `+`digits and `-`digits whose value fits an int parse to exactly that value (negated for `-`) |
| Text.ParseFormatRoundTrip | ServerApp/models/tablemodel.cpp:124-131 | `toInt` of the decimal text of a number that fits an int gives that number back |
| Text.LastIndexOf | ServerApp/models/tablemodel.cpp:117 | `lastIndexOf('_')` is -1 or the position of a '_' with none after it |
| Text.Lower | ServerApp/models/tablemodel.cpp:150-153 | lower-casing keeps the length and maps each character on its own |
| Variants.GetAfterInsert | ServerApp/models/tablemodel.cpp:22 | reading a row back after `row[key] = v`: the written key reads v, and every other key reads what it read before |
| Registry.ClientDataMapReadBack | ServerApp/core/dataprocessing.cpp:180-190 | a snapshot reads back as the record's id, its descriptor in decimal, its status (through the integer code), its send permission and its configuration |
| Registry.UniqueIds | ServerApp/core/dataprocessing.cpp:131-144 | under the registry invariant no two tracked records share an id, authorizing or registered |
| Registry.FirstFreeSuffix | ServerApp/core/dataprocessing.cpp:131-134 | the smallest N ≥ 1 with `id_N` free: free, all smaller suffixes taken, and at most \|used\| + 1 |
| Registry.AssignedName | ServerApp/core/dataprocessing.cpp:112-134 | a new registration receives an id not in use: the requested id when free, otherwise `id_N` with 1 ≤ N ≤ \|used\| + 1 |
| Registry.ResolveCollision | ServerApp/core/dataprocessing.cpp:131-134 | the suffix loop returns AssignedName; its suffix is 0 exactly when the id is free, and every smaller suffix was taken |
| Registry.DeletedSnapshots | ServerApp/core/dataprocessing.cpp:86-92 | the i-th purge snapshot is the i-th removed record with status DELETED |
| Registry.Removals | ServerApp/core/dataprocessing.cpp:94-96 | one removal request per removed descriptor, in removal order |
| Registry.PurgeRecordsStep | ServerApp/core/dataprocessing.cpp:72-80 | removing one more record extends the snapshot and removal reports by exactly that record |
| Registry.PurgeStep | ServerApp/core/dataprocessing.cpp:72-80 | visiting a descriptor erases it and releases its id exactly when it is DISCONNECTED, and otherwise leaves it untouched |
| Registry.PurgeOrderStep | ServerApp/core/dataprocessing.cpp:72-80 | appending a newly visited DISCONNECTED descriptor keeps the removal order free of repeats and equal to the set of visited DISCONNECTED descriptors |
| Registry.PurgeRecordsRemove | ServerApp/core/dataprocessing.cpp:73-76 | erasing a visited DISCONNECTED record keeps the records equal to the kept part of the original map and the reserved ids equal to the original ones minus those released |
| Registry.PurgeReportsStep | ServerApp/core/dataprocessing.cpp:73-76 | reporting a removed record appends its DELETED snapshot to the batch and its removal request to the outbox |
| Registry.PurgeRemoves | ServerApp/core/dataprocessing.cpp:72-80 | a loop round that removes a DISCONNECTED record keeps the purge loop's progress invariant |
| Registry.PurgeSkips | ServerApp/core/dataprocessing.cpp:72-80 | a loop round that passes over a record that is not DISCONNECTED keeps the purge loop's progress invariant |
| Registry.RegisterKeepsInv | ServerApp/core/dataprocessing.cpp:112-146 | registration, whether takeover or new id, keeps the registry invariant when the requested id is not another authorizing connection's placeholder |
| Registry.TakeoverKeepsInv | ServerApp/core/dataprocessing.cpp:122-146 | a takeover keeps the registry invariant when the id is not another authorizing connection's temporary id |
| Registry.NamedKeepsInv | ServerApp/core/dataprocessing.cpp:129-146 | registering under AssignedName keeps the registry invariant when the id is not another authorizing connection's temporary id |
| Registry.PurgeKeepsInv | ServerApp/core/dataprocessing.cpp:68-97 | purging the DISCONNECTED records keeps the registry invariant |
| Registry.ReRegistrationSuffixed | ServerApp/core/dataprocessing.cpp:112-144 | a CONNECTED record registering again under its own id finds no record to take over, its old id stays reserved, and it receives a different, suffixed id |
| Registry.RegistrationByTakeover | ServerApp/core/dataprocessing.cpp:122-146 | erasing the DISCONNECTED record that holds the id and registering under the unsuffixed id, with its send permission, is the takeover case of `Registration` |
| Registry.RegistrationByName | ServerApp/core/dataprocessing.cpp:129-146 | when no record can be taken over, registering under AssignedName with sending on is the naming case of `Registration` |
| Registry.ReconnectInheritsSendingOff | ServerApp/core/dataprocessing.cpp:116-128 | a CONNECTED client that disconnects (sending switched off) and registers again under its id from another connection takes over its old record, gets its id back unsuffixed, and has sending off |
| Registry.PlaceholderReleaseBreaksInv | ServerApp/core/dataprocessing.cpp:86-92 | a connection whose placeholder equals a registered id, disconnecting while authorizing, releases that id, leaving a registered id unreserved |
| Registry.DataProcessing.constructor | ServerApp/core/dataprocessing.cpp:6 | the registry starts empty, with empty batches, and satisfies the invariant |
| Registry.DataProcessing.HandleClientConnected | ServerApp/core/dataprocessing.cpp:19-38 | the descriptor's record is set, overwriting any earlier one, to AUTHORIZING with the decimal descriptor as id and sending off; exactly one snapshot is appended; the used set is untouched; the invariant is kept unless a registered id equals the new placeholder |
| Registry.DataProcessing.RemoveClient | ServerApp/core/dataprocessing.cpp:86-97 | the record's id is released, one DELETED snapshot is appended and one removal is requested |
| Registry.DataProcessing.HandleClientDisconnected | ServerApp/core/dataprocessing.cpp:40-66 | an untracked descriptor changes nothing; an AUTHORIZING record is erased with one DELETED snapshot and its id released; any other record becomes DISCONNECTED with sending off, is kept and yields one snapshot; the invariant is kept |
| Registry.DataProcessing.RegisterClient | ServerApp/core/dataprocessing.cpp:99-157 | the `Registration` relation between the old and new registry: an untracked descriptor changes nothing. If a DISCONNECTED record holds the id, it is erased (one DELETED snapshot, one removal) and the new record gets the id unsuffixed, inheriting its send permission. Otherwise the record gets AssignedName with sending on. Either way the record is CONNECTED with the new payload, the id is reserved, one snapshot is appended and the confirmation carries the id. The registry invariant is kept outside the placeholder case |
| Registry.DataProcessing.RemoveDisconnectedClients | ServerApp/core/dataprocessing.cpp:68-84 | exactly the DISCONNECTED records are erased, each once, in a hash order `order`. Each one's id is released, with one DELETED snapshot and one removal. Other records are untouched, the count equals the number removed, and the invariant is kept |
| Registry.DataProcessing.ClearClients | ServerApp/core/dataprocessing.cpp:159-162 | records and reserved ids are emptied with no snapshot appended |
| Registry.DataProcessing.TakeClientUpdatesBatch | ServerApp/core/dataprocessing.cpp:164-170 | returns every snapshot appended since the last take, in order, and leaves the batch empty |
| Registry.DataProcessing.TakeDataBatch | ServerApp/core/dataprocessing.cpp:172-178 | returns every telemetry record appended since the last take, in order, and leaves the batch empty |
| Registry.DataProcessing.ParseJsonData | ServerApp/core/dataprocessing.cpp:197-234 | a malformed message, or a non-registration from an untracked sender, changes nothing. A registration has exactly the effect of RegisterClient (the same `Registration` relation) and records no telemetry. Any other message from a tracked sender appends one telemetry record under the sender's id; a configuration message also replaces the record's configuration and appends one snapshot |
| Registry.DataProcessing.RouteDataToClient | ServerApp/core/dataprocessing.cpp:236-254 | an untracked descriptor changes nothing. A configuration request sets sending and configuration and appends one snapshot. Every request to a tracked descriptor is forwarded once. The used ids and the invariant are kept |
| Registry.DataProcessing.SendDataToAll | ServerApp/core/dataprocessing.cpp:265-280 | the command goes once to exactly the records that allow sending and whose connection is open; the returned count is the number of recipients, and nothing else changes |
| Lists.Reversed | ServerApp/serverviewmodel.cpp:121-122 | the reversed list has the same length, with element i taken from position len - 1 - i |
| Lists.PrependedReversed | ServerApp/models/tablemodel.cpp:48-57 | prepending a batch one row at a time puts its last row first and shifts each old row down by the batch size |
| Lists.ReversedAppend | ServerApp/serverviewmodel.cpp:119-126 | reversing a concatenation reverses and swaps the parts |
| Lists.ConcatAppend | ServerApp/serverviewmodel.cpp:124 | joining a concatenation of lists is the concatenation of the joins |
| Tables.ParseIdPlain | ServerApp/models/tablemodel.cpp:116-121 | an id without '_' splits into the whole id and 0 |
| Tables.ParseIdSuffixed | ServerApp/models/tablemodel.cpp:116-134 | parseId undoes the collision suffix: `t_N` splits into t and N |
| Tables.KeyLessOrder | ServerApp/models/tablemodel.cpp:136-147 | text-then-number comparison is irreflexive, asymmetric, transitive and total |
| Tables.BeforeStrictWeak | ServerApp/models/tablemodel.cpp:102-154 | the sort comparator, for either order and any column, is a strict weak ordering, as std::sort requires |
| Tables.SuffixOrder | ServerApp/models/tablemodel.cpp:136-147 | ascending by id, `t_m` comes before `t_n` exactly when m < n, so Client_2 sorts before Client_10 |
| Tables.PlainBeforeSuffixed | ServerApp/models/tablemodel.cpp:115-147 | ascending by id, a plain id sorts before its own suffixed variants |
| Tables.SortedByPairwise | ServerApp/models/tablemodel.cpp:102-154 | in a sorted table no later row is ordered before an earlier one |
| Tables.SortedByTail | ServerApp/models/tablemodel.cpp:102-154 | the rest of a sorted table after its first row is still sorted |
| Tables.Insert | ServerApp/models/tablemodel.cpp:102-154 | insertion adds exactly one row and keeps all the others |
| Tables.InsertSorted | ServerApp/models/tablemodel.cpp:102-154 | inserting into a sorted table keeps it sorted |
| Tables.SortRows | ServerApp/models/tablemodel.cpp:102-154 | sorting permutes the rows: same multiset |
| Tables.SortRowsSorted | ServerApp/models/tablemodel.cpp:102-154 | the sorted rows are ordered by the comparator |
| Tables.TableModel.Client | ServerApp/models/tablemodel.cpp:165-169 | the client table's columns are id, address, status and send permission, and it starts empty |
| Tables.TableModel.Data | ServerApp/models/tablemodel.cpp:225-229 | the data table's columns are timestamp, id, type and payload, and it starts empty |
| Tables.TableModel.SetData | ServerApp/models/tablemodel.cpp:41-46 | the rows are replaced wholesale: the row count is the new list's length and `getRowData(i)` reads its i-th row |
| Tables.TableModel.AddRows | ServerApp/models/tablemodel.cpp:48-57 | the rows end up reversed in front of the old rows; an empty list changes nothing. Read back: the count grows by the batch size, `getRowData(0)` is the batch's last row, and each old row i is now at |batch| + i |
| Tables.TableModel.AddRow | ServerApp/models/tablemodel.cpp:59-63 | exactly one row is prepended |
| Tables.TableModel.UpdateRow | ServerApp/models/tablemodel.cpp:65-70 | only an in-range index is replaced; no other row changes and the length stays. Every cell of the replaced row then displays the new row's value under its column's key |
| Tables.TableModel.RemoveRows | ServerApp/models/tablemodel.cpp:72-79 | a start outside the table or a non-positive count changes nothing; otherwise exactly the slice [row, row + count) goes |
| Tables.TableModel.RemoveRow | ServerApp/models/tablemodel.cpp:81-87 | exactly the in-range index is removed; otherwise nothing changes |
| Tables.TableModel.Clear | ServerApp/models/tablemodel.cpp:89-94 | the table becomes empty |
| Tables.TableModel.SortByColumn | ServerApp/models/tablemodel.cpp:96-156 | an invalid column changes nothing; otherwise the rows become a permutation of themselves, sorted by that column's comparator |
| ViewModel.BatchMap | ServerApp/serverviewmodel.cpp:139-143 | the update map holds exactly the batch's descriptors, each entry filed under its own descriptor |
| ViewModel.BatchMapLastWins | ServerApp/serverviewmodel.cpp:141-143 | a descriptor maps to its last snapshot in the batch |
| ViewModel.MergeMatchesReference | ServerApp/serverviewmodel.cpp:149-167 | with distinct descriptors in the table, the consuming pass equals replacing every row on its own: a row with an update becomes it or, if DELETED, goes; a row without one is kept, in the original order. What stays pending is exactly the updates for descriptors not in the table |
| ViewModel.DescSetAppend | ServerApp/serverviewmodel.cpp:145-176 | the descriptors of two joined row lists are exactly those of each part |
| ViewModel.MergeExistingFacts | ServerApp/serverviewmodel.cpp:149-167 | the pass only takes updates out, never leaves a table descriptor pending, and keeps descriptors distinct |
| ViewModel.NewRowsFacts | ServerApp/serverviewmodel.cpp:170-176 | added rows carry the descriptors they were filed under, each once |
| ViewModel.CollectBatch | ServerApp/serverviewmodel.cpp:139-143 | the loop over the batch builds exactly the update map of the whole batch, the last snapshot per descriptor winning |
| ViewModel.MergeCurrentRows | ServerApp/serverviewmodel.cpp:149-167 | the loop over the current rows yields the kept rows and the still pending updates of the consuming pass over the whole table |
| ViewModel.NewClientRows | ServerApp/serverviewmodel.cpp:170-176 | the loop visits every pending descriptor exactly once, in some hash order, and appends exactly the admitted new rows in that order |
| ViewModel.DistinctConcat | ServerApp/serverviewmodel.cpp:170-179 | appending rows with new descriptors keeps descriptors distinct |
| ViewModel.MergeKeepsDistinct | ServerApp/serverviewmodel.cpp:133-180 | if the table's descriptors were distinct, they still are after a merge, whatever the hash order of the new rows |
| ViewModel.Trimmed | ServerApp/serverviewmodel.cpp:72-82 | a table of at most 5000 rows is untouched; a longer one is cut to exactly its first 3000 rows (the newest) |
| ViewModel.LogBatchesCompose | ServerApp/serverviewmodel.cpp:119-126 | two log batches in turn give the same text as their concatenation as one batch |
| ViewModel.Flip | ServerApp/serverviewmodel.cpp:104-112 | the sort order after a sort always differs from the one before |
| ViewModel.SnapshotDisplay | ServerApp/models/tablemodel.cpp:187-196 | a registry snapshot merges under its decimal descriptor. It shows its id, its status name and "Да"/"Нет" for sending. It is dropped exactly when DELETED and added as new exactly when AUTHORIZING or CONNECTED |
| ViewModel.ServerViewModel.constructor | ServerApp/serverviewmodel.cpp:3-11 | two distinct, freshly created tables, both empty, with their own columns; the log is empty; both sort orders are Ascending |
| ViewModel.ServerViewModel.HandleClientBatchUpdate | ServerApp/serverviewmodel.cpp:133-180 | an empty batch changes nothing. Otherwise the table becomes the merged current rows followed by the admitted new rows, visited once each in a hash order `order` of the pending descriptors |
| ViewModel.ServerViewModel.HandleDataBatchReceived | ServerApp/serverviewmodel.cpp:72-82 | the batch is prepended newest first, and the result is trimmed |
| ViewModel.ServerViewModel.HandleLogBatch | ServerApp/serverviewmodel.cpp:119-126 | a non-empty batch puts its lines in front of the log, newest first; an empty batch changes nothing |
| ViewModel.ServerViewModel.SortClients | ServerApp/serverviewmodel.cpp:104-107 | sorts the client table in the current order, as a sorted permutation, then flips the order |
| ViewModel.ServerViewModel.SortData | ServerApp/serverviewmodel.cpp:109-112 | sorts the data table in the current order, as a sorted permutation, then flips the order |
| ViewModel.ServerViewModel.HandleServerStopped | ServerApp/serverviewmodel.cpp:128-131 | both tables become empty |
| Worker.IntervalFollowsPublications | ServerApp/serverworker.cpp:28-37 | the next interval is the slow 2000 ms exactly when the tick published client updates, and the normal 500 ms exactly when it published none |
| Worker.PublishedAppend | ServerApp/serverworker.cpp:20-45 | what a history publishes is what its parts publish, in order; histories without empty batches join into one |
| Worker.SinglePublished | ServerApp/serverworker.cpp:20-45 | a single publication contributes its rows or lines to exactly the stream of its own kind |
| Worker.PartsPublished | ServerApp/serverworker.cpp:20-45 | each of the three steps of a tick publishes its own batch whole, publishes nothing of the other kinds, and never an empty batch |
| Worker.TickPublishesAll | ServerApp/serverworker.cpp:20-45 | one tick publishes the drained telemetry, snapshots and log lines, each whole and once, and never an empty batch |
| Worker.TickAccounting | ServerApp/serverworker.cpp:20-45 | after a tick, everything ever published is what was published before plus exactly the drained batches, and no empty batch was ever published |
| Worker.ServerWorker.constructor | ServerApp/serverworker.cpp:3-15 | a fresh, empty registry with no records, reserved ids, batches or outbox, satisfying its invariant; the timer is stopped with QTimer's default interval 0, with no servers, log lines or publications |
| Worker.ServerWorker.HandleLogMessage | ServerApp/serverworker.cpp:47-50 | exactly one timestamped line per message is appended |
| Worker.ServerWorker.HandleBatchTimerTimeout | ServerApp/serverworker.cpp:20-45 | the telemetry, snapshot and log batches are left empty. Exactly the non-empty ones are published, in that order. The interval follows NextInterval of the client batch. Timer state and servers are unchanged |
| Worker.ServerWorker.StartServer | ServerApp/serverworker.cpp:52-65 | a type the factory cannot create only logs an error. A TCP server is filed under its port, the timer starts at 500 ms, and the start is logged and signalled |
| Worker.ServerWorker.StopServer | ServerApp/serverworker.cpp:67-82 | a server under the port is forgotten; the registry is cleared and satisfies its invariant; the timer stops; the stop is logged and signalled. Otherwise a null entry is filed under the port and nothing else changes |
| ServerList.FirstMatch | ServerApp/serverlistmodel.cpp:81-91 | the index of the first entry with the (type, port), or -1 when there is none |
| ServerList.FirstMatchAt | ServerApp/serverlistmodel.cpp:81-91 | a position before which nothing matches, and that matches or is the end, is the first match, or -1 at the end |
| ServerList.IsPortValid | ServerApp/serverlistmodel.cpp:122-124 | a port is valid exactly when it is at least 1024 (every quint16 is at most 65535) |
| ServerList.FormatStatusText | ServerApp/serverlistmodel.cpp:136-144 | the text starts with the status name, and has more than that exactly when the server is RUNNING with connections > 0 |
| ServerList.StatusTextShowsCount | ServerApp/serverlistmodel.cpp:136-141 | for a RUNNING server with connections the text is the status name, " (", the count's digits and the closing word, and the digits parse back to the count |
| ServerList.GetStatusColor | ServerApp/serverlistmodel.cpp:146-156 | green exactly for RUNNING, red exactly for ERROR, grey exactly for STOPPED |
| ServerList.ActionsConsistent | ServerApp/serverlistmodel.cpp:158-168 | start iff STOPPED, stop iff RUNNING, delete iff not stoppable; start and stop are never both allowed; any other action is refused |
| ServerList.RemovalKeepsUnique | ServerApp/serverlistmodel.cpp:81-91 | removing the first match from a unique list keeps it unique and leaves no entry with that (type, port) |
| ServerList.ServerListModel.constructor | ServerApp/serverlistmodel.cpp:3 | the list starts empty |
| ServerList.ServerListModel.IsServerExists | ServerApp/serverlistmodel.cpp:126-134 | true exactly when some entry has the (type, port) |
| ServerList.ServerListModel.CanAddServer | ServerApp/serverlistmodel.cpp:112-120 | true exactly when the port is valid and no entry has the (type, port) |
| ServerList.ServerListModel.AddServer | ServerApp/serverlistmodel.cpp:64-79 | returns true exactly when the server can be added, then appends one STOPPED entry with 0 connections and the type's name. Otherwise nothing changes. Keeps (type, port) unique |
| ServerList.ServerListModel.RemoveServer | ServerApp/serverlistmodel.cpp:81-91 | removes only the first matching entry; with no match nothing changes; keeps the list unique, with no entry left for that (type, port) |
| ServerList.ServerListModel.UpdateServerStatus | ServerApp/serverlistmodel.cpp:93-110 | sets status and connections of only the first matching entry; everything else is unchanged; keeps the list unique |

## Left out

- Sockets and transport (`TcpServer`, `TcpClient`, `IServer`, `IClient`) are not part of this model.
  - A send, a `server->removeClient` call and a confirmation become `outbox` entries.
  - `isConnected()` is the `connected` parameter of `SendDataToAll`.
  - Every client is assumed to have a server parent. The "server not found" branch of `sendDataToClient` is therefore not modelled.
- JSON is not modelled. Messages arrive as the `Message` datatype, where `Malformed` stands for a parse error or a non-object. Routed requests arrive as `RouteRequest` rather than as a `QVariantMap`.
- The `if (!client)` null checks are not modelled: the model has no null clients.
- Registry.AssignedName: the suffixed name is `id` + "_" + N. The code builds it with `QString("%1_%2").arg(id).arg(N)`, whose second `arg` replaces the lowest-numbered place marker anywhere in the text, including one inside `id`. For an id containing a marker numbered 2 or lower (such as `a%1`) the code's name differs (`a1_%2` rather than `a%1_1`). Ids without such a marker are named exactly.
- Registry.ResolveCollision: the suffix loop tries the names of `Suffixed`, so it shares the place-marker difference of AssignedName.
- Text.Suffixed: `id_N` is plain concatenation; the `QString::arg` place-marker substitution inside `id` is not modelled.
- Registry.DataProcessing.RegisterClient: a new name is AssignedName, so it shares that place-marker difference.
- Text.LexLess: compares characters as Unicode scalar values, where `QString`'s `<` compares UTF-16 code units. The orders differ only for text with characters above U+FFFF.
- Registry.DataProcessing.RegisterClient: the takeover search is a nondeterministic choice among the matching DISCONNECTED records. `std::find_if` over a QHash picks the first in hash order, which is unspecified.
- Registry.DataProcessing.HandleClientConnected: the invariant is promised only when no registered record holds the new descriptor's decimal text.
  - The code reserves no placeholder ids, yet `removeClient` releases whatever id the record has.
  - An authorizing connection that disconnects can therefore release a registered client's id; `PlaceholderReleaseBreaksInv` shows this.
  - For the same reason, `RegisterClient` promises the invariant only when the requested id is not another authorizing connection's placeholder.
- The registry's `logMessage` texts are not modelled, and the worker's log batch therefore receives only the worker's own messages. Message text is not part of any state the model checks.
- Wall-clock time is not modelled. Timestamps are parameters (`now`, `timestamp`).
- Tables.Rank: TIME_STAMP cells compare as text rather than as parsed `QTime` values. For the fixed-width `hh:mm:ss.zzz` texts the registry writes, text order equals time order. Malformed timestamps, which `QTime` turns into invalid times, are not modelled.
- Text.Lower: case folding covers ASCII letters only. `QString::toLower` and case-insensitive `compare` also fold Cyrillic and other letters.
- Text.ParseInt: leading and trailing whitespace, which `QString::toInt` tolerates, is not accepted.
- Tables.TableModel.SortByColumn promises a sorted permutation, not the particular arrangement of equal keys that `std::sort` produces; that arrangement is unspecified.
- ViewModel.ServerViewModel.HandleClientBatchUpdate: the order of the new rows is the ghost `order`, an arbitrary enumeration of the pending descriptors, because `QHash::values()` order is unspecified.
- The `connections` count of a server entry is an unbounded `int`, not a 32-bit one, since no operation does arithmetic on it.
- `ServerWorker`'s server table: the header declares it keyed by (type, port), but the code indexes it by port alone. The model follows the code and keys it by port.
  - `startServer` overwrites any server already under the port.
  - `stopServer` ignores the type.
- `ServerWorker` does not model `DataProcessing::addServer` (signal wiring) or the calls to `server->startServer(port)` and `stopServer()` and `delete`; these are transport I/O.
  - The worker's forwarding slots (`sendToAllClients`, `updateClientConfiguration`, `removeDisconnectedClients`, `clearClients`) only call the registry operations modelled above, so they are not modelled separately.
- Threads, queued signal/slot connections and `QTimer` mechanics are not modelled. The timer is an `interval` and a `timerActive` flag, a tick is a method call, and emitted signals are entries in `published`.
- `ServerViewModel`'s request slots (`startServer`, `stopServer`, `startAllClients`, `stopAllClients`, `removeDisconnectedClients`, `updateClientConfiguration`) and `clearLog` only emit signals or clear the text, so they are not modelled.
- Qt model/view plumbing is not modelled: `beginInsertRows`, `dataChanged` and `resetSorting` notifications, `headerData`, `roleNames`, column widths, and colour and bold roles.
  - `ServerListModel::data` is not modelled as a role dispatcher; the helpers it calls are.
  - `DataTableModel::data` is not modelled either.
  - `ClientTableModel::data` is modelled for the display role only (`ClientDisplay`, proved about snapshots in `SnapshotDisplay`).
