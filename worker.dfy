/**
 * The worker that owns the registry (ServerWorker): the batch timer tick
 * that drains the registry's batches and the log batch and publishes the
 * non-empty ones, the log collector, and the starting and stopping of a
 * server, which start and stop the timer. Published signals are appended
 * to `published` in emission order.
 */
module Worker {

  import opened AppEnums
  import opened Variants
  import opened Registry

  /** The tick interval while the client batch keeps coming back empty. */
  const BATCH_TIMEOUT_MS: nat := 500
  /** The tick interval after a tick that carried client updates. */
  const BATCH_TIMEOUT_SLOW_MODE_MS: nat := 2000

  /** An entry of the server table; operator[] on a missing port inserts a null one. */
  datatype ServerSlot = NullServer | Server(serverType: ServerType)

  /** The worker's signals. */
  datatype Publication =
    | DataBatchReady(rows: seq<Row>)
    | ClientBatchReady(rows: seq<Row>)
    | LogBatchReady(lines: seq<string>)
    | ServerStarted
    | ServerStopped

  const CreateFailedMessage: string := "Ошибка: не удалось создать сервер."
  const StartedMessage: string := "Сервер успешно запущен."
  const StoppedMessage: string := "Сервер остановлен."

  /** One log entry: the timestamp in brackets, the message, a newline. */
  function LogLine(timestamp: string, message: string): string
  {
    "[" + timestamp + "] " + message + "\n"
  }

  /** The interval a tick sets, decided by the drained client batch alone. */
  function NextInterval(clientBatch: seq<Row>): (r: nat)
    ensures r == BATCH_TIMEOUT_MS || r == BATCH_TIMEOUT_SLOW_MODE_MS
    ensures r == BATCH_TIMEOUT_SLOW_MODE_MS <==> clientBatch != []
  {
    if clientBatch != [] then BATCH_TIMEOUT_SLOW_MODE_MS else BATCH_TIMEOUT_MS
  }

  /** Every telemetry record published, in publication order. */
  function DataPublished(pubs: seq<Publication>): seq<Row>
  {
    if pubs == [] then []
    else DataPublished(pubs[..|pubs| - 1]) + (if pubs[|pubs| - 1].DataBatchReady? then pubs[|pubs| - 1].rows else [])
  }

  /** Every client snapshot published, in publication order. */
  function ClientPublished(pubs: seq<Publication>): seq<Row>
  {
    if pubs == [] then []
    else ClientPublished(pubs[..|pubs| - 1]) + (if pubs[|pubs| - 1].ClientBatchReady? then pubs[|pubs| - 1].rows else [])
  }

  /** Every log line published, in publication order. */
  function LogPublished(pubs: seq<Publication>): seq<string>
  {
    if pubs == [] then []
    else LogPublished(pubs[..|pubs| - 1]) + (if pubs[|pubs| - 1].LogBatchReady? then pubs[|pubs| - 1].lines else [])
  }

  /** No publication carries an empty batch. */
  predicate NoEmptyBatches(pubs: seq<Publication>)
  {
    forall i :: 0 <= i < |pubs| ==>
      (pubs[i].DataBatchReady? || pubs[i].ClientBatchReady? ==> pubs[i].rows != []) &&
      (pubs[i].LogBatchReady? ==> pubs[i].lines != [])
  }

  /** The publication a drained batch gives rise to: none when it is empty. */
  function DataPart(data: seq<Row>): seq<Publication>
  {
    if data != [] then [DataBatchReady(data)] else []
  }
  function ClientPart(clients: seq<Row>): seq<Publication>
  {
    if clients != [] then [ClientBatchReady(clients)] else []
  }
  function LogPart(log: seq<string>): seq<Publication>
  {
    if log != [] then [LogBatchReady(log)] else []
  }

  /** What one tick emits: each drained batch, in this order, when it is not empty. */
  function TickPublications(data: seq<Row>, clients: seq<Row>, log: seq<string>): seq<Publication>
  {
    DataPart(data) + ClientPart(clients) + LogPart(log)
  }

  lemma {:induction false} DataPublishedAppend(p: seq<Publication>, q: seq<Publication>)
    ensures DataPublished(p + q) == DataPublished(p) + DataPublished(q)
    decreases |q|
  {
    if q == [] {
      assert p + q == p;
    } else {
      var q' := q[..|q| - 1];
      assert (p + q)[..|p + q| - 1] == p + q';
      DataPublishedAppend(p, q');
    }
  }

  lemma {:induction false} ClientPublishedAppend(p: seq<Publication>, q: seq<Publication>)
    ensures ClientPublished(p + q) == ClientPublished(p) + ClientPublished(q)
    decreases |q|
  {
    if q == [] {
      assert p + q == p;
    } else {
      var q' := q[..|q| - 1];
      assert (p + q)[..|p + q| - 1] == p + q';
      ClientPublishedAppend(p, q');
    }
  }

  lemma {:induction false} LogPublishedAppend(p: seq<Publication>, q: seq<Publication>)
    ensures LogPublished(p + q) == LogPublished(p) + LogPublished(q)
    decreases |q|
  {
    if q == [] {
      assert p + q == p;
    } else {
      var q' := q[..|q| - 1];
      assert (p + q)[..|p + q| - 1] == p + q';
      LogPublishedAppend(p, q');
    }
  }

  /** The flattened publications of a longer history extend those of a shorter one. */
  lemma PublishedAppend(p: seq<Publication>, q: seq<Publication>)
    ensures DataPublished(p + q) == DataPublished(p) + DataPublished(q)
    ensures ClientPublished(p + q) == ClientPublished(p) + ClientPublished(q)
    ensures LogPublished(p + q) == LogPublished(p) + LogPublished(q)
    ensures NoEmptyBatches(p) && NoEmptyBatches(q) ==> NoEmptyBatches(p + q)
  {
    DataPublishedAppend(p, q);
    ClientPublishedAppend(p, q);
    LogPublishedAppend(p, q);
  }

  /** A single publication publishes its own batch and nothing else. */
  lemma SinglePublished(p: Publication)
    ensures DataPublished([p]) == (if p.DataBatchReady? then p.rows else [])
    ensures ClientPublished([p]) == (if p.ClientBatchReady? then p.rows else [])
    ensures LogPublished([p]) == (if p.LogBatchReady? then p.lines else [])
  {
    assert [p][..0] == [];
  }

  /** Each part publishes its own batch, and nothing of the other kinds. */
  lemma PartsPublished(data: seq<Row>, clients: seq<Row>, log: seq<string>)
    ensures DataPublished(DataPart(data)) == data && ClientPublished(DataPart(data)) == [] && LogPublished(DataPart(data)) == []
    ensures DataPublished(ClientPart(clients)) == [] && ClientPublished(ClientPart(clients)) == clients && LogPublished(ClientPart(clients)) == []
    ensures DataPublished(LogPart(log)) == [] && ClientPublished(LogPart(log)) == [] && LogPublished(LogPart(log)) == log
    ensures NoEmptyBatches(DataPart(data)) && NoEmptyBatches(ClientPart(clients)) && NoEmptyBatches(LogPart(log))
  {
    if data != [] { SinglePublished(DataBatchReady(data)); }
    if clients != [] { SinglePublished(ClientBatchReady(clients)); }
    if log != [] { SinglePublished(LogBatchReady(log)); }
  }

  /** A tick publishes each drained batch whole, exactly once, and never an empty one. */
  lemma TickPublishesAll(data: seq<Row>, clients: seq<Row>, log: seq<string>)
    ensures DataPublished(TickPublications(data, clients, log)) == data
    ensures ClientPublished(TickPublications(data, clients, log)) == clients
    ensures LogPublished(TickPublications(data, clients, log)) == log
    ensures NoEmptyBatches(TickPublications(data, clients, log))
  {
    var a, b, c := DataPart(data), ClientPart(clients), LogPart(log);
    assert TickPublications(data, clients, log) == (a + b) + c;
    PartsPublished(data, clients, log);
    PublishedAppend(a, b);
    PublishedAppend(a + b, c);
  }

  /** The timer slows down exactly when the tick published client updates. */
  lemma IntervalFollowsPublications(data: seq<Row>, clients: seq<Row>, log: seq<string>)
    ensures NextInterval(clients) == BATCH_TIMEOUT_SLOW_MODE_MS <==>
      ClientPublished(TickPublications(data, clients, log)) != []
    ensures NextInterval(clients) == BATCH_TIMEOUT_MS <==>
      ClientPublished(TickPublications(data, clients, log)) == []
  {
    TickPublishesAll(data, clients, log);
  }

  /** After a tick, the history publishes exactly what it did before plus the drained batches. */
  lemma TickAccounting(before: seq<Publication>, data: seq<Row>, clients: seq<Row>, log: seq<string>)
    ensures var after := before + TickPublications(data, clients, log);
      && DataPublished(after) == DataPublished(before) + data
      && ClientPublished(after) == ClientPublished(before) + clients
      && LogPublished(after) == LogPublished(before) + log
      && (NoEmptyBatches(before) ==> NoEmptyBatches(after))
  {
    PublishedAppend(before, TickPublications(data, clients, log));
    TickPublishesAll(data, clients, log);
  }

  class ServerWorker {

    const processing: DataProcessing
    var interval: nat
    var timerActive: bool
    var logBatch: seq<string>
    var servers: map<Port, ServerSlot>
    var published: seq<Publication>

    constructor ()
      ensures fresh(processing) && processing.Inv()
      ensures processing.clients == map[] && processing.usedIds == {}
      ensures processing.clientBatch == [] && processing.dataBatch == [] && processing.outbox == []
      ensures !timerActive && interval == 0 && logBatch == [] && servers == map[] && published == []
    {
      processing := new DataProcessing();
      interval := 0;
      timerActive := false;
      logBatch := [];
      servers := map[];
      published := [];
    }

    /** handleLogMessage: one timestamped line per message. */
    method HandleLogMessage(message: string, timestamp: string)
      modifies this`logBatch
      ensures logBatch == old(logBatch) + [LogLine(timestamp, message)]
    {
      logBatch := logBatch + [LogLine(timestamp, message)];
    }

    /**
     * handleBatchTimerTimeout: drains the telemetry batch, the snapshot
     * batch and the log batch and publishes each one that is not empty; the
     * next interval is slow exactly when snapshots were drained
     * (TickAccounting: nothing drained is lost or published twice).
     */
    method HandleBatchTimerTimeout()
      modifies this, processing`dataBatch, processing`clientBatch
      ensures processing.dataBatch == [] && processing.clientBatch == [] && logBatch == []
      ensures interval == NextInterval(old(processing.clientBatch))
      ensures published == old(published) + TickPublications(old(processing.dataBatch), old(processing.clientBatch), old(logBatch))
      ensures timerActive == old(timerActive) && servers == old(servers)
    {
      ghost var before, lines := published, logBatch;
      var dataBatch := processing.TakeDataBatch();
      if dataBatch != [] {
        published := published + [DataBatchReady(dataBatch)];
      }
      ghost var a := DataPart(dataBatch);
      assert published == before + a;

      var clientBatch := processing.TakeClientUpdatesBatch();
      if clientBatch != [] {
        interval := BATCH_TIMEOUT_SLOW_MODE_MS;
        published := published + [ClientBatchReady(clientBatch)];
      } else {
        interval := BATCH_TIMEOUT_MS;
      }
      ghost var b := ClientPart(clientBatch);
      assert published == before + a + b;

      if logBatch != [] {
        published := published + [LogBatchReady(logBatch)];
        logBatch := [];
      }
      ghost var c := LogPart(lines);
      assert published == before + a + b + c;

      assert a + b + c == TickPublications(dataBatch, clientBatch, lines);
    }

    /**
     * startServer: only a TCP server can be created; otherwise an error is
     * logged and nothing else happens. A created server is filed under its
     * port, the timer starts at the fast interval and the start is logged
     * and signalled.
     */
    method StartServer(serverType: ServerType, port: Port, timestamp: string)
      modifies this
      ensures serverType != TCP ==>
        && servers == old(servers) && timerActive == old(timerActive) && interval == old(interval)
        && logBatch == old(logBatch) + [LogLine(timestamp, CreateFailedMessage)]
        && published == old(published)
      ensures serverType == TCP ==>
        && servers == old(servers)[port := Server(TCP)]
        && timerActive && interval == BATCH_TIMEOUT_MS
        && logBatch == old(logBatch) + [LogLine(timestamp, StartedMessage)]
        && published == old(published) + [ServerStarted]
    {
      if serverType != TCP {
        HandleLogMessage(CreateFailedMessage, timestamp);
        return;
      }
      servers := servers[port := Server(serverType)];
      timerActive, interval := true, BATCH_TIMEOUT_MS;
      HandleLogMessage(StartedMessage, timestamp);
      published := published + [ServerStarted];
    }

    /**
     * stopServer: looks the port up with operator[], which files a null
     * entry under an unknown port. A server found there is forgotten, the
     * registry is cleared, the timer stops and the stop is logged and
     * signalled; otherwise nothing else happens. The type is not consulted.
     */
    method StopServer(serverType: ServerType, port: Port, timestamp: string)
      modifies this, processing
      ensures processing.clientBatch == old(processing.clientBatch) && processing.dataBatch == old(processing.dataBatch)
      ensures processing.outbox == old(processing.outbox)
      ensures interval == old(interval)
      ensures port in old(servers) && old(servers)[port].Server? ==>
        && servers == old(servers) - {port}
        && processing.clients == map[] && processing.usedIds == {} && processing.Inv()
        && !timerActive
        && logBatch == old(logBatch) + [LogLine(timestamp, StoppedMessage)]
        && published == old(published) + [ServerStopped]
      ensures !(port in old(servers) && old(servers)[port].Server?) ==>
        && servers == old(servers)[port := NullServer]
        && processing.clients == old(processing.clients) && processing.usedIds == old(processing.usedIds)
        && timerActive == old(timerActive) && logBatch == old(logBatch) && published == old(published)
    {
      if port !in servers {
        servers := servers[port := NullServer];
      }
      var server := servers[port];
      if server.Server? {
        processing.ClearClients();
        servers := servers - {port};
        timerActive := false;
        HandleLogMessage(StoppedMessage, timestamp);
        published := published + [ServerStopped];
      }
    }
  }
}
