/**
 * The UI-side consumer of the worker's batches (ServerViewModel): merging
 * a batch of client snapshots into the client table by descriptor, adding
 * telemetry to the data table with trimming, prepending log lines, and the
 * per-table sort order that flips on every sort.
 */
module ViewModel {

  import opened AppEnums
  import opened Text
  import opened Variants
  import opened Lists
  import opened Tables
  import opened Registry
  import Keys

  /** Above this many rows the data table is trimmed... */
  const MAX_DATA_TABLE_ROWS: nat := 5000
  /** ...keeping MAX_DATA_TABLE_ROWS - DATA_TABLE_TRIM_LENGTH rows. */
  const DATA_TABLE_TRIM_LENGTH: nat := 2000

  // ---------------------------------------------------------------------------
  // Merging a client batch

  /** The descriptor of a snapshot or row, as text (the merge key). */
  function Desc(row: Row): string
  {
    ToText(Get(row, Keys.DESCRIPTOR))
  }

  /** The status code a snapshot or row carries. */
  function StatusCode(row: Row): int
  {
    ToInt(Get(row, Keys.STATUS))
  }

  /** The descriptors of a list of rows. */
  function DescSet(rows: seq<Row>): set<string>
  {
    set i | 0 <= i < |rows| :: Desc(rows[i])
  }

  /** No two rows share a descriptor. */
  predicate DistinctDescs(rows: seq<Row>)
  {
    forall i, j :: 0 <= i < j < |rows| ==> Desc(rows[i]) != Desc(rows[j])
  }

  /** Every entry of an update map is filed under its own descriptor. */
  predicate KeyedByDesc(m: map<string, Row>)
  {
    forall k :: k in m ==> Desc(m[k]) == k
  }

  /** The update map of a batch: each descriptor maps to its last snapshot in the batch. */
  function BatchMap(batch: seq<Row>): (m: map<string, Row>)
    ensures KeyedByDesc(m)
    ensures m.Keys == DescSet(batch)
  {
    if batch == [] then map[]
    else
      var prefix := batch[..|batch| - 1];
      var last := batch[|batch| - 1];
      assert forall i :: 0 <= i < |prefix| ==> prefix[i] == batch[i];
      assert DescSet(batch) == DescSet(prefix) + {Desc(last)};
      BatchMap(prefix)[Desc(last) := last]
  }

  /** The last snapshot for a descriptor wins. */
  lemma {:induction false} BatchMapLastWins(batch: seq<Row>, i: nat)
    requires i < |batch|
    requires forall j :: i < j < |batch| ==> Desc(batch[j]) != Desc(batch[i])
    ensures BatchMap(batch)[Desc(batch[i])] == batch[i]
    decreases |batch|
  {
    if i < |batch| - 1 {
      var prefix := batch[..|batch| - 1];
      assert prefix[i] == batch[i];
      BatchMapLastWins(prefix, i);
    }
  }

  /** The merged rows so far and the updates not yet taken. */
  datatype Merge = Merge(rows: seq<Row>, pending: map<string, Row>)

  /**
   * The pass over the current rows: a row whose descriptor has a pending
   * update is replaced by that update (taken out of the map), or dropped
   * when the update is DELETED; any other row is kept as it is.
   */
  function MergeExisting(existing: seq<Row>, m: map<string, Row>): Merge
  {
    if existing == [] then Merge([], m)
    else
      var prev := MergeExisting(existing[..|existing| - 1], m);
      var row := existing[|existing| - 1];
      var d := Desc(row);
      if d in prev.pending then
        var updated := prev.pending[d];
        Merge(if StatusCode(updated) != Code(DELETED) then prev.rows + [updated] else prev.rows, prev.pending - {d})
      else Merge(prev.rows + [row], prev.pending)
  }

  /** Whether a snapshot for a descriptor not yet shown is added: neither DISCONNECTED nor DELETED. */
  predicate Admitted(row: Row)
  {
    StatusCode(row) != Code(DISCONNECTED) && StatusCode(row) != Code(DELETED)
  }

  /** The admitted pending updates, visited in `order`. */
  function NewRows(order: seq<string>, pending: map<string, Row>): seq<Row>
    requires forall i :: 0 <= i < |order| ==> order[i] in pending
  {
    if order == [] then []
    else
      var k := order[|order| - 1];
      NewRows(order[..|order| - 1], pending) + (if Admitted(pending[k]) then [pending[k]] else [])
  }

  /** What one current row becomes under an update map, without consuming it. */
  function Replaced(row: Row, m: map<string, Row>): seq<Row>
  {
    var d := Desc(row);
    if d !in m then [row]
    else if StatusCode(m[d]) != Code(DELETED) then [m[d]]
    else []
  }

  /** The reference merge: every current row replaced independently. */
  function ReplaceAll(existing: seq<Row>, m: map<string, Row>): seq<Row>
  {
    if existing == [] then []
    else ReplaceAll(existing[..|existing| - 1], m) + Replaced(existing[|existing| - 1], m)
  }

  /**
   * With distinct descriptors in the table, the consuming pass is the
   * reference merge, and what it leaves pending is exactly the updates for
   * descriptors not in the table.
   */
  lemma {:induction false} MergeMatchesReference(existing: seq<Row>, m: map<string, Row>)
    requires DistinctDescs(existing)
    ensures MergeExisting(existing, m).rows == ReplaceAll(existing, m)
    ensures MergeExisting(existing, m).pending == m - DescSet(existing)
    decreases |existing|
  {
    if existing != [] {
      var prefix := existing[..|existing| - 1];
      var row := existing[|existing| - 1];
      assert forall i :: 0 <= i < |prefix| ==> prefix[i] == existing[i];
      assert DescSet(existing) == DescSet(prefix) + {Desc(row)};
      assert DistinctDescs(prefix);
      MergeMatchesReference(prefix, m);
      assert Desc(row) !in DescSet(prefix);
    }
  }

  /** The descriptors of two row lists joined are those of each. */
  lemma DescSetAppend(a: seq<Row>, b: seq<Row>)
    ensures DescSet(a + b) == DescSet(a) + DescSet(b)
  {
    forall k | k in DescSet(a + b) ensures k in DescSet(a) + DescSet(b) {
      var i :| 0 <= i < |a + b| && Desc((a + b)[i]) == k;
      if i >= |a| {
        assert (a + b)[i] == b[i - |a|];
      }
    }
    forall k | k in DescSet(b) ensures k in DescSet(a + b) {
      var i :| 0 <= i < |b| && Desc(b[i]) == k;
      assert (a + b)[|a| + i] == b[i];
    }
    forall k | k in DescSet(a) ensures k in DescSet(a + b) {
      var i :| 0 <= i < |a| && Desc(a[i]) == k;
      assert (a + b)[i] == a[i];
    }
  }

  /**
   * Facts of the consuming pass that hold for any table: the pending map
   * only shrinks, never keeps a descriptor of the table, and every merged
   * row carries the descriptor of the row it came from.
   */
  lemma {:induction false} MergeExistingFacts(existing: seq<Row>, m: map<string, Row>)
    requires KeyedByDesc(m)
    ensures var r := MergeExisting(existing, m);
      && r.pending.Keys == m.Keys - DescSet(existing)
      && (forall k :: k in r.pending ==> r.pending[k] == m[k])
      && DescSet(r.rows) <= DescSet(existing)
      && (DistinctDescs(existing) ==> DistinctDescs(r.rows))
    decreases |existing|
  {
    if existing != [] {
      var prefix := existing[..|existing| - 1];
      var row := existing[|existing| - 1];
      assert forall i :: 0 <= i < |prefix| ==> prefix[i] == existing[i];
      assert DescSet(existing) == DescSet(prefix) + {Desc(row)};
      MergeExistingFacts(prefix, m);
      var prev := MergeExisting(prefix, m);
      var r := MergeExisting(existing, m);
      var d := Desc(row);
      if d in prev.pending {
        assert Desc(prev.pending[d]) == d;
      }
      if r.rows != prev.rows {
        var x := if d in prev.pending then prev.pending[d] else row;
        assert r.rows == prev.rows + [x] && Desc(x) == d;
        assert DescSet([x]) == {d} by {
          assert [x][0] == x;
        }
        assert DescSet(r.rows) == DescSet(prev.rows) + {d} by {
          DescSetAppend(prev.rows, [x]);
        }
        if DistinctDescs(existing) {
          assert DistinctDescs(prefix);
          assert d !in DescSet(prefix);
          DistinctConcat(prev.rows, [x]);
        }
      } else if DistinctDescs(existing) {
        assert DistinctDescs(prefix);
      }
    }
  }

  /** The added rows carry the descriptors they are filed under, each once when the order has no repeats. */
  lemma {:induction false} NewRowsFacts(order: seq<string>, pending: map<string, Row>)
    requires forall i :: 0 <= i < |order| ==> order[i] in pending
    requires KeyedByDesc(pending)
    ensures DescSet(NewRows(order, pending)) <= set i | 0 <= i < |order| :: order[i]
    ensures (forall i, j :: 0 <= i < j < |order| ==> order[i] != order[j]) ==> DistinctDescs(NewRows(order, pending))
    decreases |order|
  {
    if order != [] {
      var prefix := order[..|order| - 1];
      var k := order[|order| - 1];
      assert forall i :: 0 <= i < |prefix| ==> prefix[i] == order[i];
      NewRowsFacts(prefix, pending);
      var prev := NewRows(prefix, pending);
      var r := NewRows(order, pending);
      assert (set i | 0 <= i < |order| :: order[i]) == (set i | 0 <= i < |prefix| :: prefix[i]) + {k};
      assert DescSet(r) <= DescSet(prev) + {k};
      if forall i, j :: 0 <= i < j < |order| ==> order[i] != order[j] {
        assert k !in set i | 0 <= i < |prefix| :: prefix[i];
        forall i, j | 0 <= i < j < |r| ensures Desc(r[i]) != Desc(r[j]) {
          if j == |prev| {
            assert r[i] == prev[i];
            assert Desc(r[i]) in DescSet(prev);
          } else {
            assert r[i] == prev[i] && r[j] == prev[j];
          }
        }
      }
    }
  }

  /** Two row lists with distinct descriptors and no descriptor in common concatenate to one. */
  lemma DistinctConcat(a: seq<Row>, b: seq<Row>)
    requires DistinctDescs(a) && DistinctDescs(b)
    requires DescSet(a) !! DescSet(b)
    ensures DistinctDescs(a + b)
  {
    forall i, j | 0 <= i < j < |a + b| ensures Desc((a + b)[i]) != Desc((a + b)[j]) {
      if i < |a| && j >= |a| {
        assert Desc((a + b)[i]) in DescSet(a);
        assert (a + b)[j] == b[j - |a|];
        assert Desc(b[j - |a|]) in DescSet(b);
      }
    }
  }

  /**
   * If the table's descriptors were distinct, they still are after a merge,
   * whatever order the remaining updates are visited in.
   */
  lemma MergeKeepsDistinct(existing: seq<Row>, batch: seq<Row>, order: seq<string>)
    requires DistinctDescs(existing)
    requires forall i, j :: 0 <= i < j < |order| ==> order[i] != order[j]
    requires forall k :: k in MergeExisting(existing, BatchMap(batch)).pending <==> k in order
    ensures var r := MergeExisting(existing, BatchMap(batch));
      DistinctDescs(r.rows + NewRows(order, r.pending))
  {
    var m := BatchMap(batch);
    var r := MergeExisting(existing, m);
    MergeExistingFacts(existing, m);
    assert KeyedByDesc(r.pending);
    NewRowsFacts(order, r.pending);
    assert (set i | 0 <= i < |order| :: order[i]) == r.pending.Keys;
    DistinctConcat(r.rows, NewRows(order, r.pending));
  }

  // ---------------------------------------------------------------------------
  // Data trimming and the log

  /** A data table that grew past the limit keeps only its newest MAX - TRIM rows. */
  function Trimmed(rows: seq<Row>): (r: seq<Row>)
    ensures |r| <= MAX_DATA_TABLE_ROWS
    ensures |r| <= |rows| && r == rows[..|r|]
    ensures |rows| <= MAX_DATA_TABLE_ROWS ==> r == rows
    ensures |rows| > MAX_DATA_TABLE_ROWS ==> |r| == MAX_DATA_TABLE_ROWS - DATA_TABLE_TRIM_LENGTH
  {
    if |rows| > MAX_DATA_TABLE_ROWS then rows[..MAX_DATA_TABLE_ROWS - DATA_TABLE_TRIM_LENGTH] else rows
  }

  /** The log text after a batch: the batch's lines newest first, in front of the old text. */
  function WithLogBatch(batch: seq<string>, text: string): string
  {
    if batch == [] then text else Concat(Reversed(batch)) + text
  }

  /** Two log batches in turn amount to their concatenation as one batch. */
  lemma LogBatchesCompose(b1: seq<string>, b2: seq<string>, text: string)
    ensures WithLogBatch(b2, WithLogBatch(b1, text)) == WithLogBatch(b1 + b2, text)
  {
    if b1 == [] {
      assert b1 + b2 == b2;
    } else if b2 == [] {
      assert b1 + b2 == b1;
    } else {
      var r1, r2 := Concat(Reversed(b1)), Concat(Reversed(b2));
      ReversedAppend(b1, b2);
      ConcatAppend(Reversed(b2), Reversed(b1));
      assert Concat(Reversed(b1 + b2)) == r2 + r1;
      assert WithLogBatch(b1 + b2, text) == (r2 + r1) + text;
      assert WithLogBatch(b2, WithLogBatch(b1, text)) == r2 + (r1 + text);
    }
  }

  /** The next sort order: a sort always toggles it. */
  function Flip(o: SortOrder): (r: SortOrder)
    ensures r != o
  {
    if o == Ascending then Descending else Ascending
  }

  // ---------------------------------------------------------------------------
  // Snapshots as the client table shows them

  /**
   * A registry snapshot is merged under its descriptor's decimal text and
   * is shown with the record's id, its status name and "Да"/"Нет" for the
   * send permission; a DELETED snapshot removes the row rather than showing.
   */
  lemma SnapshotDisplay(d: nat, s: ClientState)
    ensures Desc(ClientDataMap(d, s)) == NatToString(d)
    ensures StatusCode(ClientDataMap(d, s)) == Code(DELETED) <==> s.status == DELETED
    ensures Admitted(ClientDataMap(d, s)) <==> s.status == AUTHORIZING || s.status == CONNECTED
    ensures ClientDisplay(ClientDataMap(d, s), Keys.ID) == s.id
    ensures ClientDisplay(ClientDataMap(d, s), Keys.STATUS) == ClientStatusToString(s.status)
    ensures ClientDisplay(ClientDataMap(d, s), Keys.ALLOW_SENDING) == (if s.allowSending then "Да" else "Нет")
  {
    ClientDataMapReadBack(d, s);
    CodeOrderAndRoundTrip(s.status, DELETED);
    CodeOrderAndRoundTrip(s.status, DISCONNECTED);
  }

  // ---------------------------------------------------------------------------
  // The three passes of handleClientBatchUpdate

  /** Pass 1: the update map, each snapshot inserted in turn under its descriptor. */
  method CollectBatch(clientBatch: seq<Row>) returns (batchMap: map<string, Row>)
    ensures batchMap == BatchMap(clientBatch)
  {
    batchMap := map[];
    var i := 0;
    while i < |clientBatch|
      invariant 0 <= i <= |clientBatch|
      invariant batchMap == BatchMap(clientBatch[..i])
    {
      assert clientBatch[..i + 1][..i] == clientBatch[..i];
      batchMap := batchMap[Desc(clientBatch[i]) := clientBatch[i]];
      i := i + 1;
    }
    assert clientBatch[..|clientBatch|] == clientBatch;
  }

  /** Pass 2: the current rows, each replaced, dropped or kept, taking used updates out of the map. */
  method MergeCurrentRows(table: TableModel, batchMap: map<string, Row>) returns (rows: seq<Row>, pending: map<string, Row>)
    ensures Merge(rows, pending) == MergeExisting(table.data, batchMap)
  {
    rows, pending := [], batchMap;
    var i := 0;
    while i < table.RowCount()
      invariant 0 <= i <= |table.data|
      invariant Merge(rows, pending) == MergeExisting(table.data[..i], batchMap)
    {
      assert table.data[..i + 1][..i] == table.data[..i];
      var existingClient := table.GetRowData(i);
      var descriptor := Desc(existingClient);
      if descriptor in pending {
        var updatedClientData := pending[descriptor];
        pending := pending - {descriptor};
        var status := StatusCode(updatedClientData);
        if status != Code(DELETED) {
          rows := rows + [updatedClientData];
        }
      } else {
        rows := rows + [existingClient];
      }
      i := i + 1;
    }
    assert table.data[..|table.data|] == table.data;
  }

  /** Pass 3: the admitted updates left in the map, visited once each in the (hash) order `order`. */
  method NewClientRows(pending: map<string, Row>) returns (rows: seq<Row>, ghost order: seq<string>)
    ensures forall i, j :: 0 <= i < j < |order| ==> order[i] != order[j]
    ensures forall k :: k in pending <==> k in order
    ensures rows == NewRows(order, pending)
  {
    rows, order := [], [];
    var todo := pending.Keys;
    while todo != {}
      invariant todo <= pending.Keys
      invariant forall i :: 0 <= i < |order| ==> order[i] in pending
      invariant forall i, j :: 0 <= i < j < |order| ==> order[i] != order[j]
      invariant forall k :: k in pending ==> (k in order <==> k !in todo)
      invariant rows == NewRows(order, pending)
      decreases todo
    {
      var k :| k in todo;
      var newClientData := pending[k];
      var status := StatusCode(newClientData);
      if status != Code(DISCONNECTED) && status != Code(DELETED) {
        rows := rows + [newClientData];
      }
      assert (order + [k])[..|order|] == order;
      order := order + [k];
      todo := todo - {k};
    }
  }

  // ---------------------------------------------------------------------------
  // The view model

  class ServerViewModel {

    const clientTable: TableModel
    const dataTable: TableModel
    var logText: string
    var clientSortOrder: SortOrder
    var dataSortOrder: SortOrder

    constructor ()
      ensures fresh(clientTable) && fresh(dataTable) && clientTable != dataTable
      ensures clientTable.keys == ClientKeys && clientTable.data == []
      ensures dataTable.keys == DataKeys && dataTable.data == []
      ensures logText == "" && clientSortOrder == Ascending && dataSortOrder == Ascending
    {
      clientTable := new TableModel.Client();
      dataTable := new TableModel.Data();
      logText := "";
      clientSortOrder, dataSortOrder := Ascending, Ascending;
    }

    /**
     * handleClientBatchUpdate: an empty batch changes nothing; otherwise the
     * table becomes the merged current rows followed by the admitted
     * updates for descriptors not in the table, visited in `order`, an
     * enumeration of those descriptors (hash order).
     */
    method HandleClientBatchUpdate(clientBatch: seq<Row>) returns (ghost order: seq<string>)
      modifies clientTable
      ensures clientBatch == [] ==> clientTable.data == old(clientTable.data)
      ensures clientBatch != [] ==>
        var merged := MergeExisting(old(clientTable.data), BatchMap(clientBatch));
        && (forall i, j :: 0 <= i < j < |order| ==> order[i] != order[j])
        && (forall k :: k in merged.pending <==> k in order)
        && clientTable.data == merged.rows + NewRows(order, merged.pending)
    {
      order := [];
      if clientBatch == [] {
        return;
      }
      var batchMap := CollectBatch(clientBatch);
      var finalDataList;
      finalDataList, batchMap := MergeCurrentRows(clientTable, batchMap);
      var added;
      added, order := NewClientRows(batchMap);
      clientTable.SetData(finalDataList + added);
    }

    /**
     * handleDataBatchReceived: the batch is prepended newest first, and a
     * table that grew past 5000 rows is cut back to its first 3000.
     */
    method HandleDataBatchReceived(dataBatch: seq<Row>)
      modifies dataTable
      ensures dataTable.data == Trimmed(Reversed(dataBatch) + old(dataTable.data))
    {
      dataTable.AddRows(dataBatch);
      if dataTable.RowCount() > MAX_DATA_TABLE_ROWS {
        var rowsToRemove := dataTable.RowCount() - (MAX_DATA_TABLE_ROWS - DATA_TABLE_TRIM_LENGTH);
        if rowsToRemove > 0 {
          dataTable.RemoveRows(MAX_DATA_TABLE_ROWS - DATA_TABLE_TRIM_LENGTH, rowsToRemove);
        }
      }
    }

    /** handleLogBatch: a non-empty batch goes in front of the log, newest line first. */
    method HandleLogBatch(logBatch: seq<string>)
      modifies this`logText
      ensures logText == WithLogBatch(logBatch, old(logText))
    {
      if logBatch == [] {
        return;
      }
      var reversedLog := Reversed(logBatch);
      logText := Concat(reversedLog) + logText;
    }

    /** sortClients: sorts by the column in the current order, then toggles the order. */
    method SortClients(columnIndex: int)
      modifies this`clientSortOrder, clientTable
      ensures clientSortOrder == Flip(old(clientSortOrder))
      ensures !(0 <= columnIndex < |clientTable.keys|) ==> clientTable.data == old(clientTable.data)
      ensures 0 <= columnIndex < |clientTable.keys| ==>
        && multiset(clientTable.data) == multiset(old(clientTable.data))
        && SortedBy(clientTable.data, clientTable.keys[columnIndex], old(clientSortOrder))
    {
      clientTable.SortByColumn(columnIndex, clientSortOrder);
      clientSortOrder := Flip(clientSortOrder);
    }

    /** sortData: sorts by the column in the current order, then toggles the order. */
    method SortData(columnIndex: int)
      modifies this`dataSortOrder, dataTable
      ensures dataSortOrder == Flip(old(dataSortOrder))
      ensures !(0 <= columnIndex < |dataTable.keys|) ==> dataTable.data == old(dataTable.data)
      ensures 0 <= columnIndex < |dataTable.keys| ==>
        && multiset(dataTable.data) == multiset(old(dataTable.data))
        && SortedBy(dataTable.data, dataTable.keys[columnIndex], old(dataSortOrder))
    {
      dataTable.SortByColumn(columnIndex, dataSortOrder);
      dataSortOrder := Flip(dataSortOrder);
    }

    /** handleServerStopped: both tables are emptied. */
    method HandleServerStopped()
      modifies clientTable, dataTable
      ensures clientTable.data == [] && dataTable.data == []
    {
      clientTable.Clear();
      dataTable.Clear();
    }
  }
}
