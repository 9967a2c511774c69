/**
 * The table models behind the client and data views (BaseTableModel and
 * its two subclasses): a list of rows edited in place, the column-keyed
 * comparator used for sorting, and the display text of a client cell.
 */
module Tables {

  import opened Options
  import opened AppEnums
  import opened Text
  import opened Variants
  import opened Lists
  import Keys

  datatype SortOrder = Ascending | Descending

  /** The columns of the client table, in display order. */
  const ClientKeys: seq<string> := [Keys.ID, Keys.ADDRESS, Keys.STATUS, Keys.ALLOW_SENDING]

  /** The columns of the data table, in display order. */
  const DataKeys: seq<string> := [Keys.TIME_STAMP, Keys.ID, Keys.TYPE, Keys.PAYLOAD]

  // ---------------------------------------------------------------------------
  // The id comparator

  /**
   * parseId: splits an id at its last '_' into a text part and a number;
   * without '_' the whole id is the text, and a suffix that is not an int
   * counts as 0.
   */
  function ParseId(id: string): (string, int)
  {
    var p := LastIndexOf(id, '_');
    if p == -1 then (id, 0)
    else (id[..p], match ParseInt(id[p + 1..]) case Some(n) => n case None => 0)
  }

  /** An id without '_' is all text, with number 0. */
  lemma ParseIdPlain(id: string)
    requires '_' !in id
    ensures ParseId(id) == (id, 0)
  {
  }

  /** parseId undoes the collision suffix: `t_N` splits into t and N. */
  lemma ParseIdSuffixed(t: string, n: nat)
    requires n <= IntMax
    ensures ParseId(Suffixed(t, n)) == (t, n)
  {
    var s := Suffixed(t, n);
    var digits := NatToString(n);
    assert s == t + ['_'] + digits;
    var p := LastIndexOf(s, '_');
    assert s[|t|] == '_';
    assert p >= |t|;
    NoSeparatorInNumber(n);
    assert s[..p] == t;
    assert s[p + 1..] == digits;
    ParseFormatRoundTrip(n);
  }

  /** The key a row is ordered by under a column, before the sort order applies. */
  datatype SortKey = SortKey(text: string, num: int)

  /** Text first (character order), then number. */
  predicate KeyLess(a: SortKey, b: SortKey)
  {
    LexLess(a.text, b.text) || (a.text == b.text && a.num < b.num)
  }

  /** KeyLess is a strict total order on keys. */
  lemma KeyLessOrder(a: SortKey, b: SortKey, c: SortKey)
    ensures !KeyLess(a, a)
    ensures KeyLess(a, b) ==> !KeyLess(b, a)
    ensures KeyLess(a, b) && KeyLess(b, c) ==> KeyLess(a, c)
    ensures a == b || KeyLess(a, b) || KeyLess(b, a)
  {
    LexLessIrreflexive(a.text);
    LexLessTotal(a.text, b.text);
    if LexLess(a.text, b.text) {
      LexLessAsymmetric(a.text, b.text);
    }
    if LexLess(a.text, b.text) && LexLess(b.text, c.text) {
      LexLessTransitive(a.text, b.text, c.text);
    }
  }

  /**
   * The key of a row under a column: timestamps compare as written; ids
   * compare by lower-cased text part, then by number part; anything else
   * by its lower-cased text.
   */
  function Rank(row: Row, key: string): SortKey
  {
    var text := ToText(Get(row, key));
    if key == Keys.TIME_STAMP then SortKey(text, 0)
    else if key == Keys.ID then (var (t, n) := ParseId(text); SortKey(Lower(t), n))
    else SortKey(Lower(text), 0)
  }

  /** The comparator handed to std::sort: ascending compares with <, descending with >. */
  predicate Before(a: Row, b: Row, key: string, order: SortOrder)
  {
    if order == Ascending then KeyLess(Rank(a, key), Rank(b, key))
    else KeyLess(Rank(b, key), Rank(a, key))
  }

  /** The comparator is a strict weak ordering, as std::sort requires. */
  lemma BeforeStrictWeak(a: Row, b: Row, c: Row, key: string, order: SortOrder)
    ensures !Before(a, a, key, order)
    ensures Before(a, b, key, order) ==> !Before(b, a, key, order)
    ensures Before(a, b, key, order) && Before(b, c, key, order) ==> Before(a, c, key, order)
    ensures !Before(a, b, key, order) && !Before(b, c, key, order) ==> !Before(a, c, key, order)
  {
    var ra, rb, rc := Rank(a, key), Rank(b, key), Rank(c, key);
    KeyLessOrder(ra, rb, rc);
    KeyLessOrder(rc, rb, ra);
    KeyLessOrder(rb, rc, ra);
    KeyLessOrder(ra, rc, rb);
    KeyLessOrder(rc, ra, rb);
    KeyLessOrder(rb, ra, rc);
  }

  /** Ascending by id, `t_m` comes before `t_n` when m < n (so Client_2 before Client_10). */
  lemma SuffixOrder(t: string, m: nat, n: nat)
    requires m < n <= IntMax
    ensures Before(map[Keys.ID := Str(Suffixed(t, m))], map[Keys.ID := Str(Suffixed(t, n))], Keys.ID, Ascending)
    ensures !Before(map[Keys.ID := Str(Suffixed(t, n))], map[Keys.ID := Str(Suffixed(t, m))], Keys.ID, Ascending)
  {
    ParseIdSuffixed(t, m);
    ParseIdSuffixed(t, n);
    LexLessIrreflexive(Lower(t));
  }

  /** Ascending by id, a plain id comes before its own suffixed variants. */
  lemma PlainBeforeSuffixed(t: string, n: nat)
    requires '_' !in t && 1 <= n <= IntMax
    ensures Before(map[Keys.ID := Str(t)], map[Keys.ID := Str(Suffixed(t, n))], Keys.ID, Ascending)
  {
    ParseIdPlain(t);
    ParseIdSuffixed(t, n);
    LexLessIrreflexive(Lower(t));
  }

  // ---------------------------------------------------------------------------
  // Sorting

  /** No element is ordered strictly before its predecessor. */
  predicate SortedBy(s: seq<Row>, key: string, order: SortOrder)
  {
    forall i :: 0 < i < |s| ==> !Before(s[i], s[i - 1], key, order)
  }

  /** In a sorted sequence no later element is ordered before an earlier one. */
  lemma {:induction false} SortedByPairwise(s: seq<Row>, key: string, order: SortOrder, i: nat, j: nat)
    requires SortedBy(s, key, order)
    requires i < j < |s|
    ensures !Before(s[j], s[i], key, order)
    decreases j - i
  {
    if j > i + 1 {
      SortedByPairwise(s, key, order, i, j - 1);
      BeforeStrictWeak(s[j], s[j - 1], s[i], key, order);
    }
  }

  /** Inserts x before the first element it is not ordered after. */
  function Insert(x: Row, s: seq<Row>, key: string, order: SortOrder): (r: seq<Row>)
    ensures |r| == |s| + 1
    ensures multiset(r) == multiset(s) + multiset{x}
    ensures r[0] == x || (s != [] && r[0] == s[0])
  {
    if s == [] || !Before(s[0], x, key, order) then [x] + s
    else
      var tail := Insert(x, s[1..], key, order);
      assert multiset(s) == multiset{s[0]} + multiset(s[1..]) by {
        assert s == [s[0]] + s[1..];
      }
      assert multiset([s[0]] + tail) == multiset{s[0]} + multiset(tail);
      [s[0]] + tail
  }

  /** Dropping the first element of a sorted sequence leaves it sorted. */
  lemma SortedByTail(s: seq<Row>, key: string, order: SortOrder)
    requires s != [] && SortedBy(s, key, order)
    ensures SortedBy(s[1..], key, order)
  {
    forall i | 0 < i < |s[1..]| ensures !Before(s[1..][i], s[1..][i - 1], key, order) {
      assert s[1..][i] == s[i + 1] && s[1..][i - 1] == s[i];
    }
  }

  /** Inserting into a sorted sequence keeps it sorted. */
  lemma {:induction false} InsertSorted(x: Row, s: seq<Row>, key: string, order: SortOrder)
    requires SortedBy(s, key, order)
    ensures SortedBy(Insert(x, s, key, order), key, order)
  {
    if s != [] && Before(s[0], x, key, order) {
      var tail := Insert(x, s[1..], key, order);
      SortedByTail(s, key, order);
      InsertSorted(x, s[1..], key, order);
      assert !Before(tail[0], s[0], key, order) by {
        if tail[0] == x {
          BeforeStrictWeak(s[0], x, s[0], key, order);
        } else {
          assert |s| > 1 && tail[0] == s[1..][0] == s[1];
        }
      }
      var r := [s[0]] + tail;
      assert Insert(x, s, key, order) == r;
      forall i | 0 < i < |r| ensures !Before(r[i], r[i - 1], key, order) {
        if i > 1 {
          assert r[i] == tail[i - 1] && r[i - 1] == tail[i - 2];
        }
      }
    }
  }

  /** Insertion sort: an order-respecting permutation of the rows; std::sort promises no more. */
  function SortRows(s: seq<Row>, key: string, order: SortOrder): (r: seq<Row>)
    ensures multiset(r) == multiset(s)
  {
    if s == [] then []
    else
      assert s == [s[0]] + s[1..];
      Insert(s[0], SortRows(s[1..], key, order), key, order)
  }

  lemma {:induction false} SortRowsSorted(s: seq<Row>, key: string, order: SortOrder)
    ensures SortedBy(SortRows(s, key, order), key, order)
  {
    if s != [] {
      SortRowsSorted(s[1..], key, order);
      InsertSorted(s[0], SortRows(s[1..], key, order), key, order);
    }
  }

  // ---------------------------------------------------------------------------
  // Cell display

  /**
   * ClientTableModel's display text of a cell: a status code shows as its
   * status name, the send permission as "Да"/"Нет", anything else as text.
   */
  function ClientDisplay(row: Row, key: string): string
  {
    var value := Get(row, key);
    if key == Keys.STATUS then CodeToString(ToInt(value))
    else if key == Keys.ALLOW_SENDING then (if ToBool(value) then "Да" else "Нет")
    else ToText(value)
  }

  // ---------------------------------------------------------------------------
  // The table

  class TableModel {

    /** The row key shown in each column. */
    const keys: seq<string>
    var data: seq<Row>

    constructor Client()
      ensures keys == ClientKeys && data == []
    {
      keys := ClientKeys;
      data := [];
    }

    constructor Data()
      ensures keys == DataKeys && data == []
    {
      keys := DataKeys;
      data := [];
    }

    function RowCount(): (n: nat)
      reads this
      ensures n == |data|
    {
      |data|
    }

    /** setData: the rows are replaced wholesale. */
    method SetData(rows: seq<Row>)
      modifies this
      ensures data == rows
      ensures RowCount() == |rows| && forall i :: 0 <= i < |rows| ==> GetRowData(i) == rows[i]
    {
      data := rows;
    }

    /** addRows: each row in turn is prepended, so the batch ends up reversed in front. */
    method AddRows(rows: seq<Row>)
      modifies this
      ensures data == Reversed(rows) + old(data)
      ensures RowCount() == |rows| + old(RowCount())
      ensures forall i :: 0 <= i < |rows| ==> GetRowData(i) == rows[|rows| - 1 - i]
      ensures forall i :: 0 <= i < old(RowCount()) ==> GetRowData(|rows| + i) == old(GetRowData(i))
    {
      if rows == [] {
        return;
      }
      var i := 0;
      while i < |rows|
        invariant 0 <= i <= |rows|
        invariant data == Reversed(rows[..i]) + old(data)
      {
        assert rows[..i + 1][..i] == rows[..i];
        data := [rows[i]] + data;
        i := i + 1;
      }
      assert rows[..|rows|] == rows;
      PrependedReversed(rows, old(data));
    }

    /** addRow: prepends one row. */
    method AddRow(row: Row)
      modifies this
      ensures data == [row] + old(data)
    {
      data := [row] + data;
    }

    /** updateRow: replaces the row at an index in range; otherwise nothing. */
    method UpdateRow(row: int, rowData: Row)
      modifies this
      ensures |data| == |old(data)|
      ensures 0 <= row < |old(data)| ==> data[row] == rowData
      ensures forall i :: 0 <= i < |data| && i != row ==> data[i] == old(data)[i]
      ensures 0 <= row < |old(data)| ==> forall c :: 0 <= c < |keys| ==> BaseData(row, c) == Get(rowData, keys[c])
    {
      if 0 <= row < |data| {
        data := data[row := rowData];
      }
    }

    /**
     * removeRows: a start outside the table or a non-positive count changes
     * nothing; otherwise exactly the slice [row, row + count) goes, which the
     * caller must keep inside the table.
     */
    method RemoveRows(row: int, count: int)
      requires 0 <= row < |data| && count > 0 ==> row + count <= |data|
      modifies this
      ensures row < 0 || row >= |old(data)| || count <= 0 ==> data == old(data)
      ensures 0 <= row < |old(data)| && count > 0 ==> data == old(data)[..row] + old(data)[row + count..]
    {
      if row < 0 || row >= |data| || count <= 0 {
        return;
      }
      data := data[..row] + data[row + count..];
    }

    /** removeRow: removes the row at an index in range; otherwise nothing. */
    method RemoveRow(row: int)
      modifies this
      ensures 0 <= row < |old(data)| ==> data == old(data)[..row] + old(data)[row + 1..]
      ensures !(0 <= row < |old(data)|) ==> data == old(data)
    {
      if row < 0 || row >= |data| {
        return;
      }
      data := data[..row] + data[row + 1..];
    }

    method Clear()
      modifies this
      ensures data == []
    {
      data := [];
    }

    /** getRowData: the row at an index in range, an empty map otherwise. */
    function GetRowData(row: int): (r: Row)
      reads this
      ensures 0 <= row < |data| ==> r == data[row]
      ensures !(0 <= row < |data|) ==> r == map[]
    {
      if 0 <= row < |data| then data[row] else map[]
    }

    /**
     * BaseTableModel::data for the display role: the value under the
     * column's key, and an invalid value (None) for a cell outside the table
     * or a key the row lacks.
     */
    function BaseData(row: int, column: int): (r: Option<Variant>)
      reads this
      ensures r.Some? <==> 0 <= row < |data| && 0 <= column < |keys| && keys[column] in data[row]
      ensures r.Some? ==> r.value == data[row][keys[column]]
    {
      if row < 0 || row >= |data| || column < 0 || column >= |keys| then None
      else Get(data[row], keys[column])
    }

    /** ClientTableModel::data for the display role, on a valid index. */
    function ClientData(row: int, column: int): string
      reads this
      requires 0 <= row < |data| && 0 <= column < |keys|
    {
      ClientDisplay(data[row], keys[column])
    }

    /**
     * sortByColumn: an invalid column changes nothing; otherwise the rows
     * are permuted into the comparator's order for that column's key.
     */
    method SortByColumn(column: int, order: SortOrder)
      modifies this
      ensures !(0 <= column < |keys|) ==> data == old(data)
      ensures 0 <= column < |keys| ==>
        multiset(data) == multiset(old(data)) && SortedBy(data, keys[column], order)
    {
      if column < 0 || column >= |keys| {
        return;
      }
      SortRowsSorted(data, keys[column], order);
      data := SortRows(data, keys[column], order);
    }
  }
}
