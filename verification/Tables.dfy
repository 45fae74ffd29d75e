/** Facts about the two database tables. */
module Tables {
  import opened Messages

  /** UNIQUE_ID is a primary key, and a serial is never used twice. */
  predicate NoDup(table: seq<Row>) {
    forall i, j :: 0 <= i < j < |table| ==> table[i].uniqueId != table[j].uniqueId && table[i].serial != table[j].serial
  }

  lemma {:induction false} RemoveRowAbsent(table: seq<Row>, id: MessageId)
    requires forall i :: 0 <= i < |table| ==> table[i].uniqueId != id
    ensures RemoveRow(table, id) == table
  {
    if table != [] {
      RemoveRowAbsent(table[1..], id);
    }
  }

  lemma {:induction false} RemoveRowAt(table: seq<Row>, k: nat)
    requires NoDup(table) && k < |table|
    ensures RemoveRow(table, table[k].uniqueId) == RemoveAt(table, k)
  {
    if k == 0 {
      RemoveRowAbsent(table[1..], table[0].uniqueId);
    } else {
      RemoveRowAt(table[1..], k - 1);
      assert table[1..][k - 1] == table[k];
      assert RemoveAt(table, k) == [table[0]] + RemoveAt(table[1..], k - 1);
    }
  }

  /** With a primary key, a deletion removes one row or none. */
  lemma RemoveRowOne(table: seq<Row>, id: MessageId)
    requires NoDup(table)
    ensures RemoveRow(table, id) == table || exists k: nat :: k < |table| && table[k].uniqueId == id && RemoveRow(table, id) == RemoveAt(table, k)
  {
    if k :| 0 <= k < |table| && table[k].uniqueId == id {
      RemoveRowAt(table, k);
    } else {
      RemoveRowAbsent(table, id);
    }
  }
}
