/** Append-only audit logs that record the old and the new value of a row. */
module Audit {
  import opened Keys

  datatype Entry<V> = Entry(action: string, id: string, oldValue: Option<V>, newValue: V)

  /** The entries about one row, in order. */
  function History<V>(log: seq<Entry<V>>, id: string): seq<Entry<V>> {
    if log == [] then [] else
      var last := log[|log| - 1];
      History(log[..|log| - 1], id) + if last.id == id then [last] else []
  }

  /** Each entry starts from the value the previous one ended with; the first starts from nothing. */
  ghost predicate Chained<V>(h: seq<Entry<V>>) {
    forall k :: 0 <= k < |h| ==> h[k].oldValue == Before(h, k)
  }

  /** The value that entry k of a chain has to start from. */
  function Before<V>(h: seq<Entry<V>>, k: nat): Option<V>
    requires k <= |h|
  {
    if k == 0 then None else Some(h[k - 1].newValue)
  }

  /** The log of every row is a chain that ends in the stored value. */
  ghost predicate Explains<V(!new)>(log: seq<Entry<V>>, rows: map<string, V>) {
    forall id :: ExplainsRow(log, rows, id)
  }

  ghost predicate ExplainsRow<V>(log: seq<Entry<V>>, rows: map<string, V>, id: string) {
    var h := History(log, id);
    && Chained(h)
    && (id in rows <==> h != [])
    && (id in rows ==> h[|h| - 1].newValue == rows[id])
  }

  function Stored<V>(rows: map<string, V>, id: string): Option<V> {
    if id in rows then Some(rows[id]) else None
  }

  lemma ChainExtends<V>(h: seq<Entry<V>>, entry: Entry<V>)
    requires Chained(h)
    requires entry.oldValue == Before(h, |h|)
    ensures Chained(h + [entry])
  {
    var h' := h + [entry];
    forall k | 0 <= k < |h'|
      ensures h'[k].oldValue == Before(h', k)
    {
      assert Before(h', k) == Before(h, k);
    }
  }

  lemma HistoryExtends<V>(log: seq<Entry<V>>, entry: Entry<V>, id: string)
    ensures History(log + [entry], id) == History(log, id) + if entry.id == id then [entry] else []
  {
    assert (log + [entry])[..|log|] == log;
  }

  lemma LoggedWriteExplainsRow<V>(log: seq<Entry<V>>, rows: map<string, V>, entry: Entry<V>, id: string)
    requires ExplainsRow(log, rows, id)
    requires entry.id == id ==> entry.oldValue == Stored(rows, id)
    ensures ExplainsRow(log + [entry], rows[entry.id := entry.newValue], id)
  {
    HistoryExtends(log, entry, id);
    var h := History(log, id);
    if entry.id == id {
      ChainExtends(h, entry);
    } else {
      assert h + [] == h;
    }
  }

  /** Logging a write with the value it replaced keeps the log explaining the table. */
  lemma LoggedWriteExplains<V(!new)>(log: seq<Entry<V>>, rows: map<string, V>, entry: Entry<V>)
    requires Explains(log, rows) && entry.oldValue == Stored(rows, entry.id)
    ensures Explains(log + [entry], rows[entry.id := entry.newValue])
  {
    var log', rows' := log + [entry], rows[entry.id := entry.newValue];
    forall id
      ensures ExplainsRow(log', rows', id)
    {
      assert ExplainsRow(log, rows, id);
      LoggedWriteExplainsRow(log, rows, entry, id);
    }
  }
}
