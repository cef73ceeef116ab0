/** The `useTransactions` hook of src/hooks/useTransactions.ts: the list the
    pages show, kept under the single shared key. */
module UseTransactions {
  import opened Types
  import opened Storage

  /** A row of a parsed transaction CSV. A missing cell is the empty string. */
  datatype TxnRow = TxnRow(
    id: string,
    date: string,
    kind: string,
    category: string,
    amount: string,
    description: string,
    project: string)

  predicate KeepTxnRow(row: TxnRow) {
    row.date != "" && row.amount != ""
  }

  /** `.filter(row => row.date && row.amount)`. */
  function KeptTxnRows(rows: seq<TxnRow>): (kept: seq<TxnRow>)
    ensures |kept| <= |rows|
    ensures forall i :: 0 <= i < |kept| ==> KeepTxnRow(kept[i])
  {
    if rows == [] then []
    else
      var last := rows[|rows| - 1];
      KeptTxnRows(rows[..|rows| - 1]) + (if KeepTxnRow(last) then [last] else [])
  }

  /** The filter drops nothing it should keep: a kept row appears as often as
      in the input, duplicates included, and a dropped row not at all. */
  lemma {:induction false} KeptTxnRowsCounts(rows: seq<TxnRow>)
    ensures forall r :: multiset(KeptTxnRows(rows))[r] == if KeepTxnRow(r) then multiset(rows)[r] else 0
    decreases |rows|
  {
    if rows != [] {
      var last := rows[|rows| - 1];
      assert rows == rows[..|rows| - 1] + [last];
      KeptTxnRowsCounts(rows[..|rows| - 1]);
    }
  }

  /** A row is kept iff it is in the input and passes the test; the filter
      adds nothing. */
  lemma KeptTxnRowsMembers(rows: seq<TxnRow>)
    ensures forall r :: r in KeptTxnRows(rows) <==> r in rows && KeepTxnRow(r)
  {
    KeptTxnRowsCounts(rows);
    forall r
      ensures r in KeptTxnRows(rows) <==> r in rows && KeepTxnRow(r)
    {
      assert r in KeptTxnRows(rows) <==> r in multiset(KeptTxnRows(rows));
      assert r in rows <==> r in multiset(rows);
    }
  }

  /** The filter works row by row and keeps the order: filtering a
      concatenation is filtering each part. */
  lemma {:induction false} KeptTxnRowsAppend(a: seq<TxnRow>, b: seq<TxnRow>)
    ensures KeptTxnRows(a + b) == KeptTxnRows(a) + KeptTxnRows(b)
    decreases |b|
  {
    if b == [] {
      assert a + b == a;
    } else {
      var b', last := b[..|b| - 1], b[|b| - 1];
      var tail := if KeepTxnRow(last) then [last] else [];
      var ab := a + b;
      assert ab[..|ab| - 1] == a + b' && ab[|ab| - 1] == last;
      assert KeptTxnRows(ab) == KeptTxnRows(a + b') + tail;
      assert KeptTxnRows(b) == KeptTxnRows(b') + tail;
      KeptTxnRowsAppend(a, b');
      var ka, kb := KeptTxnRows(a), KeptTxnRows(b');
      assert (ka + kb) + tail == ka + (kb + tail);
    }
  }

  /** The `.map(...)` step. `freshId` is the `Date.now() + Math.random()`
      string for this row and `parseAmount` stands for `parseFloat`. */
  function RowToTransaction(row: TxnRow, freshId: string, parseAmount: string -> int): Transaction {
    Transaction(if row.id != "" then row.id else freshId,
                row.date,
                row.kind,
                row.category,
                parseAmount(row.amount),
                row.description,
                Some(row.project))
  }

  /** The transactions an import adds, in row order; `freshIds(i)` is the id
      that would be generated for the i-th kept row. */
  function ImportedTransactions(rows: seq<TxnRow>, freshIds: nat -> string, parseAmount: string -> int)
    : (ts: seq<Transaction>)
    ensures |ts| == |KeptTxnRows(rows)|
    ensures forall i :: 0 <= i < |ts| ==> ts[i].date != ""
    ensures forall i :: 0 <= i < |ts| ==>
              var row := KeptTxnRows(rows)[i];
              ts[i].date == row.date && ts[i].kind == row.kind && ts[i].category == row.category
              && ts[i].amount == parseAmount(row.amount)
              && ts[i].description == row.description && ts[i].project == Some(row.project)
              && ts[i].id == (if row.id == "" then freshIds(i) else row.id)
  {
    var kept := KeptTxnRows(rows);
    assert forall i :: 0 <= i < |kept| ==> kept[i].date != "";
    var ts := seq(|kept|, i requires 0 <= i < |kept| => RowToTransaction(kept[i], freshIds(i), parseAmount));
    assert forall i :: 0 <= i < |ts| ==> ts[i] == RowToTransaction(kept[i], freshIds(i), parseAmount);
    ts
  }

  /** Rows without a date or without an amount add nothing: only kept rows count. */
  lemma ImportDropsIncompleteRows(rows: seq<TxnRow>, row: TxnRow, freshIds: nat -> string, parseAmount: string -> int)
    requires !KeepTxnRow(row)
    ensures ImportedTransactions(rows + [row], freshIds, parseAmount) == ImportedTransactions(rows, freshIds, parseAmount)
  {
    assert (rows + [row])[..|rows|] == rows;
    assert KeptTxnRows(rows + [row]) == KeptTxnRows(rows);
  }

  /** The store after `saveTransactions(ts)`. */
  function SavedTransactions(store: Store, ts: seq<Transaction>): Store {
    store[TransactionsKey := Json(TransactionList(ts))]
  }

  /** What is saved under the shared key is what a later load reads, and no
      other key changes. */
  lemma SavedTransactionsRoundTrip(store: Store, ts: seq<Transaction>, key: string)
    ensures ReadTransactions(SavedTransactions(store, ts), TransactionsKey) == Parsed(ts)
    ensures key != TransactionsKey ==>
              (key in SavedTransactions(store, ts) <==> key in store)
              && (key in store ==> SavedTransactions(store, ts)[key] == store[key])
  {
  }

  class TransactionsHook {
    var transactions: seq<Transaction>
    const storage: LocalStorage

    constructor (storage: LocalStorage)
      ensures transactions == [] && this.storage == storage
    {
      transactions := [];
      this.storage := storage;
    }

    /** The list in memory is the one stored under the shared key. */
    predicate Synced()
      reads this, storage
    {
      ReadTransactions(storage.items, TransactionsKey) == Parsed(transactions)
    }

    /** `loadTransactions()`: an absent or unparsable entry keeps the list. */
    method LoadTransactions()
      modifies this
      ensures ReadTransactions(storage.items, TransactionsKey).Parsed? ==>
                transactions == ReadTransactions(storage.items, TransactionsKey).value && Synced()
      ensures !ReadTransactions(storage.items, TransactionsKey).Parsed? ==>
                transactions == old(transactions)
    {
      match ReadTransactions(storage.items, TransactionsKey)
      case Parsed(ts) =>
        transactions := ts;
      case _ =>
    }

    /** `saveTransactions(ts)`: memory and store both hold `ts`. */
    method SaveTransactions(ts: seq<Transaction>)
      modifies this, storage
      ensures transactions == ts
      ensures storage.items == SavedTransactions(old(storage.items), ts)
      ensures Synced()
    {
      storage.SetItem(TransactionsKey, TransactionList(ts));
      transactions := ts;
    }

    /** `addTransaction(draft)`: the draft with its new id goes at the end. */
    method AddTransaction(draft: Draft, id: string)
      modifies this, storage
      ensures transactions == old(transactions) + [WithId(draft, id)]
      ensures |transactions| == |old(transactions)| + 1
      ensures transactions[..|old(transactions)|] == old(transactions)
      ensures storage.items == SavedTransactions(old(storage.items), transactions)
      ensures Synced()
    {
      var updated := transactions + [WithId(draft, id)];
      SaveTransactions(updated);
      assert updated[..|updated| - 1] == old(transactions);
    }

    /** The merge and save of `importFromCSV` after parsing. */
    method ImportFromCsv(rows: seq<TxnRow>, freshIds: nat -> string, parseAmount: string -> int)
      modifies this, storage
      ensures transactions == old(transactions) + ImportedTransactions(rows, freshIds, parseAmount)
      ensures |transactions| == |old(transactions)| + |KeptTxnRows(rows)|
      ensures transactions[..|old(transactions)|] == old(transactions)
      ensures storage.items == SavedTransactions(old(storage.items), transactions)
      ensures Synced()
    {
      var merged := transactions + ImportedTransactions(rows, freshIds, parseAmount);
      assert merged[..|transactions|] == transactions;
      SaveTransactions(merged);
    }
  }
}
