/** The transaction search of App.tsx (`filteredTransactions`): a
    case-insensitive substring match on the merchant or the category name. */
module Search {
  import opened Types
  import opened Text

  /** `t.merchant.toLowerCase().includes(q) || t.category.toLowerCase().includes(q)`
      with `q = searchTerm.toLowerCase()`. */
  predicate Matches(t: Transaction, term: string)
  {
    var q := ToLower(term);
    Contains(ToLower(t.merchant), q) || Contains(ToLower(CategoryName(t.category)), q)
  }

  /** `transactions.filter(…)`: the matching transactions, in ledger order. */
  function FilterTransactions(txs: seq<Transaction>, term: string): (r: seq<Transaction>)
    ensures forall t :: t in r <==> t in txs && Matches(t, term)
    ensures Subsequence(r, txs)
    ensures forall t :: multiset(r)[t] == if Matches(t, term) then multiset(txs)[t] else 0
  {
    if txs == [] then []
    else
      assert txs == [txs[0]] + txs[1..];
      if Matches(txs[0], term) then
        var r := [txs[0]] + FilterTransactions(txs[1..], term);
        assert r[1..] == FilterTransactions(txs[1..], term);
        r
      else FilterTransactions(txs[1..], term)
  }

  /** An empty search shows every transaction. */
  lemma {:induction false} EmptyTermKeepsAll(txs: seq<Transaction>)
    ensures FilterTransactions(txs, "") == txs
  {
    if txs != [] {
      ContainsEmpty(ToLower(txs[0].merchant));
      EmptyTermKeepsAll(txs[1..]);
    }
  }

  /** The case of the search term does not matter. */
  lemma {:induction false} SearchIgnoresCase(txs: seq<Transaction>, term: string)
    ensures FilterTransactions(txs, term) == FilterTransactions(txs, ToLower(term))
  {
    ToLowerIdempotent(term);
    if txs != [] {
      SearchIgnoresCase(txs[1..], term);
    }
  }
}
