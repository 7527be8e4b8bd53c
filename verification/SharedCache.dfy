/** The services share one cache. What is modelled as a cache of its own for each of them is its part of that cache. */
module SharedCache {
  import Balances
  import Transactions
  import Wallets

  /** No two services use the same key, whatever ids, networks and assets they hold. */
  lemma KeysApart(userId: string, network: Wallets.Network, transactionId: string, balance: Balances.Id)
    ensures Wallets.CacheKey(userId, network) != Transactions.Key(transactionId)
    ensures Wallets.CacheKey(userId, network) != Balances.CacheKey(balance)
    ensures Transactions.Key(transactionId) != Balances.CacheKey(balance)
  {
    Balances.KeyText(balance);
    assert Wallets.CacheKey(userId, network)[0] == 'w';
    assert Transactions.Key(transactionId)[0] == 't';
    assert Balances.CacheKey(balance)[0] == 'b';
  }
}
