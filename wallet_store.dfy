/** The client-side wallet store of utils/zustand/walletStore/useWalletStore.ts
    and the asynchronous actions that read and write it: fetch-or-create of
    the wallet, recording a transaction and listing transactions.

    The store is a mutable object (a `WalletStore`); each action takes the
    store, as the source's actions take `walletStore`. Every call to the
    document database is an outcome supplied by the caller (succeeds or
    fails, and what it returns), and each action returns the remote calls it
    attempted, in order, so that "no remote write" can be stated. */
module Store {
  import opened Wrappers
  import opened Ledger
  import opened Queries

  /** A wallet document of the wallet collection. */
  datatype WalletDoc = WalletDoc(
    id: string, userId: string, realm: string, balance: int, credit: int, debit: int)

  /** The document `createRealmWallet` writes: every counter zero. */
  function NewWalletDoc(id: string, userId: string, realm: string): WalletDoc {
    WalletDoc(id, userId, realm, 0, 0, 0)
  }

  /** A call to the document database. */
  datatype RemoteCall =
    | ListWallets(query: seq<Query>)
    | CreateWallet(wallet: WalletDoc)
    | CreateTransactionDoc(record: Transaction)
    | UpdateWallet(walletId: string, counters: Counters)
    | ListTransactions(query: seq<Query>)

  /** Every field of the store at one moment. */
  datatype Snapshot = Snapshot(
    balance: Option<int>,
    credit: Option<int>,
    debit: Option<int>,
    realm: Option<string>,
    id: Option<string>,
    transactions: Option<seq<Transaction>>,
    isLoading: bool)

  /** The zustand store `useWalletStore`: the cached wallet, the cached
      transaction list and the loading flag, with their setters. */
  class WalletStore {
    var balance: Option<int>
    var credit: Option<int>
    var debit: Option<int>
    var realm: Option<string>
    var id: Option<string>
    var transactions: Option<seq<Transaction>>
    var isLoading: bool

    function State(): Snapshot
      reads this
    {
      Snapshot(balance, credit, debit, realm, id, transactions, isLoading)
    }

    /** The cached wallet is known: balance, credit, debit and id all present. */
    predicate Loaded()
      reads this
    {
      balance.Some? && credit.Some? && debit.Some? && id.Some?
    }

    function CachedCounters(): Counters
      reads this
      requires Loaded()
    {
      Counters(balance.value, credit.value, debit.value)
    }

    /** Every field starts out null, and the store is not loading. */
    constructor ()
      ensures State() == Snapshot(None, None, None, None, None, None, false)
      ensures !Loaded()
    {
      balance, credit, debit := None, None, None;
      realm, id := None, None;
      transactions := None;
      isLoading := false;
    }

    method SetTransactions(ts: seq<Transaction>)
      modifies this
      ensures State() == old(State()).(transactions := Some(ts))
    {
      transactions := Some(ts);
    }

    method SetBalance(newBalance: int, newCredit: int, newDebit: int, newRealm: string, newId: string)
      modifies this
      ensures State() == old(State()).(balance := Some(newBalance), credit := Some(newCredit),
        debit := Some(newDebit), realm := Some(newRealm), id := Some(newId))
      ensures Loaded() && CachedCounters() == Counters(newBalance, newCredit, newDebit)
    {
      balance, realm, credit, debit, id :=
        Some(newBalance), Some(newRealm), Some(newCredit), Some(newDebit), Some(newId);
    }

    method SetIsLoading(loading: bool)
      modifies this
      ensures State() == old(State()).(isLoading := loading)
    {
      isLoading := loading;
    }
  }

  // ---------------------------------------------------------------------------
  // Fetch-or-create

  /** `createRealmWallet`: writes a zeroed wallet for (user, realm) and, when
      the write succeeds, caches it. Either way the store stops loading. */
  method CreateRealmWallet(store: WalletStore, userId: string, realm: string,
                           newId: string, createOk: bool)
    returns (calls: seq<RemoteCall>)
    modifies store
    ensures calls == [CreateWallet(NewWalletDoc(newId, userId, realm))]
    ensures calls[0].wallet.balance == 0 && calls[0].wallet.credit == 0 && calls[0].wallet.debit == 0
    ensures createOk ==>
      store.State() == old(store.State()).(balance := Some(0), credit := Some(0),
        debit := Some(0), realm := Some(realm), id := Some(newId), isLoading := false)
    ensures !createOk ==> store.State() == old(store.State()).(isLoading := false)
  {
    store.SetIsLoading(true);
    var res := NewWalletDoc(newId, userId, realm);
    calls := [CreateWallet(res)];
    if createOk {
      store.SetBalance(res.balance, 0, 0, realm, res.id);
      store.SetIsLoading(false);
    } else {
      store.SetIsLoading(false);
    }
  }

  /** `getRealmBalance`: lists the wallets of (user, realm). `listed` is the
      listing (`None` when the call fails). With no match a zeroed wallet is
      created; otherwise the first match is cached and the store is left
      loading, as the source never clears the flag on that path. */
  method GetRealmBalance(store: WalletStore, userId: string, realm: string,
                         listed: Option<seq<WalletDoc>>, newId: string, createOk: bool)
    returns (calls: seq<RemoteCall>)
    modifies store
    ensures |calls| >= 1 && calls[0] == ListWallets(WalletQuery(userId, realm))
    ensures listed.None? ==>
      calls == calls[..1] && store.State() == old(store.State()).(isLoading := false)
    ensures listed == Some([]) ==>
      && calls == calls[..1] + [CreateWallet(NewWalletDoc(newId, userId, realm))]
      && (createOk ==>
            && store.Loaded() && store.CachedCounters() == Zero
            && store.State() == old(store.State()).(balance := Some(0), credit := Some(0),
                 debit := Some(0), realm := Some(realm), id := Some(newId), isLoading := false))
      && (!createOk ==> store.State() == old(store.State()).(isLoading := false))
    ensures listed.Some? && |listed.value| > 0 ==>
      var doc := listed.value[0];
      && calls == calls[..1]
      && store.State() == old(store.State()).(balance := Some(doc.balance), credit := Some(doc.credit),
           debit := Some(doc.debit), realm := Some(doc.realm), id := Some(doc.id), isLoading := true)
  {
    store.SetIsLoading(true);
    calls := [ListWallets(WalletQuery(userId, realm))];
    if listed.None? {
      store.SetIsLoading(false);
      return;
    }
    var docs := listed.value;
    if |docs| == 0 {
      var created := CreateRealmWallet(store, userId, realm, newId, createOk);
      calls := calls + created;
    } else {
      store.SetBalance(docs[0].balance, docs[0].credit, docs[0].debit, docs[0].realm, docs[0].id);
    }
  }

  // ---------------------------------------------------------------------------
  // Recording a transaction

  /** How `createTransaction` ends: it returns early on an unloaded wallet,
      a remote call fails, or the record is written and `onSuccess` runs. */
  datatype Outcome = NotLoaded | Failed | Recorded(record: Transaction)

  /** `createTransaction`. `docId` is the id the new transaction document
      receives; `createOk` and `updateOk` are the outcomes of the two remote
      writes. On an unloaded wallet nothing is written and only the loading
      flag changes (it is set and never cleared). Otherwise the record,
      carrying the new balance, is written, then the wallet; only when both
      succeed is the cache updated: new counters, the input realm, the same
      wallet id, and the record put in front of the cached list. */
  method CreateTransaction(store: WalletStore, input: TxInput, docId: string,
                           createOk: bool, updateOk: bool)
    returns (outcome: Outcome, calls: seq<RemoteCall>)
    modifies store
    ensures !old(store.Loaded()) ==>
      && outcome == NotLoaded && calls == []
      && store.State() == old(store.State()).(isLoading := true)
    ensures old(store.Loaded()) ==>
      var next := Step(old(store.CachedCounters()), input.txType, input.amount);
      var record := MakeRecord(input, next, docId);
      && |calls| >= 1 && calls[0] == CreateTransactionDoc(record)
      && calls == (if createOk then [calls[0], UpdateWallet(old(store.id.value), next)] else [calls[0]])
      && (createOk && updateOk ==>
            && outcome == Recorded(record)
            && store.State() == old(store.State()).(
                 balance := Some(next.balance), credit := Some(next.credit), debit := Some(next.debit),
                 realm := Some(input.realm),
                 transactions := Some([record] + old(store.transactions).GetOr([])),
                 isLoading := false)
            && store.transactions.value[0].balance == store.balance.value)
      && (!(createOk && updateOk) ==>
            outcome == Failed && store.State() == old(store.State()).(isLoading := false))
  {
    store.SetIsLoading(true);
    if !store.Loaded() {
      outcome, calls := NotLoaded, [];
      return;
    }
    var walletId := store.id.value;
    var next := Step(store.CachedCounters(), input.txType, input.amount);
    var res := MakeRecord(input, next, docId);
    calls := [CreateTransactionDoc(res)];
    if !createOk {
      store.SetIsLoading(false);
      outcome := Failed;
      return;
    }
    calls := calls + [UpdateWallet(walletId, next)];
    if !updateOk {
      store.SetIsLoading(false);
      outcome := Failed;
      return;
    }
    store.SetBalance(next.balance, next.credit, next.debit, input.realm, walletId);
    var newArray := [res] + store.transactions.GetOr([]);
    store.SetTransactions(newArray);
    outcome := Recorded(res);
    store.SetIsLoading(false);
  }

  // ---------------------------------------------------------------------------
  // Listing transactions

  /** `getTransactions`: asks for the transactions the filters select and
      caches the listing (`listed`; `None` when the call fails). */
  method GetTransactions(store: WalletStore, userId: string, realm: string,
                         filters: Option<Filters>, listed: Option<seq<Transaction>>)
    returns (calls: seq<RemoteCall>)
    modifies store
    ensures |calls| == 1 && calls[0].ListTransactions?
    ensures forall t :: Admits(calls[0].query, t) <==> Selected(t, userId, realm, filters)
    ensures listed.Some? ==>
      store.State() == old(store.State()).(transactions := Some(listed.value), isLoading := false)
    ensures listed.None? ==> store.State() == old(store.State()).(isLoading := false)
  {
    store.SetIsLoading(true);
    var queryList := BuildQueryList(userId, realm, filters);
    calls := [ListTransactions(queryList)];
    if listed.Some? {
      store.SetTransactions(listed.value);
    }
    store.SetIsLoading(false);
  }
}
