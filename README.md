# Wallet ledger of task-wallet, in Dafny

This project models the wallet ledger of the task-wallet web client
(`utils/zustand/walletStore/useWalletStore.ts`): the client-side wallet store,
the fetch-or-create of a wallet for a (user, realm) pair, the recording of a
credit or debit transaction, and the query a transaction listing sends to the
document database.

- `wrappers.dfy` (`Wrappers`): `Option`, for the store's `null` fields and the
  optional inputs.
- `ledger.dfy` (`Ledger`): the pure part of `createTransaction`. It covers the
  next balance, credit and debit (`Step`), the counterparty field, lower-casing,
  and the record that is written (`MakeRecord`). `Replay` books a run of
  transactions against one wallet; it states the wallet invariant that the
  source intends but never checks.
- `queries.dfy` (`Queries`): the equality and less-than predicates, as
  conjunctive lists. It builds the `getTransactions` query list by pushing
  onto it (`BuildQueryList`), and gives the date bound that makes the
  requested day inclusive.
- `wallet_store.dfy` (`Store`): the zustand store as the class `WalletStore`,
  with its setters. The three asynchronous actions are methods that take the
  store: `GetRealmBalance`/`CreateRealmWallet`, `CreateTransaction` and
  `GetTransactions`. Each remote call is an outcome that the caller supplies:
  success or failure, the listing returned, or the id of a new document. Each
  action returns the remote calls it attempted, in order.

Amounts and balances are integers. Dates are day numbers counted from
1970-01-01.

Only the type string `"Credit"` counts as a credit; every other string is
booked as a debit. A credit record carries `from: input.from`, which may itself
be absent. So what holds is "a credit record has no `to`, any other record has
no `from`". "Exactly one of the two is set" holds only when the caller passes
the counterparty.

## Model

| member | source | states |
|---|---|---|
| `Ledger.Step` | utils/zustand/walletStore/useWalletStore.ts:127-145 | balance − credit + debit is the same before and after; the credit and debit increments sum to the amount; a credit leaves debit unchanged, any other type leaves credit unchanged |
| `Ledger.StepCredit` | utils/zustand/walletStore/useWalletStore.ts:127-145 | type "Credit" with amount a: balance + a, credit + a, debit unchanged |
| `Ledger.StepDebit` | utils/zustand/walletStore/useWalletStore.ts:127-145 | any type other than exactly "Credit": balance − a, debit + a, credit unchanged |
| `Ledger.WorkedExample` | utils/zustand/walletStore/useWalletStore.ts:127-162 | wallet (100, 20, 0): credit 50 gives (150, 70, 0) and a "credit" record with balance 150, `from` set and `to` absent; debit 30 gives (70, 20, 30) and a "debit" record with balance 70, `to` set and `from` absent |
| `Ledger.ToLower` | utils/zustand/walletStore/useWalletStore.ts:158-162 | lower-casing keeps the length and maps each character to its lower-case form |
| `Ledger.ToLowerIdempotent` | utils/zustand/walletStore/useWalletStore.ts:158-162 | the lower-cased type and method contain no upper-case letter, and lower-casing them again changes nothing |
| `Ledger.RecordFields` | utils/zustand/walletStore/useWalletStore.ts:132-162 | the record's balance is the post-transaction balance, which differs from the cached one for a non-zero amount. A credit carries only `from` and any other type only `to`. Type and method are lower-cased ("credit"/"debit"), and the description defaults to "". The other fields are copied from the input |
| `Ledger.ReplayTotals` | utils/zustand/walletStore/useWalletStore.ts:127-145 | after any run of transactions, balance = start + all credits − all debits, and each counter has grown by exactly its own total |
| `Ledger.FreshWalletBalance` | utils/zustand/walletStore/useWalletStore.ts:79-88 | for a wallet created zeroed, the balance is always credit − debit |
| `Ledger.ReplayAppend` | utils/zustand/walletStore/useWalletStore.ts:127-145 | booking two runs one after the other equals booking their concatenation, so serialized transactions are all reflected |
| `Queries.DateBoundAsWritten` | utils/zustand/walletStore/useWalletStore.ts:219-226 | as written, the bound lists exactly the days up to `toDate`, except when `toDate` is day −1: then the bound is dropped and every day passes |
| `Queries.EpochEveDropsDateBound` | utils/zustand/walletStore/useWalletStore.ts:219-226 | `toDate` = 1969-12-31 yields no bound as written; the intended bound is day 0 |
| `Queries.DateBound` | utils/zustand/walletStore/useWalletStore.ts:219-226 | a bound is present exactly when `toDate` is; a day passes the strict `<` against it iff it is no later than `toDate` |
| `Queries.BuildQueryList` | utils/zustand/walletStore/useWalletStore.ts:209-226 | the list starts with the userId equality, then the realm equality. It continues with type, method and date predicates, in that order, each only when its filter is truthy or given (the date bound is the corrected one, see Left out). It admits exactly the transactions of that user and realm whose type and method match and whose date is no later than `toDate` |
| `Queries.AdmitsAppend` | utils/zustand/walletStore/useWalletStore.ts:209-226 | a pushed-onto query list admits a document iff both the earlier list and the pushed predicates do |
| `Queries.ToDateInclusive` | utils/zustand/walletStore/useWalletStore.ts:219-226 | with `toDate = d`, a transaction dated d is selected and one dated d + 1 is not |
| `Store.WalletStore.constructor` | utils/zustand/walletStore/useWalletStore.ts:13-31 | every field starts null and `isLoading` false; the wallet is not loaded |
| `Store.WalletStore.SetTransactions` | utils/zustand/walletStore/useWalletStore.ts:21-23 | overwrites the transaction list and nothing else |
| `Store.WalletStore.SetBalance` | utils/zustand/walletStore/useWalletStore.ts:24-26 | overwrites balance, credit, debit, realm and id and nothing else; the wallet is then loaded |
| `Store.WalletStore.SetIsLoading` | utils/zustand/walletStore/useWalletStore.ts:28-30 | overwrites the loading flag and nothing else |
| `Store.CreateRealmWallet` | utils/zustand/walletStore/useWalletStore.ts:68-95 | writes a wallet with balance, credit and debit 0. On success it caches (0, 0, 0), the input realm and the new id. Either way the store ends not loading and nothing else changes |
| `Store.GetRealmBalance` | utils/zustand/walletStore/useWalletStore.ts:33-66 | lists by (userId, realm). With no match it creates a zeroed wallet. Otherwise it caches the fields of the first match and stays loading. A failed listing only clears the loading flag |
| `Store.CreateTransaction` | utils/zustand/walletStore/useWalletStore.ts:97-192 | on an unloaded wallet: no remote call, only `isLoading` set to true. Otherwise it writes the record, then the wallet with the new counters. When both succeed, the cache takes the new counters, the input realm and the same id. The record goes in front of the previous list (or of an empty one), and its balance equals the cached balance. When a write fails, only the loading flag is cleared |
| `Store.GetTransactions` | utils/zustand/walletStore/useWalletStore.ts:194-241 | sends one listing whose query admits exactly the selected transactions (with the corrected date bound, see Left out); caches the listing on success; clears the loading flag either way |

## Findings

| source | as written | input that shows it | evidently intended | confidence | as-written member | corrected member |
|---|---|---|---|---|---|---|
| utils/zustand/walletStore/useWalletStore.ts:219-226 | the date predicate is pushed only if the timestamp from `setDate` is truthy | `toDate` = "1969-12-31": the next midnight is timestamp 0, which is falsy, so no date predicate is sent and later transactions are listed too | the predicate `date < toDate + 1 day` whenever `toDate` is given | not executed; the timestamp is 0 whenever the offset from UTC does not change across that day | `Queries.DateBoundAsWritten` | `Queries.DateBound` |

`BuildQueryList`, and so `GetTransactions`, use the corrected `DateBound`.

## Left out

- The document database is not modelled. Its calls (`listDocuments`, `createDocument`, `updateDocument`) and `ID.unique()` are outcomes passed in by the caller. The client endpoint setup is not modelled.
- The document that `createDocument` returns is taken to echo what was written, with the new id. This covers `res.balance` at line 88 and `res as ITransaction` at line 179. The cached record's balance snapshot relies on it.
- `toast` notifications, `console.log` and environment-variable lookups are side-channel I/O with no logic.
- The `onSuccess` callback is not modelled. It is invoked exactly when `CreateTransaction` returns `Recorded`.
- JavaScript numbers, `Number()` coercion and floating point are not modelled. Amounts and balances are unbounded integers.
- Date strings, `Date` parsing, `toISOString` and time zones are not modelled. `toDate` is a day number, or `None` when it is absent, empty or not a date. An empty string is falsy at line 219. An unparseable date gives a NaN timestamp at line 221, which is falsy. Neither adds a predicate.
- Ledger.ToLower: lower-cases the ASCII letters only, whereas `toLowerCase` also maps other Unicode letters.
- Store.CreateTransaction: does not model concurrency between overlapping calls. It also leaves out the remote inconsistency after a failed second write, a transaction document with no wallet update. Only the attempted calls are returned, and the cache is untouched.
- Queries.BuildQueryList, Store.GetTransactions: push the corrected date bound (`Queries.DateBound`). So for `toDate` = −1 (1969-12-31) they add `date < 0`, where the source adds nothing and lists every date. The as-written behaviour is `Queries.DateBoundAsWritten`.
- Store.GetRealmBalance: `createRealmWallet` is started without `await` in the source. The model runs it to completion before returning.
- The store's `filters` field (line 20) is not modelled. No setter or action in the file writes it.
- Whether the database applies a query list faithfully is not modelled. Its semantics are given by `Queries.Admits`, and listings are outcomes passed in by the caller.
- pages/_app.tsx and components/pages/Task/Kanban.tsx are not part of this model. They are UI: layout, routing, and a drag-and-drop board.
