/** The ledger arithmetic of `createTransaction` in
    utils/zustand/walletStore/useWalletStore.ts: the next balance, credit and
    debit computed from the transaction type, the counterparty field, the
    transaction record that is written, and what a run of transactions does
    to a wallet. Amounts and balances are integers; dates are day numbers. */
module Ledger {
  import opened Wrappers

  /** The three counters of a wallet document. */
  datatype Counters = Counters(balance: int, credit: int, debit: int)

  /** A freshly created wallet: every counter zero. */
  const Zero := Counters(0, 0, 0)

  /** The quantity a transaction never changes: balance - credit + debit
      (the opening balance of the wallet). */
  function Opening(c: Counters): int {
    c.balance - c.credit + c.debit
  }

  /** Only the exact string "Credit" is a credit; every other type string,
      "Debit" included, is booked as a debit. */
  predicate IsCredit(txType: string) {
    txType == "Credit"
  }

  /** The counters after one transaction of `amount` with type `txType`. */
  function Step(c: Counters, txType: string, amount: int): (r: Counters)
    ensures Opening(r) == Opening(c)
    ensures (r.credit - c.credit) + (r.debit - c.debit) == amount
    ensures IsCredit(txType) ==> r.debit == c.debit
    ensures !IsCredit(txType) ==> r.credit == c.credit
  {
    var credit := IsCredit(txType);
    Counters(
      if credit then c.balance + amount else c.balance - amount,
      if credit then c.credit + amount else c.credit,
      if credit then c.debit else c.debit + amount)
  }

  /** A credit of `amount` raises balance and credit by `amount` and leaves debit. */
  lemma StepCredit(c: Counters, amount: int)
    ensures Step(c, "Credit", amount) == Counters(c.balance + amount, c.credit + amount, c.debit)
  {
  }

  /** Any type other than "Credit" lowers balance by `amount`, raises debit by
      `amount` and leaves credit. */
  lemma StepDebit(c: Counters, txType: string, amount: int)
    requires txType != "Credit"
    ensures Step(c, txType, amount) == Counters(c.balance - amount, c.credit, c.debit + amount)
  {
  }

  // ---------------------------------------------------------------------------
  // Lower-casing (`toLowerCase`) on the ASCII letters

  function LowerChar(ch: char): char {
    if 'A' <= ch <= 'Z' then (ch as int - 'A' as int + 'a' as int) as char else ch
  }

  function ToLower(s: string): (r: string)
    ensures |r| == |s|
    ensures forall i :: 0 <= i < |s| ==> r[i] == LowerChar(s[i])
  {
    if s == [] then [] else [LowerChar(s[0])] + ToLower(s[1..])
  }

  /** Lower-casing leaves no upper-case letter and is idempotent. */
  lemma {:induction false} ToLowerIdempotent(s: string)
    ensures forall i :: 0 <= i < |s| ==> !('A' <= ToLower(s)[i] <= 'Z')
    ensures ToLower(ToLower(s)) == ToLower(s)
  {
    if s != [] {
      ToLowerIdempotent(s[1..]);
      assert ToLower(s) == [LowerChar(s[0])] + ToLower(s[1..]);
      assert ToLower(ToLower(s)) == [LowerChar(LowerChar(s[0]))] + ToLower(ToLower(s[1..]));
    }
  }

  // ---------------------------------------------------------------------------
  // The transaction record

  /** The arguments of `createTransaction` that end up in the ledger. */
  datatype TxInput = TxInput(
    txType: string,
    amount: int,
    date: int,
    userId: string,
    realm: string,
    payMethod: string,
    description: Option<string>,
    to: Option<string>,
    from: Option<string>)

  /** A transaction document as stored (and as cached by the store). */
  datatype Transaction = Transaction(
    id: string,
    date: int,
    amount: int,
    userId: string,
    realm: string,
    txType: string,
    from: Option<string>,
    to: Option<string>,
    description: string,
    balance: int,
    payMethod: string)

  /** The counterparty part of the record: `{from}` for a credit, `{to}` otherwise. */
  datatype Party = Party(from: Option<string>, to: Option<string>)

  function Counterparty(input: TxInput): Party {
    if IsCredit(input.txType) then Party(input.from, None) else Party(None, input.to)
  }

  /** The record written to the transaction collection, with the document id
      the backend assigns, built from the counters after the transaction. */
  function MakeRecord(input: TxInput, next: Counters, docId: string): Transaction {
    var party := Counterparty(input);
    Transaction(
      docId, input.date, input.amount, input.userId, input.realm,
      ToLower(input.txType), party.from, party.to,
      // `input.description || ""`: absent and empty both give ""
      input.description.GetOr(""),
      next.balance, ToLower(input.payMethod))
  }

  /** What a record written from cached counters `c` carries. */
  lemma RecordFields(input: TxInput, c: Counters, docId: string)
    ensures var r := MakeRecord(input, Step(c, input.txType, input.amount), docId);
      && r.balance == Step(c, input.txType, input.amount).balance
      && (input.amount != 0 ==> r.balance != c.balance)
      && (IsCredit(input.txType) ==> r.from == input.from && r.to.None? && r.txType == "credit")
      && (!IsCredit(input.txType) ==> r.to == input.to && r.from.None?)
      && (input.txType == "Debit" ==> r.txType == "debit")
      && r.txType == ToLower(input.txType) && r.payMethod == ToLower(input.payMethod)
      && (input.description.None? ==> r.description == "")
      && (input.description.Some? ==> r.description == input.description.value)
      && r.id == docId && r.amount == input.amount && r.date == input.date
      && r.userId == input.userId && r.realm == input.realm
  {
    var r := MakeRecord(input, Step(c, input.txType, input.amount), docId);
    if IsCredit(input.txType) {
      assert r.txType == ToLower("Credit");
      assert ToLower("Credit") == "credit";
    } else if input.txType == "Debit" {
      assert r.txType == ToLower("Debit");
      assert ToLower("Debit") == "debit";
    }
  }

  /** Wallet (100, 20, 0): a credit of 50 from "Alice" gives (150, 70, 0)
      and a record with balance 150, `from` set and `to` absent; a debit of 30
      to "Bob" gives (70, 20, 30) and a record with balance 70, `to` set and
      `from` absent. */
  lemma WorkedExample()
    ensures var c := Counters(100, 20, 0);
      var credit := TxInput("Credit", 50, 19732, "u1", "home", "Cash", None, None, Some("Alice"));
      var debit := TxInput("Debit", 30, 19732, "u1", "home", "Card", None, Some("Bob"), None);
      var cr := MakeRecord(credit, Step(c, credit.txType, credit.amount), "t1");
      var dr := MakeRecord(debit, Step(c, debit.txType, debit.amount), "t2");
      && Step(c, credit.txType, credit.amount) == Counters(150, 70, 0)
      && cr.balance == 150 && cr.from == Some("Alice") && cr.to == None && cr.txType == "credit"
      && Step(c, debit.txType, debit.amount) == Counters(70, 20, 30)
      && dr.balance == 70 && dr.to == Some("Bob") && dr.from == None && dr.txType == "debit"
  {
    var c := Counters(100, 20, 0);
    var credit := TxInput("Credit", 50, 19732, "u1", "home", "Cash", None, None, Some("Alice"));
    var debit := TxInput("Debit", 30, 19732, "u1", "home", "Card", None, Some("Bob"), None);
    RecordFields(credit, c, "t1");
    RecordFields(debit, c, "t2");
  }

  // ---------------------------------------------------------------------------
  // A run of transactions against one wallet

  datatype Entry = Entry(txType: string, amount: int)

  /** The counters after booking `txs` in order, one `createTransaction` each. */
  function Replay(c: Counters, txs: seq<Entry>): Counters
    decreases |txs|
  {
    if txs == [] then c else Replay(Step(c, txs[0].txType, txs[0].amount), txs[1..])
  }

  /** Sum of the amounts of the credit entries. */
  function CreditTotal(txs: seq<Entry>): int
    decreases |txs|
  {
    if txs == [] then 0
    else (if IsCredit(txs[0].txType) then txs[0].amount else 0) + CreditTotal(txs[1..])
  }

  /** Sum of the amounts of the debit entries. */
  function DebitTotal(txs: seq<Entry>): int
    decreases |txs|
  {
    if txs == [] then 0
    else (if IsCredit(txs[0].txType) then 0 else txs[0].amount) + DebitTotal(txs[1..])
  }

  /** The wallet invariant: after any run of transactions, balance is the
      starting balance plus all credits minus all debits, and each counter has
      grown by exactly its own total. */
  lemma {:induction false} ReplayTotals(c: Counters, txs: seq<Entry>)
    ensures Replay(c, txs) == Counters(
      c.balance + CreditTotal(txs) - DebitTotal(txs),
      c.credit + CreditTotal(txs),
      c.debit + DebitTotal(txs))
    decreases |txs|
  {
    if txs != [] {
      ReplayTotals(Step(c, txs[0].txType, txs[0].amount), txs[1..]);
    }
  }

  /** For a wallet created by fetch-or-create (all counters zero), the balance
      is always credit minus debit. */
  lemma FreshWalletBalance(txs: seq<Entry>)
    ensures Replay(Zero, txs).balance == Replay(Zero, txs).credit - Replay(Zero, txs).debit
  {
    ReplayTotals(Zero, txs);
  }

  /** Two transactions booked one after the other are both reflected. */
  lemma {:induction false} ReplayAppend(c: Counters, xs: seq<Entry>, ys: seq<Entry>)
    ensures Replay(c, xs + ys) == Replay(Replay(c, xs), ys)
    decreases |xs|
  {
    if xs != [] {
      assert (xs + ys)[1..] == xs[1..] + ys;
      ReplayAppend(Step(c, xs[0].txType, xs[0].amount), xs[1..], ys);
    } else {
      assert xs + ys == ys;
    }
  }
}
