/** The conjunctive query lists sent to the document database, and the
    filter that `getTransactions` in utils/zustand/walletStore/useWalletStore.ts
    builds from its optional arguments. The database's query language is
    modelled only as far as the predicates used here: equality and less-than
    on a document attribute, all of which must hold. */
module Queries {
  import opened Wrappers
  import opened Ledger

  datatype Value = Str(s: string) | Day(d: int)

  datatype Query = Equal(attr: string, value: Value) | LessThan(attr: string, value: Value)

  /** The attributes of a stored transaction that a query can name. */
  function Attr(t: Transaction, name: string): Option<Value> {
    if name == "userId" then Some(Str(t.userId))
    else if name == "realm" then Some(Str(t.realm))
    else if name == "type" then Some(Str(t.txType))
    else if name == "method" then Some(Str(t.payMethod))
    else if name == "date" then Some(Day(t.date))
    else None
  }

  predicate Holds(q: Query, t: Transaction) {
    match q
    case Equal(a, v) => Attr(t, a) == Some(v)
    case LessThan(a, v) =>
      match (Attr(t, a), v)
      case (Some(Day(x)), Day(bound)) => x < bound
      case _ => false
  }

  /** A document is listed when it satisfies every query of the list. */
  predicate Admits(qs: seq<Query>, t: Transaction) {
    forall i :: 0 <= i < |qs| ==> Holds(qs[i], t)
  }

  /** The query that `getRealmBalance` uses to find the wallet of (user, realm). */
  function WalletQuery(userId: string, realm: string): seq<Query> {
    [Equal("userId", Str(userId)), Equal("realm", Str(realm))]
  }

  // ---------------------------------------------------------------------------
  // The filters of `getTransactions`

  /** `filters?: {transactionType?, transactionMedthod?, toDate?}`. A `toDate`
      that is absent, empty or not a date is `None`; otherwise it is a day
      number counted from 1970-01-01. */
  datatype Filters = Filters(
    transactionType: Option<string>,
    transactionMethod: Option<string>,
    toDate: Option<int>)

  /** JavaScript truthiness of an optional string: present and non-empty. */
  predicate Truthy(o: Option<string>) {
    o.Some? && o.value != ""
  }

  const MillisPerDay: int := 86400000

  /** The timestamp `date.setDate(date.getDate() + 1)` returns for day `d`:
      midnight of the following day, in milliseconds since the epoch. */
  function NextDayMillis(d: int): int {
    (d + 1) * MillisPerDay
  }

  /** Whether a transaction dated `day` passes an optional exclusive upper bound. */
  predicate DayListed(day: int, bound: Option<int>) {
    bound.None? || day < bound.value
  }

  /** The exclusive upper bound on `date` as the code is written: the
      timestamp is tested for truthiness, so a timestamp of 0 (the day after
      1969-12-31) is taken for "no date" and the bound is dropped. */
  function DateBoundAsWritten(toDate: Option<int>): (r: Option<int>)
    ensures forall day :: DayListed(day, r) <==>
      (toDate.Some? && toDate.value != -1 ==> day <= toDate.value)
  {
    match toDate
    case None => None
    case Some(d) => if NextDayMillis(d) != 0 then Some(d + 1) else None
  }

  /** Requesting transactions up to 1969-12-31 lists every later one as well:
      the as-written bound is dropped, the intended one is day 0. */
  lemma EpochEveDropsDateBound()
    ensures DateBoundAsWritten(Some(-1)) == None
    ensures DateBound(Some(-1)) == Some(0)
  {
  }

  /** The exclusive upper bound on `date` as intended: the day after `toDate`,
      which makes `toDate` itself the last day listed. */
  function DateBound(toDate: Option<int>): (r: Option<int>)
    ensures forall day :: DayListed(day, r) <==> (toDate.Some? ==> day <= toDate.value)
  {
    match toDate
    case None => None
    case Some(d) => Some(d + 1)
  }

  /** One optional query as a list of zero or one element. */
  function Opt(q: Option<Query>): seq<Query> {
    match q
    case None => []
    case Some(x) => [x]
  }

  function TypeQuery(filters: Option<Filters>): Option<Query> {
    if filters.Some? && Truthy(filters.value.transactionType)
    then Some(Equal("type", Str(filters.value.transactionType.value))) else None
  }

  function MethodQuery(filters: Option<Filters>): Option<Query> {
    if filters.Some? && Truthy(filters.value.transactionMethod)
    then Some(Equal("method", Str(filters.value.transactionMethod.value))) else None
  }

  function DateQuery(filters: Option<Filters>): Option<Query> {
    var bound := DateBound(if filters.Some? then filters.value.toDate else None);
    if bound.Some? then Some(LessThan("date", Day(bound.value))) else None
  }

  /** The transactions a caller of `getTransactions` asks for: the user's, in
      the realm, of the given type and method when those are given, and dated
      no later than `toDate` when it is given. */
  predicate Selected(t: Transaction, userId: string, realm: string, filters: Option<Filters>) {
    && t.userId == userId
    && t.realm == realm
    && (filters.Some? && Truthy(filters.value.transactionType) ==>
          t.txType == filters.value.transactionType.value)
    && (filters.Some? && Truthy(filters.value.transactionMethod) ==>
          t.payMethod == filters.value.transactionMethod.value)
    && (filters.Some? && filters.value.toDate.Some? ==> t.date <= filters.value.toDate.value)
  }

  /** Builds the query list of `getTransactions` by pushing onto it: the user
      and realm equalities always and first, then the type, method and date
      predicates in that order, each only when its filter is given. The list
      admits exactly the transactions the caller asks for. */
  method BuildQueryList(userId: string, realm: string, filters: Option<Filters>)
    returns (queryList: seq<Query>)
    ensures |queryList| >= 2 && queryList[..2] == WalletQuery(userId, realm)
    ensures queryList[2..] == Opt(TypeQuery(filters)) + Opt(MethodQuery(filters)) + Opt(DateQuery(filters))
    ensures forall t :: Admits(queryList, t) <==> Selected(t, userId, realm, filters)
  {
    queryList := [Equal("userId", Str(userId)), Equal("realm", Str(realm))];
    if filters.Some? && Truthy(filters.value.transactionType) {
      queryList := queryList + [Equal("type", Str(filters.value.transactionType.value))];
    }
    if filters.Some? && Truthy(filters.value.transactionMethod) {
      queryList := queryList + [Equal("method", Str(filters.value.transactionMethod.value))];
    }
    var bound := DateBound(if filters.Some? then filters.value.toDate else None);
    if bound.Some? {
      queryList := queryList + [LessThan("date", Day(bound.value))];
    }
    forall t: Transaction
      ensures Admits(queryList, t) <==> Selected(t, userId, realm, filters)
    {
      AdmitsParts(queryList, t, userId, realm, filters);
    }
  }

  lemma AdmitsParts(qs: seq<Query>, t: Transaction, userId: string, realm: string, filters: Option<Filters>)
    requires qs == WalletQuery(userId, realm) + Opt(TypeQuery(filters)) + Opt(MethodQuery(filters)) + Opt(DateQuery(filters))
    ensures Admits(qs, t) <==> Selected(t, userId, realm, filters)
  {
    AdmitsAppend(WalletQuery(userId, realm), Opt(TypeQuery(filters)), t);
    AdmitsAppend(WalletQuery(userId, realm) + Opt(TypeQuery(filters)), Opt(MethodQuery(filters)), t);
    AdmitsAppend(WalletQuery(userId, realm) + Opt(TypeQuery(filters)) + Opt(MethodQuery(filters)), Opt(DateQuery(filters)), t);
    AdmitsOpt(TypeQuery(filters), t);
    AdmitsOpt(MethodQuery(filters), t);
    AdmitsOpt(DateQuery(filters), t);
    var toDate := if filters.Some? then filters.value.toDate else None;
    assert DayListed(t.date, DateBound(toDate)) <==> (toDate.Some? ==> t.date <= toDate.value);
    assert Admits(WalletQuery(userId, realm), t) <==> t.userId == userId && t.realm == realm by {
      var w := WalletQuery(userId, realm);
      if t.userId == userId && t.realm == realm {
        assert Holds(w[0], t) && Holds(w[1], t);
      }
      if Admits(w, t) {
        assert Holds(w[0], t) && Holds(w[1], t);
      }
    }
  }

  lemma AdmitsOpt(q: Option<Query>, t: Transaction)
    ensures Admits(Opt(q), t) <==> (q.Some? ==> Holds(q.value, t))
  {
    if q.Some? { assert Opt(q)[0] == q.value; }
  }

  /** A conjunctive list admits a document iff both of its halves do. */
  lemma AdmitsAppend(xs: seq<Query>, ys: seq<Query>, t: Transaction)
    ensures Admits(xs + ys, t) <==> Admits(xs, t) && Admits(ys, t)
  {
    if Admits(xs, t) && Admits(ys, t) {
      forall i | 0 <= i < |xs + ys| ensures Holds((xs + ys)[i], t) {
        if i >= |xs| { assert (xs + ys)[i] == ys[i - |xs|]; }
      }
    }
    if Admits(xs + ys, t) {
      forall i | 0 <= i < |xs| ensures Holds(xs[i], t) {
        assert (xs + ys)[i] == xs[i];
      }
      forall i | 0 <= i < |ys| ensures Holds(ys[i], t) {
        assert (xs + ys)[|xs| + i] == ys[i];
      }
    }
  }

  /** With `toDate = d`, a transaction dated `d` is listed and one dated
      `d + 1` is not (all other filters satisfied). */
  lemma ToDateInclusive(t: Transaction, userId: string, realm: string, d: int)
    requires t.userId == userId && t.realm == realm
    ensures var f := Some(Filters(None, None, Some(d)));
      && Selected(t.(date := d), userId, realm, f)
      && !Selected(t.(date := d + 1), userId, realm, f)
  {
  }
}
