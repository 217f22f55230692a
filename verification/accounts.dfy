/** The loan ledger: accounts of money borrowed or lent, each with its own list of
    transactions, and the summary folded from that list. */
module Accounts {
  import opened Common
  import opened Text

  /** `borrowed|lent`. */
  datatype AccountKind = Borrowed | Lent

  /** `borrow|repay|lent|received`. */
  datatype TxnType = Borrow | Repay | LentOut | Received

  /** One embedded transaction; `id` is its sub-document id and dates are instants as integers. */
  datatype Txn = Txn(id: Id, amount: int, kind: TxnType, paymentChannel: string, note: string, date: int)

  datatype Account = Account(userId: UserId, name: string, description: string, kind: AccountKind, transactions: seq<Txn>)

  /** The transaction type that grows the principal: `lent` for a lent account, `borrow` otherwise. */
  function PrincipalType(k: AccountKind): TxnType {
    if k == Lent then LentOut else Borrow
  }

  /** The transaction type that pays the principal back: `received` for a lent account, `repay` otherwise. */
  function RepaymentType(k: AccountKind): TxnType {
    if k == Lent then Received else Repay
  }

  /** The transaction types an account of kind `k` accepts. */
  predicate Accepts(k: AccountKind, t: TxnType) {
    t == PrincipalType(k) || t == RepaymentType(k)
  }

  // ---------------------------------------------------------------------------
  // The summary fold

  /** The fold's accumulator. */
  datatype Totals = Totals(borrowed: int, repaid: int, lastRepayment: Option<int>)

  /** The summary an account answers with. */
  datatype Summary = Summary(totalBorrowed: int, totalRepaid: int, outstanding: int, lastRepaymentDate: Option<int>)

  const Zero := Totals(0, 0, None)

  /** One step of the reduce: a principal transaction adds to `borrowed`, a repayment adds to
      `repaid` and replaces the last repayment date when there is none yet or the new date is
      strictly later; any other type is ignored. */
  function Step(k: AccountKind, acc: Totals, t: Txn): Totals {
    if t.kind == PrincipalType(k) then acc.(borrowed := acc.borrowed + t.amount)
    else if t.kind == RepaymentType(k) then
      acc.(repaid := acc.repaid + t.amount,
           lastRepayment := if acc.lastRepayment.None? || t.date > acc.lastRepayment.value then Some(t.date) else acc.lastRepayment)
    else acc
  }

  /** The left fold over the transactions in stored order. */
  function Fold(k: AccountKind, txns: seq<Txn>): Totals {
    if txns == [] then Zero else Step(k, Fold(k, txns[..|txns| - 1]), txns[|txns| - 1])
  }

  /** `buildAccountSummary`. */
  function BuildSummary(a: Account): (s: Summary)
    ensures s.outstanding == s.totalBorrowed - s.totalRepaid
    ensures s.totalBorrowed == SumOfType(a.transactions, PrincipalType(a.kind))
    ensures s.totalRepaid == SumOfType(a.transactions, RepaymentType(a.kind))
  {
    FoldTotals(a.kind, a.transactions);
    var t := Fold(a.kind, a.transactions);
    Summary(t.borrowed, t.repaid, t.borrowed - t.repaid, t.lastRepayment)
  }

  /** Reference definition: the sum of the amounts of the transactions of one type. */
  function SumOfType(txns: seq<Txn>, t: TxnType): int {
    if txns == [] then 0
    else SumOfType(txns[..|txns| - 1], t) + (if txns[|txns| - 1].kind == t then txns[|txns| - 1].amount else 0)
  }

  /** The later of two optional dates. */
  function Later(x: Option<int>, y: Option<int>): (r: Option<int>)
    ensures r.None? <==> x.None? && y.None?
    ensures r.Some? ==> r == x || r == y
    ensures x.Some? && r.Some? ==> x.value <= r.value
    ensures y.Some? && r.Some? ==> y.value <= r.value
  {
    if x.None? then y
    else if y.None? then x
    else if y.value > x.value then y else x
  }

  /** Combines the totals of two consecutive runs of transactions. */
  function Merge(a: Totals, b: Totals): Totals {
    Totals(a.borrowed + b.borrowed, a.repaid + b.repaid, Later(a.lastRepayment, b.lastRepayment))
  }

  lemma MergeCommutes(a: Totals, b: Totals)
    ensures Merge(a, b) == Merge(b, a)
  {
  }

  lemma MergeAssociates(a: Totals, b: Totals, c: Totals)
    ensures Merge(Merge(a, b), c) == Merge(a, Merge(b, c))
  {
  }

  /** One reduce step is a merge with that transaction's own totals. */
  lemma StepIsMerge(k: AccountKind, acc: Totals, t: Txn)
    ensures Step(k, acc, t) == Merge(acc, Fold(k, [t]))
  {
    assert [t][..0] == [];
  }

  /** Folding a concatenation merges the folds of the parts. */
  lemma {:induction false} FoldConcat(k: AccountKind, a: seq<Txn>, b: seq<Txn>)
    ensures Fold(k, a + b) == Merge(Fold(k, a), Fold(k, b))
    decreases |b|
  {
    if b == [] {
      assert a + b == a;
    } else {
      var x := b[|b| - 1];
      assert (a + b)[..|a + b| - 1] == a + b[..|b| - 1];
      FoldConcat(k, a, b[..|b| - 1]);
      StepIsMerge(k, Fold(k, a + b[..|b| - 1]), x);
      StepIsMerge(k, Fold(k, b[..|b| - 1]), x);
      MergeAssociates(Fold(k, a), Fold(k, b[..|b| - 1]), Fold(k, [x]));
    }
  }

  /** The summary does not depend on the order of the transactions. */
  lemma {:induction false} FoldPermutation(k: AccountKind, a: seq<Txn>, b: seq<Txn>)
    requires multiset(a) == multiset(b)
    ensures Fold(k, a) == Fold(k, b)
    decreases |a|
  {
    if a == [] {
      assert |b| == |multiset(b)| == 0;
    } else {
      var x := a[|a| - 1];
      assert x in multiset(b);
      var j :| 0 <= j < |b| && b[j] == x;
      var rest := b[..j] + b[j + 1..];
      assert b == b[..j] + [x] + b[j + 1..];
      assert a == a[..|a| - 1] + [x];
      assert multiset(a) == multiset(a[..|a| - 1]) + multiset{x};
      assert multiset(b) == multiset(b[..j]) + multiset{x} + multiset(b[j + 1..]);
      assert multiset(rest) == multiset(b[..j]) + multiset(b[j + 1..]);
      assert multiset(a[..|a| - 1]) == multiset(a) - multiset{x};
      assert multiset(rest) == multiset(b) - multiset{x};
      FoldPermutation(k, a[..|a| - 1], rest);
      FoldConcat(k, b[..j] + [x], b[j + 1..]);
      FoldConcat(k, b[..j], [x]);
      FoldConcat(k, b[..j], b[j + 1..]);
      FoldConcat(k, a[..|a| - 1], [x]);
      MergeAssociates(Fold(k, b[..j]), Fold(k, [x]), Fold(k, b[j + 1..]));
      MergeCommutes(Fold(k, [x]), Fold(k, b[j + 1..]));
      MergeAssociates(Fold(k, b[..j]), Fold(k, b[j + 1..]), Fold(k, [x]));
    }
  }

  /** The summary of a reordered account equals the summary of the original. */
  lemma SummaryIgnoresOrder(a: Account, txns: seq<Txn>)
    requires multiset(txns) == multiset(a.transactions)
    ensures BuildSummary(a.(transactions := txns)) == BuildSummary(a)
  {
    FoldPermutation(a.kind, txns, a.transactions);
  }

  /** The totals are the sums of the principal and of the repayment amounts. */
  lemma {:induction false} FoldTotals(k: AccountKind, txns: seq<Txn>)
    ensures Fold(k, txns).borrowed == SumOfType(txns, PrincipalType(k))
    ensures Fold(k, txns).repaid == SumOfType(txns, RepaymentType(k))
  {
    if txns != [] {
      FoldTotals(k, txns[..|txns| - 1]);
    }
  }

  /** The last repayment date is absent exactly when there is no repayment, and is otherwise the
      latest repayment date. */
  lemma {:induction false} LastRepayment(k: AccountKind, txns: seq<Txn>)
    ensures var last := Fold(k, txns).lastRepayment;
      && (last.None? <==> forall i :: 0 <= i < |txns| ==> txns[i].kind != RepaymentType(k))
      && (last.Some? ==> exists i :: 0 <= i < |txns| && txns[i].kind == RepaymentType(k) && txns[i].date == last.value)
      && (last.Some? ==> forall i :: 0 <= i < |txns| && txns[i].kind == RepaymentType(k) ==> txns[i].date <= last.value)
  {
    if txns != [] {
      var init := txns[..|txns| - 1];
      LastRepayment(k, init);
      var prev := Fold(k, init).lastRepayment;
      var last := Fold(k, txns).lastRepayment;
      assert forall i :: 0 <= i < |init| ==> init[i] == txns[i];
      if last.Some? && last != prev {
        assert txns[|txns| - 1].date == last.value;
      } else if last.Some? {
        var i :| 0 <= i < |init| && init[i].kind == RepaymentType(k) && init[i].date == last.value;
        assert txns[i].date == last.value;
      }
    }
  }

  /** When every transaction is of an accepted type, every amount counts in one of the two totals. */
  lemma {:induction false} AcceptedAllCount(k: AccountKind, txns: seq<Txn>)
    requires forall i :: 0 <= i < |txns| ==> Accepts(k, txns[i].kind)
    ensures Fold(k, txns).borrowed + Fold(k, txns).repaid == AmountTotal(txns)
  {
    if txns != [] {
      AcceptedAllCount(k, txns[..|txns| - 1]);
    }
  }

  function AmountTotal(txns: seq<Txn>): int {
    if txns == [] then 0 else AmountTotal(txns[..|txns| - 1]) + txns[|txns| - 1].amount
  }

  /** With positive amounts both totals are non-negative; `outstanding` is not clamped and goes
      negative as soon as more was repaid than borrowed. */
  lemma {:induction false} TotalsNonNegative(k: AccountKind, txns: seq<Txn>)
    requires forall i :: 0 <= i < |txns| ==> txns[i].amount > 0
    ensures Fold(k, txns).borrowed >= 0 && Fold(k, txns).repaid >= 0
  {
    if txns != [] {
      TotalsNonNegative(k, txns[..|txns| - 1]);
    }
  }

  /** A borrowed account holding a single repayment has a negative outstanding amount. */
  lemma OutstandingCanBeNegative(a: Account)
    requires a.kind == Borrowed && |a.transactions| == 1 && a.transactions[0].kind == Repay
    requires a.transactions[0].amount > 0
    ensures BuildSummary(a).outstanding < 0
  {
    assert a.transactions[..0] == [];
    assert Fold(a.kind, a.transactions) == Step(a.kind, Zero, a.transactions[0]);
  }

  /** Appending a transaction moves the summary by that transaction alone. */
  lemma AppendSummary(a: Account, t: Txn)
    ensures var before := BuildSummary(a);
      var after := BuildSummary(a.(transactions := a.transactions + [t]));
      && after.totalBorrowed == before.totalBorrowed + (if t.kind == PrincipalType(a.kind) then t.amount else 0)
      && after.totalRepaid == before.totalRepaid + (if t.kind == RepaymentType(a.kind) then t.amount else 0)
      && after.lastRepaymentDate
           == (if t.kind == RepaymentType(a.kind) then Later(before.lastRepaymentDate, Some(t.date)) else before.lastRepaymentDate)
  {
    var s := a.transactions + [t];
    assert s[..|s| - 1] == a.transactions;
  }

  /** Removing the transaction at position `i` takes exactly its own contribution out of the totals. */
  lemma RemovalSummary(k: AccountKind, txns: seq<Txn>, i: nat)
    requires i < |txns|
    ensures var rest := Fold(k, txns[..i] + txns[i + 1..]);
      && Fold(k, txns).borrowed == rest.borrowed + (if txns[i].kind == PrincipalType(k) then txns[i].amount else 0)
      && Fold(k, txns).repaid == rest.repaid + (if txns[i].kind == RepaymentType(k) then txns[i].amount else 0)
  {
    var rest := txns[..i] + txns[i + 1..];
    assert txns == txns[..i] + [txns[i]] + txns[i + 1..];
    calc {
      multiset(txns);
      multiset(txns[..i]) + multiset([txns[i]]) + multiset(txns[i + 1..]);
      multiset(rest + [txns[i]]);
    }
    FoldPermutation(k, txns, rest + [txns[i]]);
    assert (rest + [txns[i]])[..|rest|] == rest;
  }

  // ---------------------------------------------------------------------------
  // The stored accounts

  /** The body of `POST /api/accounts`. */
  datatype AccountRequest = AccountRequest(
    name: Option<string>,
    initialAmount: Option<int>,
    date: Option<int>,
    paymentChannel: Option<string>,
    note: Option<string>,
    description: Option<string>,
    accountType: Option<string>)

  /** The body of `POST /api/accounts/:id/transactions`. */
  datatype TxnRequest = TxnRequest(
    amount: Option<int>,
    kind: Option<string>,
    paymentChannel: Option<string>,
    note: Option<string>,
    date: Option<int>)

  /** The name under which the schema stores each transaction type. */
  function TxnTypeName(t: TxnType): string {
    match t
    case Borrow => "borrow"
    case Repay => "repay"
    case LentOut => "lent"
    case Received => "received"
  }

  /** The four transaction type names: a name parses to the type stored under it. */
  function ParseTxnType(s: Option<string>): (r: Option<TxnType>)
    ensures r.None? <==> s !in {Some("borrow"), Some("repay"), Some("lent"), Some("received")}
    ensures r.Some? ==> s == Some(TxnTypeName(r.value))
  {
    if s == Some("borrow") then Some(Borrow)
    else if s == Some("repay") then Some(Repay)
    else if s == Some("lent") then Some(LentOut)
    else if s == Some("received") then Some(Received)
    else None
  }

  /** Every type's stored name parses back to that type. */
  lemma ParseTxnTypeName(t: TxnType)
    ensures ParseTxnType(Some(TxnTypeName(t))) == Some(t)
  {
  }

  /** Any account type other than `lent` makes a borrowed account. */
  function KindOf(accountType: Option<string>): (k: AccountKind)
    ensures k == Lent <==> accountType == Some("lent")
  {
    if accountType == Some("lent") then Lent else Borrowed
  }

  /** The position of the transaction with sub-document id `tid`. */
  function TxnIndex(txns: seq<Txn>, tid: Id): (r: Option<nat>)
    ensures r.None? <==> forall i :: 0 <= i < |txns| ==> txns[i].id != tid
    ensures r.Some? ==> r.value < |txns| && txns[r.value].id == tid
  {
    if |txns| == 0 then None
    else if txns[|txns| - 1].id == tid then Some(|txns| - 1)
    else TxnIndex(txns[..|txns| - 1], tid)
  }

  /** The account created from a valid request, with its single opening transaction. */
  function NewAccount(u: UserId, req: AccountRequest, now: int, tid: Id): (a: Account)
    requires req.name.Some? && req.initialAmount.Some?
    ensures |a.transactions| == 1 && a.transactions[0].kind == PrincipalType(a.kind)
    ensures a.kind == KindOf(req.accountType) && a.name == Trim(req.name.value)
    ensures a.transactions[0].amount == req.initialAmount.value
    ensures a.transactions[0].date == (if req.date.Some? then req.date.value else now)
    ensures a.userId == u && a.description == TrimOr(req.description, "")
    ensures a.transactions[0].id == tid
    ensures a.transactions[0].paymentChannel == TrimOr(req.paymentChannel, "Cash")
    ensures a.transactions[0].note == TrimOr(req.note, "Opening balance")
  {
    var k := KindOf(req.accountType);
    Account(u, Trim(req.name.value), TrimOr(req.description, ""), k,
            [Txn(tid, req.initialAmount.value, PrincipalType(k), TrimOr(req.paymentChannel, "Cash"),
                 TrimOr(req.note, "Opening balance"), if req.date.Some? then req.date.value else now)])
  }

  /** A new account's summary: the initial amount borrowed (or lent), nothing repaid, the whole
      amount outstanding, and no repayment date. */
  lemma OpeningSummary(u: UserId, req: AccountRequest, now: int, tid: Id)
    requires req.name.Some? && req.initialAmount.Some?
    ensures var n := req.initialAmount.value;
      BuildSummary(NewAccount(u, req, now, tid)) == Summary(n, 0, n, None)
  {
    SinglePrincipal(NewAccount(u, req, now, tid));
  }

  /** An account holding one principal transaction owes exactly that transaction's amount. */
  lemma SinglePrincipal(a: Account)
    requires |a.transactions| == 1 && a.transactions[0].kind == PrincipalType(a.kind)
    ensures var n := a.transactions[0].amount;
      BuildSummary(a) == Summary(n, 0, n, None)
  {
    var t := a.transactions[0];
    assert a.transactions == [t];
    SingleFold(a.kind, t);
  }

  /** The fold of a single transaction. */
  lemma SingleFold(k: AccountKind, t: Txn)
    ensures Fold(k, [t]) == Step(k, Zero, t)
  {
    assert [t][..0] == [];
  }

  /** The transaction ids within one account are distinct. */
  predicate DistinctTxnIds(txns: seq<Txn>) {
    forall i, j :: 0 <= i < j < |txns| ==> txns[i].id != txns[j].id
  }

  /** Every transaction of the account has a positive amount, a type the account accepts, and an
      id unique within the account and below `bound`. */
  ghost predicate AccountValid(a: Account, bound: Id) {
    && DistinctTxnIds(a.transactions)
    && forall i :: 0 <= i < |a.transactions| ==>
         a.transactions[i].id < bound && a.transactions[i].amount > 0 && Accepts(a.kind, a.transactions[i].kind)
  }

  /** Raising the id bound keeps an account valid. */
  lemma BoundGrows(a: Account, bound: Id, bound2: Id)
    requires AccountValid(a, bound) && bound <= bound2
    ensures AccountValid(a, bound2)
  {
  }

  /** Appending a transaction with a fresh id, a positive amount and an accepted type keeps an
      account valid under the next bound. */
  lemma AppendValid(a: Account, t: Txn, bound: Id)
    requires AccountValid(a, bound) && t.id == bound && t.amount > 0 && Accepts(a.kind, t.kind)
    ensures AccountValid(a.(transactions := a.transactions + [t]), bound + 1)
  {
    var txns := a.transactions + [t];
    assert forall i :: 0 <= i < |a.transactions| ==> txns[i] == a.transactions[i];
  }

  /** Removing one transaction keeps an account valid. */
  lemma RemovalValid(a: Account, i: nat, bound: Id)
    requires AccountValid(a, bound) && i < |a.transactions|
    ensures AccountValid(a.(transactions := a.transactions[..i] + a.transactions[i + 1..]), bound)
  {
    var txns := a.transactions;
    var rest := txns[..i] + txns[i + 1..];
    assert forall j :: 0 <= j < |rest| ==> rest[j] == (if j < i then txns[j] else txns[j + 1]);
  }

  class AccountBook {
    var accounts: map<Id, Account>
    var nextId: Id
    var nextTxnId: Id

    /** Ids are never reused; every transaction has a positive amount, a type its account accepts,
        and an id unique within its account. */
    ghost predicate Valid()
      reads this
    {
      forall id :: id in accounts ==> id < nextId && AccountValid(accounts[id], nextTxnId)
    }

    constructor ()
      ensures Valid() && accounts == map[]
    {
      accounts := map[];
      nextId := 0;
      nextTxnId := 0;
    }

    predicate Owned(u: UserId, id: Id)
      reads this
    {
      id in accounts && accounts[id].userId == u
    }

    /** POST an account: a blank name, then a missing or non-positive initial amount, are
        rejected; otherwise the account is stored with one opening transaction. */
    method Create(u: UserId, req: AccountRequest, now: int) returns (r: Outcome<Id>)
      requires Valid()
      modifies this
      ensures Valid()
      ensures req.name.None? || AllSpace(req.name.value) ==> r == Invalid(NameRequired)
      ensures req.name.Some? && !AllSpace(req.name.value) && (req.initialAmount.None? || req.initialAmount.value <= 0)
              ==> r == Invalid(AmountRequired)
      ensures !r.Ok? ==> accounts == old(accounts)
      ensures r.Ok? <==> req.name.Some? && !AllSpace(req.name.value) && req.initialAmount.Some? && req.initialAmount.value > 0
      ensures r.Ok? ==> r.value !in old(accounts) && accounts == old(accounts)[r.value := NewAccount(u, req, now, old(nextTxnId))]
    {
      if req.name.None? || Trim(req.name.value) == "" {
        return Invalid(NameRequired);
      }
      if req.initialAmount.None? || req.initialAmount.value <= 0 {
        return Invalid(AmountRequired);
      }
      var a := NewAccount(u, req, now, nextTxnId);
      forall k | k in accounts
        ensures AccountValid(accounts[k], nextTxnId + 1)
      {
        BoundGrows(accounts[k], nextTxnId, nextTxnId + 1);
      }
      var id := nextId;
      accounts := accounts[id := a];
      nextId := nextId + 1;
      nextTxnId := nextTxnId + 1;
      r := Ok(id);
    }

    /** POST a transaction: amount, then type, both before the lookup; then not found; then a type
        the account does not accept; otherwise the transaction is appended at the end. */
    method AddTxn(u: UserId, id: Id, req: TxnRequest, now: int) returns (r: Outcome<Id>)
      requires Valid()
      modifies this
      ensures Valid()
      ensures req.amount.None? || req.amount.value <= 0 ==> r == Invalid(AmountRequired)
      ensures req.amount.Some? && req.amount.value > 0 && ParseTxnType(req.kind).None? ==> r == Invalid(BadTransactionType)
      ensures req.amount.Some? && req.amount.value > 0 && ParseTxnType(req.kind).Some? && !old(Owned(u, id)) ==> r == NotFound
      ensures r == Invalid(TypeMismatch) <==>
                (req.amount.Some? && req.amount.value > 0 && ParseTxnType(req.kind).Some?
                 && old(Owned(u, id)) && !Accepts(old(accounts)[id].kind, ParseTxnType(req.kind).value))
      ensures (req.amount.Some? && req.amount.value > 0 && ParseTxnType(req.kind).Some? && old(Owned(u, id))
               && Accepts(old(accounts)[id].kind, ParseTxnType(req.kind).value)) ==> r.Ok?
      ensures !r.Ok? ==> accounts == old(accounts)
      ensures r.Ok? ==>
        var a := old(accounts)[id];
        && old(Owned(u, id))
        && r.value == old(nextTxnId)
        && accounts == old(accounts)[id := a.(transactions := a.transactions
             + [Txn(r.value, req.amount.value, ParseTxnType(req.kind).value, TrimOr(req.paymentChannel, "Cash"),
                    TrimOr(req.note, ""), if req.date.Some? then req.date.value else now)])]
    {
      if req.amount.None? || req.amount.value <= 0 {
        return Invalid(AmountRequired);
      }
      var kind := ParseTxnType(req.kind);
      if kind.None? {
        return Invalid(BadTransactionType);
      }
      if !Owned(u, id) {
        return NotFound;
      }
      var a := accounts[id];
      if !Accepts(a.kind, kind.value) {
        return Invalid(TypeMismatch);
      }
      var t := Txn(nextTxnId, req.amount.value, kind.value, TrimOr(req.paymentChannel, "Cash"),
                   TrimOr(req.note, ""), if req.date.Some? then req.date.value else now);
      forall k | k in accounts
        ensures AccountValid(accounts[k], nextTxnId + 1)
      {
        BoundGrows(accounts[k], nextTxnId, nextTxnId + 1);
      }
      AppendValid(a, t, nextTxnId);
      accounts := accounts[id := a.(transactions := a.transactions + [t])];
      r := Ok(nextTxnId);
      nextTxnId := nextTxnId + 1;
    }

    /** DELETE a transaction: not found for an unknown account or transaction id; otherwise exactly
        that transaction is removed, whichever it is (the opening one included). */
    method DeleteTxn(u: UserId, id: Id, tid: Id) returns (r: Outcome<()>)
      requires Valid()
      modifies this
      ensures Valid()
      ensures !old(Owned(u, id)) ==> r == NotFound
      ensures old(Owned(u, id)) && TxnIndex(old(accounts)[id].transactions, tid).None? ==> r == NotFound
      ensures old(Owned(u, id)) && TxnIndex(old(accounts)[id].transactions, tid).Some? ==> r == Ok(())
      ensures !r.Ok? ==> accounts == old(accounts)
      ensures r.Ok? ==>
        var txns := old(accounts)[id].transactions;
        var i := TxnIndex(txns, tid).value;
        && old(Owned(u, id)) && TxnIndex(txns, tid).Some?
        && accounts == old(accounts)[id := old(accounts)[id].(transactions := txns[..i] + txns[i + 1..])]
    {
      if !Owned(u, id) {
        return NotFound;
      }
      var a := accounts[id];
      var found := TxnIndex(a.transactions, tid);
      if found.None? {
        return NotFound;
      }
      var i := found.value;
      RemovalValid(a, i, nextTxnId);
      accounts := accounts[id := a.(transactions := a.transactions[..i] + a.transactions[i + 1..])];
      r := Ok(());
    }
  }

  /** After a successful removal no transaction with that id is left in the account. */
  lemma RemovedIsGone(txns: seq<Txn>, i: nat)
    requires i < |txns| && DistinctTxnIds(txns)
    ensures TxnIndex(txns[..i] + txns[i + 1..], txns[i].id).None?
    ensures |txns[..i] + txns[i + 1..]| == |txns| - 1
  {
    var rest := txns[..i] + txns[i + 1..];
    forall j | 0 <= j < |rest| ensures rest[j].id != txns[i].id {
      if j < i {
        assert rest[j] == txns[j];
      } else {
        assert rest[j] == txns[j + 1];
      }
    }
  }
}
