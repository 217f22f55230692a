/** The balance reconciler: one signed balance row per (user, payment method) and
    one aggregate balance per user, kept equal to the sum of that user's rows by
    every reconciler path. */
module Balances {
  import opened Common
  import opened Registry
  import opened Classifier

  /** One payment-method balance document. */
  datatype Row = Row(userId: UserId, methodId: Id, balance: int)

  predicate Keyed(row: Row, u: UserId, m: Id) {
    row.userId == u && row.methodId == m
  }

  /** The compound unique index: at most one row per (user, payment method). */
  ghost predicate UniqueRows(rows: seq<Row>) {
    forall i, j :: 0 <= i < j < |rows| ==> !Keyed(rows[j], rows[i].userId, rows[i].methodId)
  }

  /** `findOne({userId, paymentMethodId})`: the position of the first row with that key. */
  function IndexOf(rows: seq<Row>, u: UserId, m: Id): (r: Option<nat>)
    ensures r.None? <==> forall i :: 0 <= i < |rows| ==> !Keyed(rows[i], u, m)
    ensures r.Some? ==> r.value < |rows| && Keyed(rows[r.value], u, m)
                        && forall i :: 0 <= i < r.value ==> !Keyed(rows[i], u, m)
  {
    if |rows| == 0 then None
    else if Keyed(rows[0], u, m) then Some(0)
    else match IndexOf(rows[1..], u, m)
      case None => None
      case Some(i) => Some(i + 1)
  }

  predicate HasRow(rows: seq<Row>, u: UserId, m: Id) {
    IndexOf(rows, u, m).Some?
  }

  /** The balance of a (user, method) pair; a pair without a row reads as 0. */
  function BalanceOf(rows: seq<Row>, u: UserId, m: Id): int {
    match IndexOf(rows, u, m)
      case None => 0
      case Some(i) => rows[i].balance
  }

  function Share(row: Row, u: UserId): int {
    if row.userId == u then row.balance else 0
  }

  /** The sum of all of user `u`'s method balances, folded in document order. */
  function UserSum(rows: seq<Row>, u: UserId): int {
    if rows == [] then 0 else UserSum(rows[..|rows| - 1], u) + Share(rows[|rows| - 1], u)
  }

  /** The signed change one reconciler call makes: applying a credit adds the amount,
      applying a debit subtracts it, and reversing does the opposite. */
  function Delta(credit: bool, isDelete: bool, amount: int): (d: int)
    ensures d == amount || d == -amount
    ensures (d == amount) == (credit != isDelete) || amount == 0
  {
    if isDelete then (if credit then -amount else amount)
    else (if credit then amount else -amount)
  }

  /** Adds `d` to the (u, m) row, creating the row at 0 first when it is absent. */
  function Adjusted(rows: seq<Row>, u: UserId, m: Id, d: int): seq<Row> {
    match IndexOf(rows, u, m)
      case None => rows + [Row(u, m, 0 + d)]
      case Some(i) => rows[i := rows[i].(balance := rows[i].balance + d)]
  }

  /** Overwrites the (u, m) row with `b`, creating it when absent (the manual PUT). */
  function SetRow(rows: seq<Row>, u: UserId, m: Id, b: int): seq<Row> {
    match IndexOf(rows, u, m)
      case None => rows + [Row(u, m, b)]
      case Some(i) => rows[i := rows[i].(balance := b)]
  }

  /** The method rows and the aggregate balance of every user. */
  datatype Ledger = Ledger(rows: seq<Row>, main: map<UserId, int>)

  /** The aggregate invariant for one user: the aggregate row exists and equals the sum of the method rows. */
  predicate Consistent(l: Ledger, u: UserId) {
    u in l.main && l.main[u] == UserSum(l.rows, u)
  }

  /** `updateMainBalance`: the aggregate is overwritten with the sum, never adjusted incrementally. */
  function Recomputed(l: Ledger, u: UserId): (r: Ledger)
    ensures Consistent(r, u) && r.rows == l.rows
    ensures forall w :: w != u ==> (w in r.main <==> w in l.main)
    ensures forall w :: w != u && w in l.main ==> r.main[w] == l.main[w]
  {
    Ledger(l.rows, l.main[u := UserSum(l.rows, u)])
  }

  /** The amount's signed effect under the amount type `t`; 0 when the type does not resolve. */
  function SignedAmount(types: map<Id, Record>, t: Id, amount: int): int {
    if t in types then Delta(IsCredit(types[t].name), false, amount) else 0
  }

  /** One adjustment of the (u, m) row by `d` followed by `updateMainBalance(u)`. */
  function Adjust(l: Ledger, u: UserId, m: Id, d: int): (r: Ledger)
    ensures Consistent(r, u) && HasRow(r.rows, u, m)
    ensures BalanceOf(r.rows, u, m) == BalanceOf(l.rows, u, m) + d
  {
    AdjustedAt(l.rows, u, m, d);
    Recomputed(Ledger(Adjusted(l.rows, u, m, d), l.main), u)
  }

  /** `updatePaymentMethodBalance`: no change at all when the amount type does not resolve;
      otherwise the (u, m) row is adjusted by the signed amount (negated for a reversal) and
      the aggregate is recomputed. */
  function Reconcile(l: Ledger, u: UserId, m: Id, amount: int, t: Id, types: map<Id, Record>, isDelete: bool): (r: Ledger)
    ensures t !in types ==> r == l
    ensures t in types ==> Consistent(r, u) && HasRow(r.rows, u, m)
    ensures BalanceOf(r.rows, u, m)
            == BalanceOf(l.rows, u, m) + (if isDelete then -SignedAmount(types, t, amount) else SignedAmount(types, t, amount))
  {
    if t !in types then l
    else Adjust(l, u, m, Delta(IsCredit(types[t].name), isDelete, amount))
  }

  // ---------------------------------------------------------------------------
  // Lemmas about single rows and sums

  /** IndexOf looks only at the keys. */
  lemma IndexOfSameKeys(a: seq<Row>, b: seq<Row>, u: UserId, m: Id)
    requires |a| == |b|
    requires forall k :: 0 <= k < |a| ==> a[k].userId == b[k].userId && a[k].methodId == b[k].methodId
    ensures IndexOf(a, u, m) == IndexOf(b, u, m)
  {
  }

  /** Appending a row with a different key does not move any lookup of the old rows. */
  lemma IndexOfAppend(rows: seq<Row>, row: Row, u: UserId, m: Id)
    ensures !Keyed(row, u, m) ==> IndexOf(rows + [row], u, m) == IndexOf(rows, u, m)
    ensures Keyed(row, u, m) && !HasRow(rows, u, m) ==> IndexOf(rows + [row], u, m) == Some(|rows|)
  {
    var s := rows + [row];
    assert forall i :: 0 <= i < |rows| ==> s[i] == rows[i];
    if Keyed(row, u, m) && !HasRow(rows, u, m) {
      assert Keyed(s[|rows|], u, m);
    } else if !Keyed(row, u, m) && HasRow(rows, u, m) {
      assert Keyed(s[IndexOf(rows, u, m).value], u, m);
    }
  }

  /** Summing after one row's balance changes shifts the owner's sum by the difference only. */
  lemma {:induction false} UserSumUpdate(rows: seq<Row>, i: nat, v: int, w: UserId)
    requires i < |rows|
    ensures UserSum(rows[i := rows[i].(balance := v)], w)
            == UserSum(rows, w) + (if rows[i].userId == w then v - rows[i].balance else 0)
  {
    var s := rows[i := rows[i].(balance := v)];
    if i == |rows| - 1 {
      assert s[..|s| - 1] == rows[..|rows| - 1];
    } else {
      UserSumUpdate(rows[..|rows| - 1], i, v, w);
      assert s[..|s| - 1] == rows[..|rows| - 1][i := rows[i].(balance := v)];
    }
  }

  lemma UserSumAppend(rows: seq<Row>, row: Row, w: UserId)
    ensures UserSum(rows + [row], w) == UserSum(rows, w) + Share(row, w)
  {
    assert (rows + [row])[..|rows|] == rows;
  }

  /** The targeted row moves by `d`; it is created at 0 first when absent, and no row is
      added when it exists. */
  lemma AdjustedAt(rows: seq<Row>, u: UserId, m: Id, d: int)
    ensures HasRow(Adjusted(rows, u, m, d), u, m)
    ensures BalanceOf(Adjusted(rows, u, m, d), u, m) == BalanceOf(rows, u, m) + d
    ensures HasRow(rows, u, m) ==> |Adjusted(rows, u, m, d)| == |rows|
  {
    var s := Adjusted(rows, u, m, d);
    if HasRow(rows, u, m) {
      IndexOfSameKeys(s, rows, u, m);
    } else {
      IndexOfAppend(rows, Row(u, m, d), u, m);
    }
  }

  /** No other (user, method) row changes its balance. */
  lemma AdjustedElsewhere(rows: seq<Row>, u: UserId, m: Id, d: int, u2: UserId, m2: Id)
    requires u2 != u || m2 != m
    ensures BalanceOf(Adjusted(rows, u, m, d), u2, m2) == BalanceOf(rows, u2, m2)
  {
    var s := Adjusted(rows, u, m, d);
    if HasRow(rows, u, m) {
      IndexOfSameKeys(s, rows, u2, m2);
    } else {
      IndexOfAppend(rows, Row(u, m, d), u2, m2);
    }
  }

  /** The owner's sum moves by `d` and every other user's sum is untouched. */
  lemma AdjustedSum(rows: seq<Row>, u: UserId, m: Id, d: int, w: UserId)
    ensures UserSum(Adjusted(rows, u, m, d), w) == UserSum(rows, w) + (if w == u then d else 0)
  {
    match IndexOf(rows, u, m)
    case None =>
      UserSumAppend(rows, Row(u, m, d), w);
    case Some(i) =>
      UserSumUpdate(rows, i, rows[i].balance + d, w);
  }

  /** An adjustment keeps the unique index. */
  lemma AdjustedKeepsUnique(rows: seq<Row>, u: UserId, m: Id, d: int)
    requires UniqueRows(rows)
    ensures UniqueRows(Adjusted(rows, u, m, d))
  {
    var s := Adjusted(rows, u, m, d);
    if HasRow(rows, u, m) {
      forall a, b | 0 <= a < b < |s| ensures !Keyed(s[b], s[a].userId, s[a].methodId) {
        assert !Keyed(rows[b], rows[a].userId, rows[a].methodId);
      }
    }
  }

  /** The adjustment as the reconciler performs it: on a missing row, append a zero row and
      then add to it; otherwise add to the row found. */
  lemma AdjustedByIndex(rows: seq<Row>, u: UserId, m: Id, d: int)
    ensures IndexOf(rows, u, m).None? ==>
      var s := rows + [Row(u, m, 0)];
      Adjusted(rows, u, m, d) == s[|rows| := s[|rows|].(balance := s[|rows|].balance + d)]
    ensures IndexOf(rows, u, m).Some? ==>
      var i := IndexOf(rows, u, m).value;
      Adjusted(rows, u, m, d) == rows[i := rows[i].(balance := rows[i].balance + d)]
  {
    if IndexOf(rows, u, m).None? {
      var s := rows + [Row(u, m, 0)];
      assert s[|rows| := s[|rows|].(balance := s[|rows|].balance + d)] == rows + [Row(u, m, 0 + d)];
    }
  }

  /** A manual set is an adjustment by the difference to the wanted balance. */
  lemma SetRowIsAdjustment(rows: seq<Row>, u: UserId, m: Id, b: int)
    ensures SetRow(rows, u, m, b) == Adjusted(rows, u, m, b - BalanceOf(rows, u, m))
  {
  }

  /** Undoing an adjustment of an existing row restores the rows exactly; for a row the
      adjustment created, a zero row is left behind. */
  lemma AdjustedCancels(rows: seq<Row>, u: UserId, m: Id, d: int)
    ensures HasRow(rows, u, m) ==> Adjusted(Adjusted(rows, u, m, d), u, m, -d) == rows
    ensures !HasRow(rows, u, m) ==> Adjusted(Adjusted(rows, u, m, d), u, m, -d) == rows + [Row(u, m, 0)]
  {
    var s := Adjusted(rows, u, m, d);
    match IndexOf(rows, u, m)
    case None =>
      IndexOfAppend(rows, Row(u, m, d), u, m);
      assert s[|rows| := s[|rows|].(balance := s[|rows|].balance - d)] == rows + [Row(u, m, 0)];
    case Some(i) =>
      IndexOfSameKeys(s, rows, u, m);
      assert s[i := s[i].(balance := s[i].balance - d)] == rows;
  }

  /** A zero row for a pair that had none changes no balance and no sum. */
  lemma ZeroRowInvisible(rows: seq<Row>, u: UserId, m: Id, u2: UserId, m2: Id)
    requires !HasRow(rows, u, m)
    ensures BalanceOf(rows + [Row(u, m, 0)], u2, m2) == BalanceOf(rows, u2, m2)
    ensures UserSum(rows + [Row(u, m, 0)], u2) == UserSum(rows, u2)
  {
    IndexOfAppend(rows, Row(u, m, 0), u2, m2);
    UserSumAppend(rows, Row(u, m, 0), u2);
  }

  // ---------------------------------------------------------------------------
  // Lemmas about the reconciler

  /** Everything one adjustment does to the ledger beyond the targeted row: every other row
      keeps its balance, and no other user's sum or aggregate changes. */
  lemma {:induction false} AdjustEffect(l: Ledger, u: UserId, m: Id, d: int, u2: UserId, m2: Id)
    ensures var r := Adjust(l, u, m, d);
      && (u2 != u || m2 != m ==> BalanceOf(r.rows, u2, m2) == BalanceOf(l.rows, u2, m2))
      && UserSum(r.rows, u2) == UserSum(l.rows, u2) + (if u2 == u then d else 0)
      && (u2 != u ==> (u2 in r.main <==> u2 in l.main))
      && (u2 != u && u2 in l.main ==> r.main[u2] == l.main[u2])
      && (UniqueRows(l.rows) ==> UniqueRows(r.rows))
  {
    if u2 != u || m2 != m {
      AdjustedElsewhere(l.rows, u, m, d, u2, m2);
    }
    AdjustedSum(l.rows, u, m, d, u2);
    if UniqueRows(l.rows) {
      AdjustedKeepsUnique(l.rows, u, m, d);
    }
  }

  /** Storing the value a key already holds leaves the map unchanged. */
  lemma SameValueUpdate(mp: map<UserId, int>, k: UserId, v: int)
    requires k in mp && mp[k] == v
    ensures mp[k := v] == mp
  {
  }

  /** Overwriting a key twice keeps only the second value. */
  lemma UpdateTwice(mp: map<UserId, int>, k: UserId, a: int, b: int)
    ensures mp[k := a][k := b] == mp[k := b]
  {
  }

  /** On the rows alone, adjusting by `d` and then by `-d` restores every balance and every sum,
      and the rows themselves when the row already existed. */
  lemma AdjustedRoundTrip(rows: seq<Row>, u: UserId, m: Id, d: int, u2: UserId, m2: Id)
    ensures var s := Adjusted(Adjusted(rows, u, m, d), u, m, -d);
      && BalanceOf(s, u2, m2) == BalanceOf(rows, u2, m2)
      && UserSum(s, u2) == UserSum(rows, u2)
      && (HasRow(rows, u, m) ==> s == rows)
  {
    AdjustedCancels(rows, u, m, d);
    if !HasRow(rows, u, m) {
      ZeroRowInvisible(rows, u, m, u2, m2);
    }
  }

  /** Adjusting by `d` and then by `-d` restores every balance and every sum; the rows come
      back exactly when the row already existed, and the aggregate comes back when it was
      consistent before. */
  lemma {:induction false} AdjustRoundTrip(l: Ledger, u: UserId, m: Id, d: int, u2: UserId, m2: Id)
    ensures var r := Adjust(Adjust(l, u, m, d), u, m, -d);
      && BalanceOf(r.rows, u2, m2) == BalanceOf(l.rows, u2, m2)
      && UserSum(r.rows, u2) == UserSum(l.rows, u2)
      && (HasRow(l.rows, u, m) ==> r.rows == l.rows)
      && r.main == l.main[u := UserSum(l.rows, u)]
      && (Consistent(l, u) ==> r.main == l.main)
  {
    var once := Adjusted(l.rows, u, m, d);
    var twice := Adjusted(once, u, m, -d);
    assert Adjust(l, u, m, d) == Ledger(once, l.main[u := UserSum(once, u)]);
    assert Adjust(Adjust(l, u, m, d), u, m, -d) == Ledger(twice, l.main[u := UserSum(once, u)][u := UserSum(twice, u)]);
    AdjustedRoundTrip(l.rows, u, m, d, u2, m2);
    AdjustedRoundTrip(l.rows, u, m, d, u, m);
    UpdateTwice(l.main, u, UserSum(once, u), UserSum(twice, u));
    if Consistent(l, u) {
      SameValueUpdate(l.main, u, UserSum(l.rows, u));
    }
  }

  /** The reconciler unfolded once the amount type resolves. */
  lemma ReconcileIsAdjust(l: Ledger, u: UserId, m: Id, amount: int, t: Id, types: map<Id, Record>, isDelete: bool)
    requires t in types
    ensures Reconcile(l, u, m, amount, t, types, isDelete) == Adjust(l, u, m, Delta(IsCredit(types[t].name), isDelete, amount))
  {
  }

  /** Apply followed by Reverse of the same (method, amount, type), or Reverse followed by Apply,
      restores every balance and every sum; the rows come back exactly when the row already
      existed (or the type does not resolve), and the aggregate comes back when it was consistent
      before. The type may have been renamed in between as long as it still classifies alike. */
  lemma ReconcileRoundTrip(l: Ledger, u: UserId, m: Id, amount: int, t: Id, types: map<Id, Record>, types2: map<Id, Record>,
                           isDelete: bool, u2: UserId, m2: Id)
    requires t in types <==> t in types2
    requires t in types ==> IsCredit(types[t].name) == IsCredit(types2[t].name)
    ensures var r := Reconcile(Reconcile(l, u, m, amount, t, types, isDelete), u, m, amount, t, types2, !isDelete);
      && BalanceOf(r.rows, u2, m2) == BalanceOf(l.rows, u2, m2)
      && UserSum(r.rows, u2) == UserSum(l.rows, u2)
      && (HasRow(l.rows, u, m) || t !in types ==> r.rows == l.rows)
      && (Consistent(l, u) ==> r.main == l.main)
  {
    if t in types {
      var d := Delta(IsCredit(types[t].name), isDelete, amount);
      ReconcileIsAdjust(l, u, m, amount, t, types, isDelete);
      ReconcileIsAdjust(Adjust(l, u, m, d), u, m, amount, t, types2, !isDelete);
      assert Delta(IsCredit(types2[t].name), !isDelete, amount) == -d;
      AdjustRoundTrip(l, u, m, d, u2, m2);
    }
  }

  /** An expense update reverses the old (method, amount, type) and applies the new one.
      A method row other than the old and new ones keeps its balance; the old one loses the
      old signed amount and the new one gains the new signed amount (both, when they are the
      same row). When nothing relevant changed and the row exists, the rows end exactly as
      they were. */
  lemma UpdateEffect(l: Ledger, u: UserId, m1: Id, a1: int, t1: Id, m2: Id, a2: int, t2: Id, types: map<Id, Record>, m: Id)
    ensures var r := Reconcile(Reconcile(l, u, m1, a1, t1, types, true), u, m2, a2, t2, types, false);
      && BalanceOf(r.rows, u, m) == BalanceOf(l.rows, u, m)
           - (if m == m1 then SignedAmount(types, t1, a1) else 0)
           + (if m == m2 then SignedAmount(types, t2, a2) else 0)
      && (t2 in types ==> Consistent(r, u))
      && (m1 == m2 && a1 == a2 && t1 == t2 && HasRow(l.rows, u, m1) ==> r.rows == l.rows)
  {
    var l1 := Reconcile(l, u, m1, a1, t1, types, true);
    if t1 in types && m != m1 {
      AdjustEffect(l, u, m1, Delta(IsCredit(types[t1].name), true, a1), u, m);
    }
    if t2 in types && m != m2 {
      AdjustEffect(l1, u, m2, Delta(IsCredit(types[t2].name), false, a2), u, m);
    }
    if m1 == m2 && a1 == a2 && t1 == t2 && HasRow(l.rows, u, m1) {
      ReconcileRoundTrip(l, u, m1, a1, t1, types, types, true, u, m);
    }
  }

  // ---------------------------------------------------------------------------
  // The stored state

  /** `reduce((sum, pmb) => sum + (pmb.balance || 0), 0)` over the user's rows. */
  method SumBalances(rows: seq<Row>, u: UserId) returns (total: int)
    ensures total == UserSum(rows, u)
  {
    total := 0;
    for i := 0 to |rows|
      invariant total == UserSum(rows[..i], u)
    {
      assert rows[..i + 1][..i] == rows[..i];
      if rows[i].userId == u {
        total := total + rows[i].balance;
      }
    }
    assert rows[..|rows|] == rows;
  }

  /** The payment-method balance collection and the aggregate balance collection. */
  class BalanceStore {
    var rows: seq<Row>
    var main: map<UserId, int>

    ghost predicate Valid()
      reads this
    {
      UniqueRows(rows)
    }

    function Snapshot(): Ledger
      reads this
    {
      Ledger(rows, main)
    }

    constructor ()
      ensures Valid() && rows == [] && main == map[]
    {
      rows := [];
      main := map[];
    }

    /** `updateMainBalance`: the user's aggregate row, created when absent, is overwritten with the sum. */
    method UpdateMainBalance(u: UserId) returns (total: int)
      requires Valid()
      modifies this
      ensures Valid()
      ensures Snapshot() == Recomputed(old(Snapshot()), u)
      ensures total == UserSum(rows, u)
    {
      total := SumBalances(rows, u);
      main := main[u := total];
    }

    /** `updatePaymentMethodBalance`: nothing happens when the amount type does not resolve;
        otherwise the signed change is added to the (u, m) row and the aggregate recomputed. */
    method UpdatePaymentMethodBalance(u: UserId, m: Id, amount: int, t: Id, types: map<Id, Record>, isDelete: bool)
      requires Valid()
      modifies this
      ensures Valid()
      ensures Snapshot() == Reconcile(old(Snapshot()), u, m, amount, t, types, isDelete)
    {
      if t !in types {
        return;
      }
      var credit := IsCredit(types[t].name);
      ReconcileIsAdjust(Snapshot(), u, m, amount, t, types, isDelete);
      var change := if isDelete then (if credit then -amount else amount) else (if credit then amount else -amount);
      AddToRow(u, m, change);
      var _ := UpdateMainBalance(u);
    }

    /** The find-or-create of the (u, m) row followed by the in-place addition. */
    method AddToRow(u: UserId, m: Id, change: int)
      requires Valid()
      modifies this
      ensures Valid()
      ensures rows == Adjusted(old(rows), u, m, change) && main == old(main)
    {
      AdjustedKeepsUnique(rows, u, m, change);
      AdjustedByIndex(rows, u, m, change);
      var found := IndexOf(rows, u, m);
      var i: nat;
      if found.None? {
        rows := rows + [Row(u, m, 0)];
        i := |rows| - 1;
      } else {
        i := found.value;
      }
      rows := rows[i := rows[i].(balance := rows[i].balance + change)];
    }

    /** GET one method balance: the stored row's balance, or 0 without creating a row. */
    method GetMethodBalance(u: UserId, m: Id) returns (b: int)
      ensures (exists i :: 0 <= i < |rows| && Keyed(rows[i], u, m) && rows[i].balance == b)
              || (b == 0 && forall i :: 0 <= i < |rows| ==> !Keyed(rows[i], u, m))
      ensures b == BalanceOf(rows, u, m)
    {
      var found := IndexOf(rows, u, m);
      if found.None? {
        b := 0;
      } else {
        b := rows[found.value].balance;
      }
    }

    /** PUT one method balance: required, then numeric, then the row is overwritten (or
        created) with exactly that value and the aggregate recomputed. */
    method SetMethodBalance(u: UserId, m: Id, input: Json) returns (r: Outcome<int>)
      requires Valid()
      modifies this
      ensures Valid()
      ensures (input.Missing? || input.Null?) ==> r == Invalid(BalanceRequired)
      ensures input.NonNumber? ==> r == Invalid(BalanceNotNumber)
      ensures !input.Num? ==> Snapshot() == old(Snapshot())
      ensures input.Num? ==> r == Ok(input.n)
                             && Snapshot() == Recomputed(Ledger(SetRow(old(rows), u, m, input.n), old(main)), u)
    {
      if input.Missing? || input.Null? {
        return Invalid(BalanceRequired);
      }
      if !input.Num? {
        return Invalid(BalanceNotNumber);
      }
      var b := input.n;
      SetRowIsAdjustment(rows, u, m, b);
      AdjustedKeepsUnique(rows, u, m, b - BalanceOf(rows, u, m));
      ghost var expected := SetRow(rows, u, m, b);
      var found := IndexOf(rows, u, m);
      if found.None? {
        rows := rows + [Row(u, m, b)];
      } else {
        rows := rows[found.value := rows[found.value].(balance := b)];
      }
      assert rows == expected;
      var _ := UpdateMainBalance(u);
      r := Ok(b);
    }

    /** GET the aggregate balance: created at 0 when absent, returned unchanged otherwise. */
    method GetBalance(u: UserId) returns (b: int)
      modifies this
      ensures rows == old(rows)
      ensures u in old(main) ==> main == old(main) && b == old(main)[u]
      ensures u !in old(main) ==> main == old(main)[u := 0] && b == 0
    {
      if u !in main {
        main := main[u := 0];
      }
      b := main[u];
    }

    /** PUT the aggregate balance: required, then numeric, then overwritten with exactly that
        value whatever the method rows sum to. */
    method SetBalance(u: UserId, input: Json) returns (r: Outcome<int>)
      modifies this
      ensures rows == old(rows)
      ensures (input.Missing? || input.Null?) ==> r == Invalid(BalanceRequired)
      ensures input.NonNumber? ==> r == Invalid(BalanceNotNumber)
      ensures !input.Num? ==> main == old(main)
      ensures input.Num? ==> r == Ok(input.n) && main == old(main)[u := input.n]
    {
      if input.Missing? || input.Null? {
        return Invalid(BalanceRequired);
      }
      if !input.Num? {
        return Invalid(BalanceNotNumber);
      }
      main := main[u := input.n];
      r := Ok(input.n);
    }
  }

  /** The manual set leaves the user's aggregate equal to the sum, with the row holding exactly
      the value given and every other row unchanged. */
  lemma ManualSetEffect(l: Ledger, u: UserId, m: Id, b: int, u2: UserId, m2: Id)
    ensures var r := Recomputed(Ledger(SetRow(l.rows, u, m, b), l.main), u);
      && Consistent(r, u)
      && BalanceOf(r.rows, u, m) == b
      && (u2 != u || m2 != m ==> BalanceOf(r.rows, u2, m2) == BalanceOf(l.rows, u2, m2))
      && (UniqueRows(l.rows) ==> UniqueRows(r.rows))
  {
    SetRowIsAdjustment(l.rows, u, m, b);
    assert Recomputed(Ledger(SetRow(l.rows, u, m, b), l.main), u) == Adjust(l, u, m, b - BalanceOf(l.rows, u, m));
    AdjustEffect(l, u, m, b - BalanceOf(l.rows, u, m), u2, m2);
  }

  /** Overwriting the aggregate directly breaks the sum invariant whenever the value differs from the sum. */
  lemma DirectOverwriteBypassesSum(l: Ledger, u: UserId, v: int)
    ensures Consistent(Ledger(l.rows, l.main[u := v]), u) <==> v == UserSum(l.rows, u)
  {
  }
}
