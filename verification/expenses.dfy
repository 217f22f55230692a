/** The expense collection: create, partial update and delete, each followed by the
    reconciler calls that keep the payment-method balances in step, and the `/stats`
    fold that splits the user's expenses into credit and debit, overall and per
    payment method. */
module Expenses {
  import opened Common
  import opened Registry
  import opened Classifier
  import opened Balances
  import opened Entries

  /** One payment method's line in the statistics. */
  datatype MethodStat = MethodStat(paymentMethodId: Id, name: string, credit: int, debit: int)

  /** The `/stats` answer: the two totals and the per-method lines in first-seen order. */
  datatype Stats = Stats(totalCredit: int, totalDebit: int, perMethod: seq<MethodStat>)

  /** Both references `/stats` populates resolve, so reading their names cannot fail. */
  predicate Resolves(e: Entry, ats: map<Id, Record>, pms: map<Id, Record>) {
    e.amountType in ats && e.paymentMethod in pms
  }

  predicate AllResolve(es: seq<Entry>, ats: map<Id, Record>, pms: map<Id, Record>) {
    forall i :: 0 <= i < |es| ==> Resolves(es[i], ats, pms)
  }

  /** No payment method has two lines. */
  predicate DistinctMethods(stats: seq<MethodStat>) {
    forall a, b :: 0 <= a < b < |stats| ==> stats[a].paymentMethodId != stats[b].paymentMethodId
  }

  /** The line for `m`, when there is one. */
  function StatIndex(stats: seq<MethodStat>, m: Id): (r: Option<nat>)
    ensures r.None? ==> forall k :: 0 <= k < |stats| ==> stats[k].paymentMethodId != m
    ensures r.Some? ==> r.value < |stats| && stats[r.value].paymentMethodId == m
  {
    if |stats| == 0 then None
    else if stats[|stats| - 1].paymentMethodId == m then Some(|stats| - 1)
    else StatIndex(stats[..|stats| - 1], m)
  }

  /** A method that has a line is found. */
  lemma {:induction false} StatIndexFinds(stats: seq<MethodStat>, m: Id, k: nat)
    requires k < |stats| && stats[k].paymentMethodId == m
    ensures StatIndex(stats, m).Some?
  {
    if k < |stats| - 1 && stats[|stats| - 1].paymentMethodId != m {
      StatIndexFinds(stats[..|stats| - 1], m, k);
    }
  }

  function SumCredits(stats: seq<MethodStat>): int {
    if stats == [] then 0 else SumCredits(stats[..|stats| - 1]) + stats[|stats| - 1].credit
  }

  function SumDebits(stats: seq<MethodStat>): int {
    if stats == [] then 0 else SumDebits(stats[..|stats| - 1]) + stats[|stats| - 1].debit
  }

  /** A line is right for the entries `es`: it names an existing payment method that at least one
      entry uses, and holds the credit and debit sums of exactly the entries on that method. */
  predicate StatFor(st: MethodStat, es: seq<Entry>, ats: map<Id, Record>, pms: map<Id, Record>) {
    && st.paymentMethodId in pms
    && st.name == pms[st.paymentMethodId].name
    && OnMethod(es, st.paymentMethodId) != []
    && st.credit == CreditSum(OnMethod(es, st.paymentMethodId), ats)
    && st.debit == DebitSum(OnMethod(es, st.paymentMethodId), ats)
  }

  /** Replacing one line shifts both column sums by the difference on that line. */
  lemma {:induction false} SumsUpdate(stats: seq<MethodStat>, k: nat, st: MethodStat)
    requires k < |stats|
    ensures SumCredits(stats[k := st]) == SumCredits(stats) - stats[k].credit + st.credit
    ensures SumDebits(stats[k := st]) == SumDebits(stats) - stats[k].debit + st.debit
  {
    var s := stats[k := st];
    if k == |stats| - 1 {
      assert s[..|s| - 1] == stats[..|stats| - 1];
    } else {
      SumsUpdate(stats[..|stats| - 1], k, st);
      assert s[..|s| - 1] == stats[..|stats| - 1][k := st];
    }
  }

  lemma SumsAppend(stats: seq<MethodStat>, st: MethodStat)
    ensures SumCredits(stats + [st]) == SumCredits(stats) + st.credit
    ensures SumDebits(stats + [st]) == SumDebits(stats) + st.debit
  {
    assert (stats + [st])[..|stats|] == stats;
  }

  /** No entry on `m` means no entries selected for `m`. */
  lemma {:induction false} OnMethodAbsent(es: seq<Entry>, m: Id)
    requires forall j :: 0 <= j < |es| ==> es[j].paymentMethod != m
    ensures OnMethod(es, m) == []
  {
    if es != [] {
      OnMethodAbsent(es[..|es| - 1], m);
    }
  }

  /** What the per-method lines hold after folding the entries `es`: the column sums equal the
      totals, each line belongs to a method some entry uses and holds the sums of that method's
      entries, no method has two lines, and every entry's method has a line. */
  predicate LinesFor(stats: seq<MethodStat>, es: seq<Entry>, ats: map<Id, Record>, pms: map<Id, Record>) {
    SumsFor(stats, es, ats) && ShapeFor(stats, es, ats, pms)
  }

  /** The column sums of the lines equal the credit and debit totals. */
  predicate SumsFor(stats: seq<MethodStat>, es: seq<Entry>, ats: map<Id, Record>) {
    SumCredits(stats) == CreditSum(es, ats) && SumDebits(stats) == DebitSum(es, ats)
  }

  /** One line per method, each right for its method's entries, and one for every entry. */
  predicate ShapeFor(stats: seq<MethodStat>, es: seq<Entry>, ats: map<Id, Record>, pms: map<Id, Record>) {
    DistinctMethods(stats) && LinesRight(stats, es, ats, pms) && Listed(stats, es)
  }

  /** Every line is right for its method's entries. */
  predicate LinesRight(stats: seq<MethodStat>, es: seq<Entry>, ats: map<Id, Record>, pms: map<Id, Record>) {
    forall k :: 0 <= k < |stats| ==> StatFor(stats[k], es, ats, pms)
  }

  /** Every entry's payment method has a line. */
  predicate Listed(stats: seq<MethodStat>, es: seq<Entry>) {
    forall j :: 0 <= j < |es| ==> StatIndex(stats, es[j].paymentMethod).Some?
  }

  /** A line after one more amount in its credit or debit column. */
  function Counted(st: MethodStat, credit: bool, amount: int): MethodStat {
    if credit then st.(credit := st.credit + amount) else st.(debit := st.debit + amount)
  }

  /** One step of the per-method tally: the entry's line, created at zero when its method is new,
      gains the amount in the credit or the debit column; every other line stays as it was. */
  function Tallied(stats: seq<MethodStat>, e: Entry, credit: bool, name: string): (r: seq<MethodStat>)
    ensures |stats| <= |r| <= |stats| + 1
    ensures StatIndex(r, e.paymentMethod).Some?
    ensures forall q :: 0 <= q < |stats| ==> r[q].paymentMethodId == stats[q].paymentMethodId
    ensures forall q :: 0 <= q < |stats| && stats[q].paymentMethodId != e.paymentMethod ==> r[q] == stats[q]
  {
    match StatIndex(stats, e.paymentMethod)
    case None => stats + [Counted(MethodStat(e.paymentMethod, name, 0, 0), credit, e.amount)]
    case Some(k) =>
      var r := stats[k := Counted(stats[k], credit, e.amount)];
      StatIndexFinds(r, e.paymentMethod, k);
      r
  }

  /** The sums of the tally move by the entry's amount in its column. */
  lemma TalliedSums(stats: seq<MethodStat>, e: Entry, credit: bool, name: string)
    ensures SumCredits(Tallied(stats, e, credit, name)) == SumCredits(stats) + (if credit then e.amount else 0)
    ensures SumDebits(Tallied(stats, e, credit, name)) == SumDebits(stats) + (if credit then 0 else e.amount)
  {
    match StatIndex(stats, e.paymentMethod)
    case None =>
      SumsAppend(stats, Counted(MethodStat(e.paymentMethod, name, 0, 0), credit, e.amount));
    case Some(k) =>
      SumsUpdate(stats, k, Counted(stats[k], credit, e.amount));
  }

  /** The entry's own line, once counted, is right for the entries with `e` appended. */
  lemma CountedLine(st: MethodStat, es: seq<Entry>, e: Entry, ats: map<Id, Record>, pms: map<Id, Record>)
    requires Resolves(e, ats, pms) && StatFor(st, es, ats, pms) && st.paymentMethodId == e.paymentMethod
    ensures StatFor(Counted(st, IsCredit(ats[e.amountType].name), e.amount), es + [e], ats, pms)
  {
    OnMethodAppend(es, e, e.paymentMethod);
    CreditSumAppend(OnMethod(es, e.paymentMethod), e, ats);
  }

  /** Another method's line is unaffected by `e`. */
  lemma OtherLine(st: MethodStat, es: seq<Entry>, e: Entry, ats: map<Id, Record>, pms: map<Id, Record>)
    requires StatFor(st, es, ats, pms) && st.paymentMethodId != e.paymentMethod
    ensures StatFor(st, es + [e], ats, pms)
  {
    OnMethodAppend(es, e, st.paymentMethodId);
    assert OnMethod(es, st.paymentMethodId) + [] == OnMethod(es, st.paymentMethodId);
  }

  /** The line created for a method first seen at `e` holds just `e`. */
  lemma NewLine(es: seq<Entry>, e: Entry, ats: map<Id, Record>, pms: map<Id, Record>)
    requires Resolves(e, ats, pms)
    requires forall j :: 0 <= j < |es| ==> es[j].paymentMethod != e.paymentMethod
    ensures StatFor(Counted(MethodStat(e.paymentMethod, pms[e.paymentMethod].name, 0, 0), IsCredit(ats[e.amountType].name), e.amount),
                    es + [e], ats, pms)
  {
    OnMethodAbsent(es, e.paymentMethod);
    OnMethodAppend(es, e, e.paymentMethod);
    CreditSumAppend([], e, ats);
    assert [] + [e] == [e];
  }

  /** One line of the tally is right for the entries with `e` appended. */
  lemma TalliedLine(stats: seq<MethodStat>, es: seq<Entry>, e: Entry, ats: map<Id, Record>, pms: map<Id, Record>, q: nat)
    requires Resolves(e, ats, pms)
    requires forall k :: 0 <= k < |stats| ==> StatFor(stats[k], es, ats, pms)
    requires DistinctMethods(stats)
    requires StatIndex(stats, e.paymentMethod).None? ==> forall j :: 0 <= j < |es| ==> es[j].paymentMethod != e.paymentMethod
    requires q < |Tallied(stats, e, IsCredit(ats[e.amountType].name), pms[e.paymentMethod].name)|
    ensures StatFor(Tallied(stats, e, IsCredit(ats[e.amountType].name), pms[e.paymentMethod].name)[q], es + [e], ats, pms)
  {
    var credit := IsCredit(ats[e.amountType].name);
    var r := Tallied(stats, e, credit, pms[e.paymentMethod].name);
    if q < |stats| {
      if stats[q].paymentMethodId == e.paymentMethod {
        assert q == StatIndex(stats, e.paymentMethod).value;
        CountedLine(stats[q], es, e, ats, pms);
      } else {
        OtherLine(stats[q], es, e, ats, pms);
      }
    } else {
      NewLine(es, e, ats, pms);
    }
  }

  /** Every line of the tally is right for the entries with `e` appended. */
  lemma TalliedLines(stats: seq<MethodStat>, es: seq<Entry>, e: Entry, ats: map<Id, Record>, pms: map<Id, Record>)
    requires ShapeFor(stats, es, ats, pms) && Resolves(e, ats, pms)
    ensures LinesRight(Tallied(stats, e, IsCredit(ats[e.amountType].name), pms[e.paymentMethod].name), es + [e], ats, pms)
  {
    var r := Tallied(stats, e, IsCredit(ats[e.amountType].name), pms[e.paymentMethod].name);
    if StatIndex(stats, e.paymentMethod).None? {
      forall j | 0 <= j < |es| ensures es[j].paymentMethod != e.paymentMethod {
        assert StatIndex(stats, es[j].paymentMethod).Some?;
      }
    }
    forall q | 0 <= q < |r| ensures StatFor(r[q], es + [e], ats, pms) {
      TalliedLine(stats, es, e, ats, pms, q);
    }
  }

  /** The tally never gives a payment method a second line. */
  lemma TalliedDistinct(stats: seq<MethodStat>, e: Entry, credit: bool, name: string)
    requires DistinctMethods(stats)
    ensures DistinctMethods(Tallied(stats, e, credit, name))
  {
  }

  /** Every entry seen so far, and the new one, has a line in the tally. */
  lemma TalliedListed(stats: seq<MethodStat>, es: seq<Entry>, e: Entry, credit: bool, name: string)
    requires Listed(stats, es)
    ensures Listed(Tallied(stats, e, credit, name), es + [e])
  {
    var r := Tallied(stats, e, credit, name);
    forall j | 0 <= j < |es + [e]|
      ensures StatIndex(r, (es + [e])[j].paymentMethod).Some?
    {
      if j < |es| {
        var w := StatIndex(stats, es[j].paymentMethod).value;
        StatIndexFinds(r, es[j].paymentMethod, w);
      }
    }
  }

  /** Folding one more entry moves the column sums as it moves the totals. */
  lemma SumsStep(stats: seq<MethodStat>, es: seq<Entry>, e: Entry, ats: map<Id, Record>, pms: map<Id, Record>)
    requires SumsFor(stats, es, ats) && Resolves(e, ats, pms)
    ensures SumsFor(Tallied(stats, e, IsCredit(ats[e.amountType].name), pms[e.paymentMethod].name), es + [e], ats)
  {
    TalliedSums(stats, e, IsCredit(ats[e.amountType].name), pms[e.paymentMethod].name);
    CreditSumAppend(es, e, ats);
  }

  /** Folding one more entry keeps one right line per method and a line for every entry. */
  lemma ShapeStep(stats: seq<MethodStat>, es: seq<Entry>, e: Entry, ats: map<Id, Record>, pms: map<Id, Record>)
    requires ShapeFor(stats, es, ats, pms) && Resolves(e, ats, pms)
    ensures ShapeFor(Tallied(stats, e, IsCredit(ats[e.amountType].name), pms[e.paymentMethod].name), es + [e], ats, pms)
  {
    var credit := IsCredit(ats[e.amountType].name);
    TalliedLines(stats, es, e, ats, pms);
    TalliedDistinct(stats, e, credit, pms[e.paymentMethod].name);
    TalliedListed(stats, es, e, credit, pms[e.paymentMethod].name);
  }

  /** The per-method lines of `/stats`: the entries folded in order, each through `Tallied`. */
  function Lines(es: seq<Entry>, ats: map<Id, Record>, pms: map<Id, Record>): seq<MethodStat>
    requires AllResolve(es, ats, pms)
  {
    if es == [] then []
    else
      var e := es[|es| - 1];
      assert Resolves(e, ats, pms);
      Tallied(Lines(es[..|es| - 1], ats, pms), e, IsCredit(ats[e.amountType].name), pms[e.paymentMethod].name)
  }

  /** The folded lines are right: their column sums are the totals, there is one line per method
      that some entry uses, holding exactly that method's sums, and none for any other method. */
  lemma LinesOfFold(es: seq<Entry>, ats: map<Id, Record>, pms: map<Id, Record>)
    requires AllResolve(es, ats, pms)
    ensures LinesFor(Lines(es, ats, pms), es, ats, pms)
  {
    SumsOfFold(es, ats, pms);
    ShapeOfFold(es, ats, pms);
  }

  /** The column sums of the folded lines are the totals. */
  lemma {:induction false} SumsOfFold(es: seq<Entry>, ats: map<Id, Record>, pms: map<Id, Record>)
    requires AllResolve(es, ats, pms)
    ensures SumsFor(Lines(es, ats, pms), es, ats)
  {
    if es != [] {
      var init := es[..|es| - 1];
      var e := es[|es| - 1];
      LastSplit(es);
      SumsOfFold(init, ats, pms);
      SumsStep(Lines(init, ats, pms), init, e, ats, pms);
    }
  }

  /** The folded lines have one right line per method used, and no other. */
  lemma {:induction false} ShapeOfFold(es: seq<Entry>, ats: map<Id, Record>, pms: map<Id, Record>)
    requires AllResolve(es, ats, pms)
    ensures ShapeFor(Lines(es, ats, pms), es, ats, pms)
  {
    if es != [] {
      var init := es[..|es| - 1];
      var e := es[|es| - 1];
      LastSplit(es);
      ShapeOfFold(init, ats, pms);
      ShapeStep(Lines(init, ats, pms), init, e, ats, pms);
    }
  }

  /** A non-empty sequence is its prefix followed by its last element. */
  lemma LastSplit(es: seq<Entry>)
    requires es != []
    ensures es[..|es| - 1] + [es[|es| - 1]] == es
  {
  }

  /** One more entry folds one more `Tallied` step. */
  lemma LinesStep(es: seq<Entry>, i: nat, ats: map<Id, Record>, pms: map<Id, Record>)
    requires i < |es| && AllResolve(es[..i + 1], ats, pms)
    ensures AllResolve(es[..i], ats, pms)
    ensures Lines(es[..i + 1], ats, pms)
         == Tallied(Lines(es[..i], ats, pms), es[i], IsCredit(ats[es[i].amountType].name), pms[es[i].paymentMethod].name)
  {
    assert es[..i + 1][..i] == es[..i];
  }

  /** The prefix one longer is the prefix followed by the next entry. */
  lemma PrefixStep(es: seq<Entry>, i: nat)
    requires i < |es|
    ensures es[..i + 1] == es[..i] + [es[i]]
  {
  }

  /** `/stats`: the query result is folded entry by entry. A reference that no longer resolves
      makes the whole request fail. Otherwise each expense is counted once, as credit or as
      debit, in the totals and in its payment method's line. */
  method ExpenseStats(es: seq<Entry>, ats: map<Id, Record>, pms: map<Id, Record>) returns (r: Option<Stats>)
    ensures r.None? <==> !AllResolve(es, ats, pms)
    ensures r.Some? ==>
      && r.value.totalCredit == CreditSum(es, ats)
      && r.value.totalDebit == DebitSum(es, ats)
      && r.value.totalCredit + r.value.totalDebit == AmountSum(es)
      && r.value.perMethod == Lines(es, ats, pms)
      && LinesFor(r.value.perMethod, es, ats, pms)
  {
    var totalCredit, totalDebit := 0, 0;
    var stats: seq<MethodStat> := [];
    for i := 0 to |es|
      invariant AllResolve(es[..i], ats, pms)
      invariant totalCredit == CreditSum(es[..i], ats) && totalDebit == DebitSum(es[..i], ats)
      invariant stats == Lines(es[..i], ats, pms)
    {
      var e := es[i];
      if !Resolves(e, ats, pms) {
        return None;
      }
      PrefixStep(es, i);
      CreditSumAppend(es[..i], e, ats);
      var credit := IsCredit(ats[e.amountType].name);
      if credit {
        totalCredit := totalCredit + e.amount;
      } else {
        totalDebit := totalDebit + e.amount;
      }
      assert AllResolve(es[..i + 1], ats, pms);
      LinesStep(es, i, ats, pms);
      stats := Tallied(stats, e, credit, pms[e.paymentMethod].name);
    }
    assert es[..|es|] == es;
    LinesOfFold(es, ats, pms);
    CreditDebitPartition(es, ats);
    r := Some(Stats(totalCredit, totalDebit, stats));
  }

  /** The expense collection. */
  class ExpenseBook {
    var entries: map<Id, Entry>
    var nextId: Id

    /** Every stored expense passed the schema with a positive amount; ids are never reused. */
    ghost predicate Valid()
      reads this
    {
      forall id :: id in entries ==> id < nextId && entries[id].amount > 0 && SchemaValid(entries[id])
    }

    constructor ()
      ensures Valid() && entries == map[]
    {
      entries := map[];
      nextId := 0;
    }

    /** `findOne({_id, userId})`: the expense exists and belongs to the requesting user. */
    predicate Owned(u: UserId, id: Id)
      reads this
    {
      id in entries && entries[id].userId == u
    }

    /** POST: the ordered checks, then the save (the schema may still refuse a long description),
        then exactly one Apply of the new expense's (method, amount, type). Nothing is saved and no
        balance moves when any check fails. */
    method Create(u: UserId, b: Body, now: int, cats: map<Id, Record>, pms: map<Id, Record>, ats: map<Id, Record>, bal: BalanceStore)
      returns (r: Outcome<Id>)
      requires Valid() && bal.Valid()
      modifies this, bal
      ensures Valid() && bal.Valid()
      ensures CreateCheck(b, cats, pms, ats).Some? ==> r == Invalid(CreateCheck(b, cats, pms, ats).value)
      ensures CreateCheck(b, cats, pms, ats).None? && !SchemaValid(NewEntry(u, b, now)) ==> r == Invalid(SchemaViolation)
      ensures r.Ok? <==> CreateCheck(b, cats, pms, ats).None? && SchemaValid(NewEntry(u, b, now))
      ensures !r.Ok? ==> entries == old(entries) && bal.Snapshot() == old(bal.Snapshot())
      ensures r.Ok? ==>
        && r.value !in old(entries)
        && entries == old(entries)[r.value := NewEntry(u, b, now)]
        && bal.Snapshot() == Reconcile(old(bal.Snapshot()), u, b.paymentMethod.value, b.amount.value, b.amountType.value, ats, false)
    {
      var check := CreateCheck(b, cats, pms, ats);
      if check.Some? {
        return Invalid(check.value);
      }
      var e := NewEntry(u, b, now);
      if !SchemaValid(e) {
        return Invalid(SchemaViolation);
      }
      var id := nextId;
      entries := entries[id := e];
      nextId := nextId + 1;
      bal.UpdatePaymentMethodBalance(u, e.paymentMethod, e.amount, e.amountType, ats, false);
      r := Ok(id);
    }

    /** PUT: not found first (a missing or another user's expense), then the update checks, then
        the patch and save; on success the old (method, amount, type) is reversed and the
        patched one applied. */
    method Update(u: UserId, id: Id, b: Body, cats: map<Id, Record>, pms: map<Id, Record>, ats: map<Id, Record>, bal: BalanceStore)
      returns (r: Outcome<Entry>)
      requires Valid() && bal.Valid()
      modifies this, bal
      ensures Valid() && bal.Valid()
      ensures !old(Owned(u, id)) ==> r == NotFound
      ensures old(Owned(u, id)) && UpdateCheck(b, cats, pms, ats).Some? ==> r == Invalid(UpdateCheck(b, cats, pms, ats).value)
      ensures old(Owned(u, id)) && UpdateCheck(b, cats, pms, ats).None? && !SchemaValid(Patched(old(entries)[id], b))
              ==> r == Invalid(SchemaViolation)
      ensures r.Ok? <==> old(Owned(u, id)) && UpdateCheck(b, cats, pms, ats).None? && SchemaValid(Patched(old(entries)[id], b))
      ensures !r.Ok? ==> entries == old(entries) && bal.Snapshot() == old(bal.Snapshot())
      ensures r.Ok? ==>
        var e := old(entries)[id];
        var n := Patched(e, b);
        && r.value == n
        && entries == old(entries)[id := n]
        && bal.Snapshot() == Reconcile(Reconcile(old(bal.Snapshot()), u, e.paymentMethod, e.amount, e.amountType, ats, true),
                                       u, n.paymentMethod, n.amount, n.amountType, ats, false)
    {
      if !Owned(u, id) {
        return NotFound;
      }
      var e := entries[id];
      var check := UpdateCheck(b, cats, pms, ats);
      if check.Some? {
        return Invalid(check.value);
      }
      var n := Patched(e, b);
      if !SchemaValid(n) {
        return Invalid(SchemaViolation);
      }
      entries := entries[id := n];
      bal.UpdatePaymentMethodBalance(u, e.paymentMethod, e.amount, e.amountType, ats, true);
      bal.UpdatePaymentMethodBalance(u, n.paymentMethod, n.amount, n.amountType, ats, false);
      r := Ok(n);
    }

    /** DELETE: not found for a missing or another user's expense; otherwise the expense is
        reversed and then removed. */
    method Delete(u: UserId, id: Id, ats: map<Id, Record>, bal: BalanceStore) returns (r: Outcome<()>)
      requires Valid() && bal.Valid()
      modifies this, bal
      ensures Valid() && bal.Valid()
      ensures !old(Owned(u, id)) ==> r == NotFound && entries == old(entries) && bal.Snapshot() == old(bal.Snapshot())
      ensures old(Owned(u, id)) ==>
        var e := old(entries)[id];
        && r == Ok(())
        && entries == old(entries) - {id}
        && bal.Snapshot() == Reconcile(old(bal.Snapshot()), u, e.paymentMethod, e.amount, e.amountType, ats, true)
    {
      if !Owned(u, id) {
        return NotFound;
      }
      var e := entries[id];
      bal.UpdatePaymentMethodBalance(u, e.paymentMethod, e.amount, e.amountType, ats, true);
      entries := entries - {id};
      r := Ok(());
    }
  }
}
