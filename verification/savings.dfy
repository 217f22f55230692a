/** The saving collection: the same checks and partial update as expenses, but no
    reconciler call anywhere, and a signed `/total`. */
module Savings {
  import opened Common
  import opened Registry
  import opened Classifier
  import opened Entries

  /** `/total`: credit savings add, all others subtract. A saving whose amount type no longer
      resolves makes the whole request fail. */
  method TotalSavings(es: seq<Entry>, ats: map<Id, Record>) returns (r: Option<int>)
    ensures r.None? <==> !TypesResolve(es, ats)
    ensures r.Some? ==> r.value == CreditSum(es, ats) - DebitSum(es, ats)
    ensures r.Some? ==> r.value == 2 * CreditSum(es, ats) - AmountSum(es)
  {
    var total := 0;
    for i := 0 to |es|
      invariant TypesResolve(es[..i], ats)
      invariant total == CreditSum(es[..i], ats) - DebitSum(es[..i], ats)
    {
      if es[i].amountType !in ats {
        return None;
      }
      assert es[..i + 1] == es[..i] + [es[i]];
      CreditSumAppend(es[..i], es[i], ats);
      if IsCredit(ats[es[i].amountType].name) {
        total := total + es[i].amount;
      } else {
        total := total - es[i].amount;
      }
    }
    assert es[..|es|] == es;
    CreditDebitPartition(es, ats);
    r := Some(total);
  }

  /** The saving collection. It holds no reference to the balances, so no saving operation can
      move a payment-method balance or the aggregate. */
  class SavingBook {
    var entries: map<Id, Entry>
    var nextId: Id

    ghost predicate Valid()
      reads this
    {
      forall id :: id in entries ==> id < nextId && entries[id].amount > 0 && SchemaValid(entries[id])
    }

    constructor ()
      ensures Valid() && entries == map[]
    {
      entries := map[];
      nextId := 0;
    }

    predicate Owned(u: UserId, id: Id)
      reads this
    {
      id in entries && entries[id].userId == u
    }

    /** POST: the same ordered checks as an expense, then the save. */
    method Create(u: UserId, b: Body, now: int, cats: map<Id, Record>, pms: map<Id, Record>, ats: map<Id, Record>)
      returns (r: Outcome<Id>)
      requires Valid()
      modifies this
      ensures Valid()
      ensures CreateCheck(b, cats, pms, ats).Some? ==> r == Invalid(CreateCheck(b, cats, pms, ats).value)
      ensures CreateCheck(b, cats, pms, ats).None? && !SchemaValid(NewEntry(u, b, now)) ==> r == Invalid(SchemaViolation)
      ensures r.Ok? <==> CreateCheck(b, cats, pms, ats).None? && SchemaValid(NewEntry(u, b, now))
      ensures !r.Ok? ==> entries == old(entries)
      ensures r.Ok? ==> r.value !in old(entries) && entries == old(entries)[r.value := NewEntry(u, b, now)]
    {
      var check := CreateCheck(b, cats, pms, ats);
      if check.Some? {
        return Invalid(check.value);
      }
      var e := NewEntry(u, b, now);
      if !SchemaValid(e) {
        return Invalid(SchemaViolation);
      }
      var id := nextId;
      entries := entries[id := e];
      nextId := nextId + 1;
      r := Ok(id);
    }

    /** PUT: not found first, then the update checks, then the patch and save. */
    method Update(u: UserId, id: Id, b: Body, cats: map<Id, Record>, pms: map<Id, Record>, ats: map<Id, Record>)
      returns (r: Outcome<Entry>)
      requires Valid()
      modifies this
      ensures Valid()
      ensures !old(Owned(u, id)) ==> r == NotFound
      ensures old(Owned(u, id)) && UpdateCheck(b, cats, pms, ats).Some? ==> r == Invalid(UpdateCheck(b, cats, pms, ats).value)
      ensures old(Owned(u, id)) && UpdateCheck(b, cats, pms, ats).None? && !SchemaValid(Patched(old(entries)[id], b))
              ==> r == Invalid(SchemaViolation)
      ensures r.Ok? <==> old(Owned(u, id)) && UpdateCheck(b, cats, pms, ats).None? && SchemaValid(Patched(old(entries)[id], b))
      ensures !r.Ok? ==> entries == old(entries)
      ensures r.Ok? ==> r.value == Patched(old(entries)[id], b) && entries == old(entries)[id := r.value]
    {
      if !Owned(u, id) {
        return NotFound;
      }
      var check := UpdateCheck(b, cats, pms, ats);
      if check.Some? {
        return Invalid(check.value);
      }
      var n := Patched(entries[id], b);
      if !SchemaValid(n) {
        return Invalid(SchemaViolation);
      }
      entries := entries[id := n];
      r := Ok(n);
    }

    /** DELETE: not found for a missing or another user's saving; otherwise exactly that saving goes. */
    method Delete(u: UserId, id: Id) returns (r: Outcome<()>)
      requires Valid()
      modifies this
      ensures Valid()
      ensures r == (if old(Owned(u, id)) then Ok(()) else NotFound)
      ensures entries == (if old(Owned(u, id)) then old(entries) - {id} else old(entries))
    {
      if !Owned(u, id) {
        return NotFound;
      }
      entries := entries - {id};
      r := Ok(());
    }
  }
}
