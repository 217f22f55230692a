/** What expenses and savings share: the entry document, the request body, the
    ordered validation of a create, the partial update, and the credit/debit sums
    their statistics are folded into. The two routers repeat this logic line for
    line. */
module Entries {
  import opened Common
  import opened Text
  import opened Registry
  import opened Classifier

  /** One expense or saving document. Dates are instants as integers. */
  datatype Entry = Entry(
    userId: UserId,
    amount: int,
    category: Id,
    paymentMethod: Id,
    amountType: Id,
    date: int,
    description: string)

  /** The request body: every field may be absent (an empty reference counts as absent). */
  datatype Body = Body(
    amount: Option<int>,
    category: Option<Id>,
    paymentMethod: Option<Id>,
    amountType: Option<Id>,
    date: Option<int>,
    description: Option<string>)

  /** The schema's bound on the (trimmed) description. */
  const MaxDescriptionLength := 500

  /** A reference a new entry may use: the record exists and is `active`. */
  predicate IsActive(records: map<Id, Record>, id: Id) {
    id in records && records[id].status == Active
  }

  /** All four required fields are present and the amount is positive. */
  predicate Complete(b: Body) {
    b.amount.Some? && b.amount.value > 0 && b.category.Some? && b.paymentMethod.Some? && b.amountType.Some?
  }

  /** The create checks, in order: amount (missing, zero or negative), category, payment method
      and amount type presence, and only then whether each reference is active. */
  function CreateCheck(b: Body, cats: map<Id, Record>, pms: map<Id, Record>, ats: map<Id, Record>): (r: Option<Reason>)
    ensures r.None? <==> Complete(b) && IsActive(cats, b.category.value)
                         && IsActive(pms, b.paymentMethod.value) && IsActive(ats, b.amountType.value)
    ensures b.amount.None? || b.amount.value <= 0 ==> r == Some(AmountRequired)
    ensures !Complete(b) ==> r.Some? && r.value in {AmountRequired, CategoryRequired, PaymentMethodRequired, AmountTypeRequired}
    ensures b.amount.Some? && b.amount.value > 0 && b.category.None? ==> r == Some(CategoryRequired)
    ensures (b.amount.Some? && b.amount.value > 0 && b.category.Some? && b.paymentMethod.None?)
            ==> r == Some(PaymentMethodRequired)
    ensures (b.amount.Some? && b.amount.value > 0 && b.category.Some? && b.paymentMethod.Some? && b.amountType.None?)
            ==> r == Some(AmountTypeRequired)
    ensures Complete(b) && !IsActive(cats, b.category.value) ==> r == Some(InactiveCategory)
    ensures (Complete(b) && IsActive(cats, b.category.value) && !IsActive(pms, b.paymentMethod.value))
            ==> r == Some(InactivePaymentMethod)
    ensures (Complete(b) && IsActive(cats, b.category.value) && IsActive(pms, b.paymentMethod.value)
             && !IsActive(ats, b.amountType.value)) ==> r == Some(InactiveAmountType)
    ensures r.Some? && r.value == InactiveAmountType ==> IsActive(cats, b.category.value) && IsActive(pms, b.paymentMethod.value)
  {
    if b.amount.None? || b.amount.value <= 0 then Some(AmountRequired)
    else if b.category.None? then Some(CategoryRequired)
    else if b.paymentMethod.None? then Some(PaymentMethodRequired)
    else if b.amountType.None? then Some(AmountTypeRequired)
    else if !IsActive(cats, b.category.value) then Some(InactiveCategory)
    else if !IsActive(pms, b.paymentMethod.value) then Some(InactivePaymentMethod)
    else if !IsActive(ats, b.amountType.value) then Some(InactiveAmountType)
    else None
  }

  /** The update checks once the entry is found: a supplied amount must be positive, and each
      supplied reference must be active, in the order category, payment method, amount type. */
  function UpdateCheck(b: Body, cats: map<Id, Record>, pms: map<Id, Record>, ats: map<Id, Record>): (r: Option<Reason>)
    ensures r.None? <==> (b.amount.None? || b.amount.value > 0)
                         && (b.category.None? || IsActive(cats, b.category.value))
                         && (b.paymentMethod.None? || IsActive(pms, b.paymentMethod.value))
                         && (b.amountType.None? || IsActive(ats, b.amountType.value))
    ensures b.amount.Some? && b.amount.value <= 0 ==> r == Some(AmountNotPositive)
    ensures b == Body(None, None, None, None, b.date, b.description) ==> r.None?
    ensures ((b.amount.None? || b.amount.value > 0) && b.category.Some? && !IsActive(cats, b.category.value))
            ==> r == Some(InactiveCategory)
    ensures ((b.amount.None? || b.amount.value > 0) && (b.category.None? || IsActive(cats, b.category.value))
             && b.paymentMethod.Some? && !IsActive(pms, b.paymentMethod.value))
            ==> r == Some(InactivePaymentMethod)
    ensures ((b.amount.None? || b.amount.value > 0) && (b.category.None? || IsActive(cats, b.category.value))
             && (b.paymentMethod.None? || IsActive(pms, b.paymentMethod.value))
             && b.amountType.Some? && !IsActive(ats, b.amountType.value))
            ==> r == Some(InactiveAmountType)
  {
    if b.amount.Some? && b.amount.value <= 0 then Some(AmountNotPositive)
    else if b.category.Some? && !IsActive(cats, b.category.value) then Some(InactiveCategory)
    else if b.paymentMethod.Some? && !IsActive(pms, b.paymentMethod.value) then Some(InactivePaymentMethod)
    else if b.amountType.Some? && !IsActive(ats, b.amountType.value) then Some(InactiveAmountType)
    else None
  }

  /** The stored description: `description || ''`, trimmed by the schema. */
  function StoredDescription(d: Option<string>): (r: string)
    ensures |r| <= (if d.Some? then |d.value| else 0)
    ensures d.None? ==> r == ""
    ensures d.Some? ==> r == Trim(d.value)
  {
    TrimOr(d, "")
  }

  /** The document a create saves: the body's fields, the date or `now`, and the stored description. */
  function NewEntry(u: UserId, b: Body, now: int): (e: Entry)
    requires Complete(b)
    ensures e.userId == u && e.amount == b.amount.value && e.amount > 0
    ensures e.category == b.category.value && e.paymentMethod == b.paymentMethod.value
    ensures e.amountType == b.amountType.value
    ensures e.date == (if b.date.Some? then b.date.value else now)
    ensures b.description.None? ==> e.description == ""
    ensures b.description.Some? ==> e.description == Trim(b.description.value)
  {
    Entry(u, b.amount.value, b.category.value, b.paymentMethod.value, b.amountType.value,
          if b.date.Some? then b.date.value else now, StoredDescription(b.description))
  }

  /** The partial update: a supplied field overwrites, an absent one is kept. */
  function Patched(e: Entry, b: Body): (r: Entry)
    ensures r.userId == e.userId
    ensures r.amount == (if b.amount.Some? then b.amount.value else e.amount)
    ensures r.category == (if b.category.Some? then b.category.value else e.category)
    ensures r.paymentMethod == (if b.paymentMethod.Some? then b.paymentMethod.value else e.paymentMethod)
    ensures r.amountType == (if b.amountType.Some? then b.amountType.value else e.amountType)
    ensures r.date == (if b.date.Some? then b.date.value else e.date)
    ensures b.description.None? ==> r.description == e.description
    ensures b.description.Some? ==> r.description == Trim(b.description.value)
  {
    Entry(e.userId,
          if b.amount.Some? then b.amount.value else e.amount,
          if b.category.Some? then b.category.value else e.category,
          if b.paymentMethod.Some? then b.paymentMethod.value else e.paymentMethod,
          if b.amountType.Some? then b.amountType.value else e.amountType,
          if b.date.Some? then b.date.value else e.date,
          if b.description.Some? then StoredDescription(b.description) else e.description)
  }

  /** What the schema accepts on save. */
  predicate SchemaValid(e: Entry) {
    e.amount >= 0 && |e.description| <= MaxDescriptionLength
  }

  /** The entry's amount type resolves and classifies as credit. */
  predicate EntryCredit(ats: map<Id, Record>, e: Entry) {
    e.amountType in ats && IsCredit(ats[e.amountType].name)
  }

  /** The entry's amount type resolves and classifies as debit. */
  predicate EntryDebit(ats: map<Id, Record>, e: Entry) {
    e.amountType in ats && !IsCredit(ats[e.amountType].name)
  }

  /** Sum of the credit entries' amounts. */
  function CreditSum(es: seq<Entry>, ats: map<Id, Record>): int {
    if es == [] then 0
    else CreditSum(es[..|es| - 1], ats) + (if EntryCredit(ats, es[|es| - 1]) then es[|es| - 1].amount else 0)
  }

  /** Sum of the debit entries' amounts. */
  function DebitSum(es: seq<Entry>, ats: map<Id, Record>): int {
    if es == [] then 0
    else DebitSum(es[..|es| - 1], ats) + (if EntryDebit(ats, es[|es| - 1]) then es[|es| - 1].amount else 0)
  }

  /** Sum of all amounts. */
  function AmountSum(es: seq<Entry>): int {
    if es == [] then 0 else AmountSum(es[..|es| - 1]) + es[|es| - 1].amount
  }

  /** Every entry's amount type resolves. */
  predicate TypesResolve(es: seq<Entry>, ats: map<Id, Record>) {
    forall i :: 0 <= i < |es| ==> es[i].amountType in ats
  }

  /** When every amount type resolves, each entry counts in exactly one of the two sums. */
  lemma {:induction false} CreditDebitPartition(es: seq<Entry>, ats: map<Id, Record>)
    requires TypesResolve(es, ats)
    ensures CreditSum(es, ats) + DebitSum(es, ats) == AmountSum(es)
  {
    if es != [] {
      CreditDebitPartition(es[..|es| - 1], ats);
    }
  }

  /** The entries on payment method `m`, in order. */
  function OnMethod(es: seq<Entry>, m: Id): (r: seq<Entry>)
    ensures |r| <= |es|
    ensures forall i :: 0 <= i < |r| ==> r[i].paymentMethod == m
  {
    if es == [] then []
    else OnMethod(es[..|es| - 1], m) + (if es[|es| - 1].paymentMethod == m then [es[|es| - 1]] else [])
  }

  lemma CreditSumAppend(es: seq<Entry>, e: Entry, ats: map<Id, Record>)
    ensures CreditSum(es + [e], ats) == CreditSum(es, ats) + (if EntryCredit(ats, e) then e.amount else 0)
    ensures DebitSum(es + [e], ats) == DebitSum(es, ats) + (if EntryDebit(ats, e) then e.amount else 0)
    ensures AmountSum(es + [e]) == AmountSum(es) + e.amount
  {
    assert (es + [e])[..|es|] == es;
  }

  lemma OnMethodAppend(es: seq<Entry>, e: Entry, m: Id)
    ensures OnMethod(es + [e], m) == OnMethod(es, m) + (if e.paymentMethod == m then [e] else [])
  {
    assert (es + [e])[..|es|] == es;
  }

  /** Some entry is selected for `m` exactly when some entry is on `m`. */
  lemma {:induction false} OnMethodNonEmpty(es: seq<Entry>, m: Id)
    ensures OnMethod(es, m) != [] <==> exists j :: 0 <= j < |es| && es[j].paymentMethod == m
  {
    if es != [] {
      var init := es[..|es| - 1];
      OnMethodNonEmpty(init, m);
      if OnMethod(init, m) != [] {
        var j :| 0 <= j < |init| && init[j].paymentMethod == m;
        assert es[j] == init[j];
      }
      if exists j :: 0 <= j < |es| && es[j].paymentMethod == m {
        var j :| 0 <= j < |es| && es[j].paymentMethod == m;
        if j < |init| {
          assert init[j] == es[j];
        }
      }
    }
  }
}
