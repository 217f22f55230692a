/** The credit/debit classification of an amount type by its name. */
module Classifier {
  import opened Text

  /** An amount type is credit when its lower-cased name contains "credit" or "income";
      every other amount type is debit. */
  function IsCredit(name: string): (b: bool)
    ensures b <==> Mentions(Lower(name), "credit") || Mentions(Lower(name), "income")
  {
    Contains(Lower(name), "credit") || Contains(Lower(name), "income")
  }

  /** The classification ignores case: a name and its lower-cased form classify alike. */
  lemma IsCreditIgnoresCase(name: string)
    ensures IsCredit(Lower(name)) == IsCredit(name)
  {
    LowerIdempotent(name);
  }

  /** `word` occurs at position `i` of the lower-cased `s` when each character of `s` there lowers to it. */
  lemma LowersTo(s: string, i: nat, word: string)
    requires i + |word| <= |s|
    requires forall k :: 0 <= k < |word| ==> LowerChar(s[i + k]) == word[k]
    ensures OccursAt(Lower(s), word, i)
  {
    var l := Lower(s);
    forall k | 0 <= k < |word|
      ensures l[i..i + |word|][k] == word[k]
    {
      assert l[i + k] == LowerChar(s[i + k]);
    }
  }

  /** A name holding "credit" or "income" in any letter case, anywhere, is credit. */
  lemma KeywordAnywhereIsCredit(prefix: string, word: string, suffix: string)
    requires Lower(word) == "credit" || Lower(word) == "income"
    ensures IsCredit(prefix + word + suffix)
  {
    var s := prefix + word + suffix;
    forall k | 0 <= k < |word|
      ensures LowerChar(s[|prefix| + k]) == Lower(word)[k]
    {
      assert s[|prefix| + k] == word[k];
    }
    LowersTo(s, |prefix|, Lower(word));
  }

  /** A credit-card bill counts as a credit: the name mentions "credit". */
  lemma CreditCardBillIsCredit(name: string)
    requires name == "Credit Card Bill"
    ensures IsCredit(name)
  {
    assert name[0] == 'C' && name[1] == 'r' && name[2] == 'e' && name[3] == 'd' && name[4] == 'i' && name[5] == 't';
    LowersTo(name, 0, "credit");
  }

  /** A salary income counts as a credit: the name mentions "income". */
  lemma SalaryIncomeIsCredit(name: string)
    requires name == "Salary Income"
    ensures IsCredit(name)
  {
    assert name[7] == 'I' && name[8] == 'n' && name[9] == 'c' && name[10] == 'o' && name[11] == 'm' && name[12] == 'e';
    LowersTo(name, 7, "income");
  }

  /** Groceries count as a debit: the name mentions neither keyword. */
  lemma GroceriesIsDebit(name: string)
    requires name == "Groceries"
    ensures !IsCredit(name)
  {
    var g := Lower(name);
    assert g[0] == 'g' && g[1] == 'r' && g[2] == 'o' && g[3] == 'c' && g[4] == 'e';
  }
}
