/** The document processor: turns one line read from a bank document into a
    draft ledger entry, classifying it by keywords in its description. */
module Processor {
  import opened Shared
  import opened Text

  /** Descriptions that mark money coming in. */
  const RevenueKeywords: seq<string> := ["payment received", "bank transfer received", "invoice paid"]

  /** Descriptions that mark money moved between the company's own accounts. */
  const TransferKeywords: seq<string> := ["internal transfer", "account transfer"]

  predicate StartsWith(text: string, keyword: string) {
    |keyword| <= |text| && text[..|keyword|] == keyword
  }

  /** `text.includes(keyword)`, by scanning the start positions left to right. */
  predicate Contains(text: string, keyword: string)
    decreases |text|
  {
    StartsWith(text, keyword) || (text != [] && Contains(text[1..], keyword))
  }

  /** The reference meaning of `includes`: the keyword sits at some offset. */
  ghost predicate Occurs(text: string, keyword: string) {
    exists i :: 0 <= i <= |text| && StartsWith(text[i..], keyword)
  }

  ghost predicate OccursAny(text: string, keywords: seq<string>) {
    exists k :: k in keywords && Occurs(text, k)
  }

  /** `keywords.some((keyword) => text.includes(keyword))` */
  predicate ContainsAny(text: string, keywords: seq<string>) {
    exists k :: k in keywords && Contains(text, k)
  }

  /** The scan finds the keyword exactly when it occurs somewhere. */
  lemma {:induction false} ContainsOccurs(text: string, keyword: string)
    ensures Contains(text, keyword) <==> Occurs(text, keyword)
    decreases |text|
  {
    assert text[0..] == text;
    if text != [] {
      ContainsOccurs(text[1..], keyword);
      if Occurs(text[1..], keyword) {
        var i :| 0 <= i <= |text[1..]| && StartsWith(text[1..][i..], keyword);
        assert text[1..][i..] == text[i + 1..];
      }
      if Occurs(text, keyword) && !StartsWith(text, keyword) {
        var i :| 0 <= i <= |text| && StartsWith(text[i..], keyword);
        assert i != 0;
        assert text[1..][i - 1..] == text[i..];
      }
    }
  }

  lemma ContainsAnyOccursAny(text: string, keywords: seq<string>)
    ensures ContainsAny(text, keywords) <==> OccursAny(text, keywords)
  {
    forall k | k in keywords {
      ContainsOccurs(text, k);
    }
  }

  /** `classifyEntryType`: revenue keywords win over transfer keywords, and a
      description naming neither is an expense; the test is on the
      lower-cased text. */
  function ClassifyEntryType(description: string): (r: EntryType)
    ensures r in {Revenue, Transfer, Expense}
    ensures r == Revenue <==> OccursAny(Lower(description), RevenueKeywords)
    ensures r == Transfer <==> !OccursAny(Lower(description), RevenueKeywords)
                               && OccursAny(Lower(description), TransferKeywords)
  {
    var text := Lower(description);
    ContainsAnyOccursAny(text, RevenueKeywords);
    ContainsAnyOccursAny(text, TransferKeywords);
    if ContainsAny(text, RevenueKeywords) then Revenue
    else if ContainsAny(text, TransferKeywords) then Transfer
    else Expense
  }

  /** Classification does not depend on letter case. */
  lemma ClassifyIgnoresCase(description: string)
    ensures ClassifyEntryType(Lower(description)) == ClassifyEntryType(description)
  {
    LowerIdempotent(description);
  }

  /** A description naming a revenue keyword is revenue, whatever transfer
      keyword it also names. */
  lemma RevenueWins(description: string, keyword: string, i: nat)
    requires keyword in RevenueKeywords
    requires i <= |description|
    requires StartsWith(Lower(description)[i..], keyword)
    ensures ClassifyEntryType(description) == Revenue
  {
  }

  /** A keyword cannot occur in a shorter text. */
  lemma NotOccursInShorter(text: string, keyword: string)
    requires |text| < |keyword|
    ensures !Occurs(text, keyword)
  {
  }

  /** Every keyword is at least twelve characters long, so a shorter
      description is always an expense. */
  lemma ShortDescriptionIsExpense(description: string)
    requires |description| < 12
    ensures ClassifyEntryType(description) == Expense
  {
    var text := Lower(description);
    forall k | k in RevenueKeywords + TransferKeywords ensures !Occurs(text, k) {
      NotOccursInShorter(text, k);
    }
    assert !OccursAny(text, RevenueKeywords);
    assert !OccursAny(text, TransferKeywords);
  }

  /** A line as the document reader yields it; the date is a day number. */
  datatype RawDocumentLine = RawDocumentLine(
    date: int,
    amount: real,
    description: string,
    accountHint: Option<string>)

  /** `toLedgerEntry`: the line's magnitude as the amount, the account hint or
      the default account, an uncategorized entry of the classified type,
      marked as coming from a PDF and linked to nothing. */
  function ToLedgerEntry(line: RawDocumentLine, defaultBankAccount: string): (d: Draft)
    ensures d.amount >= 0.0 && (d.amount == line.amount || d.amount == -line.amount)
    ensures d.date == line.date && d.description == line.description
    ensures d.category == "uncategorized"
    ensures line.accountHint.Some? ==> d.bankAccount == line.accountHint.value
    ensures line.accountHint.None? ==> d.bankAccount == defaultBankAccount
    ensures d.kind == ClassifyEntryType(line.description)
    ensures d.importedFrom == Some(Pdf) && d.linkedBankEntryId == None
  {
    Draft(line.date, Abs(line.amount), line.description, "uncategorized",
          OrElse(line.accountHint, defaultBankAccount),
          ClassifyEntryType(line.description), Some(Pdf), None)
  }

  /** A line and its negation yield the same draft: the sign in the document
      is discarded. */
  lemma ToLedgerEntryIgnoresSign(line: RawDocumentLine, defaultBankAccount: string)
    ensures ToLedgerEntry(line.(amount := -line.amount), defaultBankAccount)
         == ToLedgerEntry(line, defaultBankAccount)
  {
  }
}
