/** The finance service: the ledger store with its category hints, the
    import pipeline and the reports computed over the stored entries. */
module Finance {
  import opened Shared
  import opened Sorting
  import opened Categories
  import opened Duplicates
  import opened Store
  import opened Analytics

  /** The advisor an import consults: the hints as they stand when the batch
      starts (an import does not learn). */
  function AdvisorOf(hints: map<string, string>): Suggester {
    (description: string, fallback: string) => Suggest(hints, description, fallback)
  }

  /** The duplicate search of credit-card imports. */
  function DuplicateFinder(): Finder {
    (entries: seq<LedgerEntry>, candidate: Draft) => FindPotentialDuplicate(entries, candidate)
  }

  /** One turn of the import loop with the service's own advisor and
      duplicate search: the entry gets the next id, the source and the
      suggested category; a credit-card entry is linked to the duplicate found
      and stored only without one; a document entry is always stored. */
  lemma ServiceImportStep(hints: map<string, string>, source: ImportSource, st: ImportState, d: Draft)
    ensures var base := WithId(d, st.nextId).(importedFrom := Some(source),
                                              category := Suggest(hints, d.description, d.category));
            var duplicate := FindPotentialDuplicate(st.entries, d);
            var linked := base.(linkedBankEntryId := LinkTo(duplicate));
      ImportStep(AdvisorOf(hints), DuplicateFinder(), source, st, d)
      == if source == CreditCard
         then ImportState(st.entries + (if duplicate.None? then [linked] else []), st.nextId + 1, st.imported + [linked])
         else ImportState(st.entries + [base], st.nextId + 1, st.imported + [base])
  {
    assert AdvisorOf(hints)(d.description, d.category) == Suggest(hints, d.description, d.category);
    assert DuplicateFinder()(st.entries, d) == FindPotentialDuplicate(st.entries, d);
  }

  /** The state an import of `drafts` leaves behind, started from the entries,
      counter and hints given. */
  function ImportOf(hints: map<string, string>, source: ImportSource, entries: seq<LedgerEntry>, nextId: Id,
                    drafts: seq<Draft>): ImportState {
    ImportAll(AdvisorOf(hints), DuplicateFinder(), source, Start(entries, nextId), drafts)
  }

  /** The state of the account loop after scanning `s`: the accounts in
      order of first use, each with its report so far. */
  ghost predicate GroupedFlows(s: seq<LedgerEntry>, grouped: map<string, AccountFlow>, order: seq<string>) {
    && order == AccountsOf(s)
    && (forall a :: a in grouped <==> a in order)
    && forall a :: a in grouped ==> grouped[a] == FlowOf(s, a)
  }

  /** A transfer is skipped. */
  lemma GroupedFlowsSkip(s: seq<LedgerEntry>, e: LedgerEntry, grouped: map<string, AccountFlow>, order: seq<string>)
    requires GroupedFlows(s, grouped, order) && e.kind == Transfer
    ensures GroupedFlows(s + [e], grouped, order)
  {
    AccountsOfSnoc(s, e);
    forall a | a in grouped ensures grouped[a] == FlowOf(s + [e], a) {
      FlowOfOther(s, e, a);
    }
  }

  /** An account seen for the first time starts from zero. */
  lemma GroupedFlowsFresh(s: seq<LedgerEntry>, grouped: map<string, AccountFlow>, order: seq<string>, account: string)
    requires GroupedFlows(s, grouped, order) && account !in grouped
    ensures FlowOf(s, account) == AccountFlow(account, 0.0, 0.0, 0.0)
  {
    AccountTotalUnlisted(s, account, {Revenue});
    AccountTotalUnlisted(s, account, OperatingExpenseTypes);
  }

  /** Every account's report after `e`, once `e`'s own is replaced. */
  lemma FlowsAfter(s: seq<LedgerEntry>, e: LedgerEntry, grouped: map<string, AccountFlow>, current: AccountFlow)
    requires forall a :: a in grouped ==> grouped[a] == FlowOf(s, a)
    requires current == FlowOf(s + [e], e.bankAccount)
    ensures var g := grouped[e.bankAccount := current]; forall a :: a in g ==> g[a] == FlowOf(s + [e], a)
  {
    var g := grouped[e.bankAccount := current];
    forall a | a in g ensures g[a] == FlowOf(s + [e], a) {
      if a != e.bankAccount {
        FlowOfOther(s, e, a);
      }
    }
  }

  /** Any other entry updates its own account's report, */
  lemma GroupedFlowsUpdate(s: seq<LedgerEntry>, e: LedgerEntry, grouped: map<string, AccountFlow>, order: seq<string>,
                           current: AccountFlow)
    requires GroupedFlows(s, grouped, order) && e.kind != Transfer && e.bankAccount in grouped
    requires current == FlowOf(s + [e], e.bankAccount)
    ensures GroupedFlows(s + [e], grouped[e.bankAccount := current], order)
  {
    var g := grouped[e.bankAccount := current];
    assert e.bankAccount in AccountsOf(s);
    AccountsOfSnoc(s, e);
    assert AccountsOf(s + [e]) == order;
    assert forall b :: b in g <==> b in grouped;
    FlowsAfter(s, e, grouped, current);
    assert GroupedFlows(s + [e], g, order);
  }

  /** listing the account when it is new. */
  lemma GroupedFlowsInsert(s: seq<LedgerEntry>, e: LedgerEntry, grouped: map<string, AccountFlow>, order: seq<string>,
                           current: AccountFlow)
    requires GroupedFlows(s, grouped, order) && e.kind != Transfer && e.bankAccount !in grouped
    requires current == FlowOf(s + [e], e.bankAccount)
    ensures GroupedFlows(s + [e], grouped[e.bankAccount := current], order + [e.bankAccount])
  {
    var g, o := grouped[e.bankAccount := current], order + [e.bankAccount];
    assert e.bankAccount !in AccountsOf(s);
    AccountsOfSnoc(s, e);
    assert AccountsOf(s + [e]) == o;
    forall b ensures b in g <==> b in o {
      assert b in o <==> b in order || b == e.bankAccount;
    }
    FlowsAfter(s, e, grouped, current);
    assert GroupedFlows(s + [e], g, o);
  }

  /** `Array.from(grouped.values())`: the reports in key order. */
  lemma GroupedFlowsReport(s: seq<LedgerEntry>, grouped: map<string, AccountFlow>, order: seq<string>)
    requires GroupedFlows(s, grouped, order)
    ensures seq(|order|, k requires 0 <= k < |order| => grouped[order[k]]) == CashflowByAccountOf(s)
  {
  }

  /** The state of the category loop after scanning `expenses`: the
      categories in order of first use, each with its total so far. */
  ghost predicate CategoryTotals(expenses: seq<LedgerEntry>, totals: map<string, real>, order: seq<string>) {
    && order == Keys(expenses, CategoryOf)
    && (forall c :: c in totals <==> c in order)
    && forall c :: c in totals ==> totals[c] == CategoryTotal(expenses, c)
  }

  /** One more expense of a listed category is added to its total, */
  lemma CategoryTotalsUpdate(expenses: seq<LedgerEntry>, item: LedgerEntry, totals: map<string, real>, order: seq<string>)
    requires CategoryTotals(expenses, totals, order) && item.category in totals
    ensures CategoryTotals(expenses + [item], totals[item.category := totals[item.category] + item.amount], order)
  {
    var t := totals[item.category := totals[item.category] + item.amount];
    KeysSnoc(expenses, item, CategoryOf);
    forall b | b in t ensures t[b] == CategoryTotal(expenses + [item], b) {
      CategoryTotalSnoc(expenses, item, b);
    }
  }

  /** and one of a new category starts its total, listing the category. */
  lemma CategoryTotalsInsert(expenses: seq<LedgerEntry>, item: LedgerEntry, totals: map<string, real>, order: seq<string>)
    requires CategoryTotals(expenses, totals, order) && item.category !in totals
    ensures CategoryTotals(expenses + [item], totals[item.category := 0.0 + item.amount], order + [item.category])
  {
    var t, o := totals[item.category := 0.0 + item.amount], order + [item.category];
    KeysSnoc(expenses, item, CategoryOf);
    forall b ensures b in t <==> b in o {
      assert b in o <==> b in order || b == item.category;
    }
    CategoryTotalUnlisted(expenses, item.category);
    forall b | b in t ensures t[b] == CategoryTotal(expenses + [item], b) {
      CategoryTotalSnoc(expenses, item, b);
    }
  }

  /** The cost centres built from the category totals, in key order. */
  lemma CategoryTotalsCenters(expenses: seq<LedgerEntry>, totals: map<string, real>, order: seq<string>, total: real)
    requires CategoryTotals(expenses, totals, order)
    ensures seq(|order|, k requires 0 <= k < |order| => CostCenter(order[k], totals[order[k]], Percentage(totals[order[k]], total)))
         == CentersOf(expenses, total, order)
  {
  }

  class FinanceService {
    var entries: seq<LedgerEntry>
    var categoryHints: map<string, string>
    /** The next identifier to hand out. */
    var nextId: Id

    /** Identifiers are unique and below `nextId`. */
    ghost predicate Valid()
      reads this
    {
      FreshIds(entries, nextId)
    }

    constructor()
      ensures Valid()
      ensures entries == [] && categoryHints == map[] && nextId == 0
    {
      entries := [];
      categoryHints := map[];
      nextId := 0;
    }

    /** The entries in date order; the stored order becomes that order too. */
    method GetEntries() returns (r: seq<LedgerEntry>)
      requires Valid()
      modifies this
      ensures Valid()
      ensures entries == SortBy(old(entries), DateKey) && r == entries
      ensures categoryHints == old(categoryHints) && nextId == old(nextId)
    {
      SortByDistinct(entries, DateKey, IdOf);
      SortByMembers(entries, DateKey);
      FreshReordered(entries, nextId, SortBy(entries, DateKey));
      entries := SortBy(entries, DateKey);
      r := entries;
    }

    /** Records the category for the description's key. */
    method LearnCategory(description: string, category: string)
      modifies this
      ensures categoryHints == Learn(old(categoryHints), description, category)
      ensures entries == old(entries) && nextId == old(nextId)
    {
      categoryHints := categoryHints[Normalize(description) := category];
    }

    /** Stores the draft under a fresh id with the suggested category, and
        learns that category for its description. */
    method AddEntry(d: Draft) returns (e: LedgerEntry)
      requires Valid()
      modifies this
      ensures Valid()
      ensures e == WithId(d, old(nextId)).(category := Suggest(old(categoryHints), d.description, d.category))
      ensures entries == old(entries) + [e] && nextId == old(nextId) + 1
      ensures categoryHints == Learn(old(categoryHints), d.description, e.category)
      ensures Suggest(categoryHints, d.description, d.category) == e.category
    {
      var suggestedCategory := Suggest(categoryHints, d.description, d.category);
      e := WithId(d, nextId).(category := suggestedCategory);
      AppendFresh(entries, nextId, e);
      entries := entries + [e];
      nextId := nextId + 1;
      LearnCategory(e.description, e.category);
      SuggestAfterLearn(old(categoryHints), d.description, e.category, d.description, d.category);
    }

    /** Applies the changes to the first entry with the id and learns its
        category; an unknown id changes nothing. */
    method UpdateEntry(id: Id, changes: Changes) returns (r: Option<LedgerEntry>)
      requires Valid()
      modifies this
      ensures Valid()
      ensures nextId == old(nextId)
      ensures r.Some? <==> !Absent(old(entries), id)
      ensures r.None? ==> entries == old(entries) && categoryHints == old(categoryHints)
      ensures r.Some? ==>
        && FindIndex(old(entries), id).Some?
        && var k := FindIndex(old(entries), id).value;
           && r.value == Merge(old(entries)[k], changes)
           && entries == old(entries)[k := r.value]
           && categoryHints == Learn(old(categoryHints), r.value.description, r.value.category)
    {
      var index := FindIndex(entries, id);
      if index.None? {
        return None;
      }
      var k := index.value;
      var updated := Merge(entries[k], changes);
      ReplaceFresh(entries, nextId, k, updated);
      entries := entries[k := updated];
      LearnCategory(entries[k].description, entries[k].category);
      r := Some(entries[k]);
    }

    /** Removes every entry with the id; reports whether there was one. */
    method DeleteEntry(id: Id) returns (removed: bool)
      requires Valid()
      modifies this
      ensures Valid()
      ensures entries == Without(old(entries), id)
      ensures removed <==> !Absent(old(entries), id)
      ensures categoryHints == old(categoryHints) && nextId == old(nextId)
    {
      var initialLength := |entries|;
      WithoutRemoves(entries, id);
      WithoutFresh(entries, nextId, id);
      entries := Without(entries, id);
      removed := initialLength != |entries|;
    }

    /** One turn of the import loop: enriches the draft and stores it,
        unless it is a credit-card entry with a potential duplicate.
        `imported` is what the batch has returned so far. */
    method ImportOne(source: ImportSource, d: Draft, ghost imported: seq<LedgerEntry>) returns (enriched: LedgerEntry)
      modifies this
      ensures categoryHints == old(categoryHints)
      ensures ImportState(entries, nextId, imported + [enriched])
           == ImportStep(AdvisorOf(categoryHints), DuplicateFinder(), source, ImportState(old(entries), old(nextId), imported), d)
    {
      ServiceImportStep(categoryHints, source, ImportState(entries, nextId, imported), d);
      if source == CreditCard {
        var duplicate := FindPotentialDuplicate(entries, d);
        enriched := WithId(d, nextId).(importedFrom := Some(source), linkedBankEntryId := LinkTo(duplicate),
                                       category := Suggest(categoryHints, d.description, d.category));
        if duplicate.None? {
          entries := entries + [enriched];
        }
      } else {
        enriched := WithId(d, nextId).(importedFrom := Some(source),
                                       category := Suggest(categoryHints, d.description, d.category));
        entries := entries + [enriched];
      }
      nextId := nextId + 1;
    }

    /** Imports a batch: every draft is returned enriched; document imports
        store them all, credit-card imports store those without a duplicate
        and count the linked ones. */
    method ImportData(source: ImportSource, drafts: seq<Draft>) returns (imported: seq<LedgerEntry>, duplicatesDetected: nat)
      requires Valid()
      modifies this
      ensures Valid()
      ensures var r := ImportOf(old(categoryHints), source, old(entries), old(nextId), drafts);
        entries == r.entries && nextId == r.nextId && imported == r.imported
      ensures duplicatesDetected == CountLinked(imported)
      ensures categoryHints == old(categoryHints)
      ensures source != CreditCard ==> entries == old(entries) + imported
      ensures source == CreditCard ==> entries == old(entries) + Unlinked(imported)
      ensures source == CreditCard ==> |entries| + duplicatesDetected == |old(entries)| + |drafts|
    {
      ghost var suggest, find := AdvisorOf(categoryHints), DuplicateFinder();
      ghost var start := Start(entries, nextId);
      imported := [];
      var i := 0;
      while i < |drafts|
        invariant 0 <= i <= |drafts|
        invariant categoryHints == old(categoryHints)
        invariant ImportState(entries, nextId, imported) == ImportAll(suggest, find, source, start, drafts[..i])
      {
        var enriched := ImportOne(source, drafts[i], imported);
        imported := imported + [enriched];
        ImportAllNext(suggest, find, source, start, drafts, i);
        i := i + 1;
      }
      assert drafts[..i] == drafts;
      ImportFresh(suggest, find, source, start, drafts);
      if source == CreditCard {
        ImportCreditCardAppendsUnlinked(suggest, find, old(entries), old(nextId), drafts);
        ImportCreditCardCount(suggest, find, old(entries), old(nextId), drafts);
      } else {
        ImportDocumentsAppendsAll(suggest, find, source, old(entries), old(nextId), drafts);
      }
      duplicatesDetected := CountLinked(imported);
    }

    /** The revenue and expense entries, each with its signed amount. */
    method GetOperatingCashflow() returns (r: seq<CashflowLine>)
      ensures r == OperatingCashflowOf(entries)
      ensures SignedTotal(r) == TotalOf(entries, {Revenue}) - TotalOf(entries, {Expense})
    {
      OperatingCashflowNet(entries);
      r := OperatingCashflowOf(entries);
    }

    /** One report per account, in order of the account's first
        non-transfer entry. */
    method GetCashflowByAccount() returns (r: seq<AccountFlow>)
      ensures r == CashflowByAccountOf(entries)
    {
      var grouped: map<string, AccountFlow> := map[];
      var order: seq<string> := [];
      ghost var scanned: seq<LedgerEntry> := [];
      var i := 0;
      while i < |entries|
        invariant 0 <= i <= |entries| && scanned == entries[..i]
        invariant GroupedFlows(scanned, grouped, order)
      {
        var e := entries[i];
        if e.kind == Transfer {
          GroupedFlowsSkip(scanned, e, grouped, order);
        } else {
          var current: AccountFlow;
          if e.bankAccount in grouped {
            current := grouped[e.bankAccount];
          } else {
            GroupedFlowsFresh(scanned, grouped, order, e.bankAccount);
            current := AccountFlow(e.bankAccount, 0.0, 0.0, 0.0);
          }
          FlowOfOwn(scanned, e);
          current := Credit(current, e);
          if e.bankAccount in grouped {
            GroupedFlowsUpdate(scanned, e, grouped, order, current);
          } else {
            GroupedFlowsInsert(scanned, e, grouped, order, current);
            order := order + [e.bankAccount];
          }
          grouped := grouped[e.bankAccount := current];
        }
        TakeSnoc(entries, i);
        scanned := scanned + [e];
        i := i + 1;
      }
      assert scanned == entries;
      GroupedFlowsReport(scanned, grouped, order);
      r := seq(|order|, k requires 0 <= k < |order| => grouped[order[k]]);
    }

    /** The totals of revenue, operating expenses and taxes, with the margin
        and the net profit. */
    method GetExecutiveMetrics() returns (r: ExecutiveMetrics)
      ensures r == ExecutiveMetricsOf(entries)
    {
      var revenue, totalExpenses, taxes := 0.0, 0.0, 0.0;
      var i := 0;
      while i < |entries|
        invariant 0 <= i <= |entries|
        invariant revenue == TotalOf(entries[..i], {Revenue})
        invariant totalExpenses == TotalOf(entries[..i], OperatingExpenseTypes)
        invariant taxes == TotalOf(entries[..i], {Tax})
      {
        var e := entries[i];
        assert entries[..i + 1] == entries[..i] + [e];
        TotalOfSnoc(entries[..i], e, {Revenue});
        TotalOfSnoc(entries[..i], e, OperatingExpenseTypes);
        TotalOfSnoc(entries[..i], e, {Tax});
        if e.kind == Revenue { revenue := revenue + e.amount; }
        if e.kind in OperatingExpenseTypes { totalExpenses := totalExpenses + e.amount; }
        if e.kind == Tax { taxes := taxes + e.amount; }
        i := i + 1;
      }
      assert entries[..i] == entries;
      var contributionMargin := if revenue == 0.0 then 0.0 else (revenue - totalExpenses) / revenue * 100.0;
      r := ExecutiveMetrics(revenue, totalExpenses, taxes, contributionMargin, revenue - totalExpenses);
    }

    /** The single risk signal for the 60 days before the day `now`. */
    method DetectRiskSignals(now: int) returns (r: seq<RiskSignal>)
      ensures r == RiskSignalsOf(entries, now)
      ensures NonNegativeAmounts(entries) ==>
        (r == [RiskControlled] <==>
         TotalOf(Recent(entries, now), OperatingExpenseTypes) <= 0.85 * TotalOf(Recent(entries, now), {Revenue}))
    {
      var recentEntries := Recent(entries, now);
      var revenue := TotalOf(recentEntries, {Revenue});
      var expenses := TotalOf(recentEntries, OperatingExpenseTypes);
      if NonNegativeAmounts(entries) {
        RecentMembers(entries, now);
        TotalNonNegative(recentEntries, {Revenue});
        RiskOfCases(revenue, expenses);
      }
      r := [RiskOf(revenue, expenses)];
    }

    /** The three largest cost centres with an opportunity each, the risk
        signal for the day `now` and a summary. */
    method GetAiInsights(now: int) returns (r: Insights)
      ensures r == AiInsightsOf(entries, now)
    {
      var expenses := ExpensesOf(entries);
      var totalExpenses := Sum(expenses);
      var totalsByCategory: map<string, real> := map[];
      var order: seq<string> := [];
      var i := 0;
      while i < |expenses|
        invariant 0 <= i <= |expenses|
        invariant CategoryTotals(expenses[..i], totalsByCategory, order)
      {
        var item := expenses[i];
        assert expenses[..i + 1] == expenses[..i] + [item];
        var soFar := 0.0;
        if item.category in totalsByCategory {
          CategoryTotalsUpdate(expenses[..i], item, totalsByCategory, order);
          soFar := totalsByCategory[item.category];
        } else {
          CategoryTotalsInsert(expenses[..i], item, totalsByCategory, order);
          order := order + [item.category];
        }
        totalsByCategory := totalsByCategory[item.category := soFar + item.amount];
        i := i + 1;
      }
      assert expenses[..i] == expenses;
      CategoryTotalsCenters(expenses, totalsByCategory, order, totalExpenses);
      var centers := seq(|order|, k requires 0 <= k < |order| =>
        CostCenter(order[k], totalsByCategory[order[k]], Percentage(totalsByCategory[order[k]], totalExpenses)));
      var ranked := SortBy(centers, NegAmount);
      var top := ranked[..Min(3, |ranked|)];
      var risks := DetectRiskSignals(now);
      r := Insights(top, OpportunitiesFor(top), risks, SummaryFor(top));
    }
  }
}
