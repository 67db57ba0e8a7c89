/** The read-only reports over the ledger: operating cashflow, cashflow per
    bank account, executive metrics, cost-centre insights and risk signals.
    Each report is a function of the entry sequence; the service computes
    them with loops proved equal to these functions. */
module Analytics {
  import opened Shared
  import opened Sorting

  // ---------------------------------------------------------------------
  // Filters and sums, written from the end so that a loop over a prefix
  // extends them one entry at a time

  /** `filter` by type, in ledger order. */
  function Select(s: seq<LedgerEntry>, types: set<EntryType>): (r: seq<LedgerEntry>)
    ensures |r| <= |s|
  {
    if s == [] then []
    else Select(s[..|s| - 1], types) + (if s[|s| - 1].kind in types then [s[|s| - 1]] else [])
  }

  lemma {:induction false} SelectMembers(s: seq<LedgerEntry>, types: set<EntryType>)
    ensures forall e :: e in Select(s, types) <==> e in s && e.kind in types
  {
    if s != [] {
      var init, last := s[..|s| - 1], s[|s| - 1];
      assert s == init + [last];
      SelectMembers(init, types);
    }
  }

  /** `filter` by a string-valued key, in ledger order. */
  function Having(s: seq<LedgerEntry>, key: LedgerEntry -> string, k: string): seq<LedgerEntry> {
    if s == [] then []
    else Having(s[..|s| - 1], key, k) + (if key(s[|s| - 1]) == k then [s[|s| - 1]] else [])
  }

  /** `reduce((sum, item) => sum + item.amount, 0)` */
  function Sum(s: seq<LedgerEntry>): real {
    if s == [] then 0.0 else Sum(s[..|s| - 1]) + s[|s| - 1].amount
  }

  lemma SelectSnoc(s: seq<LedgerEntry>, e: LedgerEntry, types: set<EntryType>)
    ensures Select(s + [e], types) == Select(s, types) + (if e.kind in types then [e] else [])
  {
    assert (s + [e])[..|s|] == s;
  }

  lemma HavingSnoc(s: seq<LedgerEntry>, e: LedgerEntry, key: LedgerEntry -> string, k: string)
    ensures Having(s + [e], key, k) == Having(s, key, k) + (if key(e) == k then [e] else [])
  {
    assert (s + [e])[..|s|] == s;
  }

  lemma SumSnoc(s: seq<LedgerEntry>, e: LedgerEntry)
    ensures Sum(s + [e]) == Sum(s) + e.amount
  {
    assert (s + [e])[..|s|] == s;
  }

  lemma {:induction false} SumAppend(a: seq<LedgerEntry>, b: seq<LedgerEntry>)
    ensures Sum(a + b) == Sum(a) + Sum(b)
  {
    if b == [] {
      assert a + b == a;
    } else {
      var init, last := b[..|b| - 1], b[|b| - 1];
      SumAppend(a, init);
      assert a + b == (a + init) + [last];
      SumSnoc(a + init, last);
    }
  }

  lemma {:induction false} SumNonNegative(s: seq<LedgerEntry>)
    requires NonNegativeAmounts(s)
    ensures Sum(s) >= 0.0
  {
    if s != [] {
      assert NonNegativeAmounts(s[..|s| - 1]) by {
        forall e | e in s[..|s| - 1] ensures e in s { }
      }
      SumNonNegative(s[..|s| - 1]);
      assert s[|s| - 1] in s;
    }
  }

  /** With non-negative amounts, a wider set of types never totals less. */
  lemma {:induction false} SelectSumMonotone(s: seq<LedgerEntry>, narrow: set<EntryType>, wide: set<EntryType>)
    requires narrow <= wide && NonNegativeAmounts(s)
    ensures Sum(Select(s, narrow)) <= Sum(Select(s, wide))
  {
    if s != [] {
      var init, last := s[..|s| - 1], s[|s| - 1];
      assert s == init + [last];
      assert NonNegativeAmounts(init) by {
        forall e | e in init ensures e in s { }
      }
      SelectSumMonotone(init, narrow, wide);
      SelectSnoc(init, last, narrow);
      SelectSnoc(init, last, wide);
      if last.kind in narrow {
        SumSnoc(Select(init, narrow), last);
        SumSnoc(Select(init, wide), last);
      } else if last.kind in wide {
        assert Select(s, narrow) == Select(init, narrow) ;
        SumSnoc(Select(init, wide), last);
        assert last in s;
      } else {
        assert Select(s, narrow) == Select(init, narrow) ;
        assert Select(s, wide) == Select(init, wide) ;
      }
    }
  }

  /** The total amount of the entries of the given types. */
  function TotalOf(s: seq<LedgerEntry>, types: set<EntryType>): real {
    Sum(Select(s, types))
  }

  lemma TotalOfSnoc(s: seq<LedgerEntry>, e: LedgerEntry, types: set<EntryType>)
    ensures TotalOf(s + [e], types) == TotalOf(s, types) + (if e.kind in types then e.amount else 0.0)
  {
    SelectSnoc(s, e, types);
    if e.kind in types {
      SumSnoc(Select(s, types), e);
    } else {
      assert Select(s + [e], types) == Select(s, types);
    }
  }

  // ---------------------------------------------------------------------
  // Distinct keys in order of first occurrence (the key order of a `Map`
  // filled by `set` while scanning the entries), and sums grouped by key

  function Keys(s: seq<LedgerEntry>, key: LedgerEntry -> string): seq<string> {
    if s == [] then []
    else
      var before := Keys(s[..|s| - 1], key);
      if key(s[|s| - 1]) in before then before else before + [key(s[|s| - 1])]
  }

  /** Each key of an entry is listed, once, and nothing else is. */
  lemma {:induction false} KeysListed(s: seq<LedgerEntry>, key: LedgerEntry -> string)
    ensures forall k :: k in Keys(s, key) <==> exists e :: e in s && key(e) == k
    ensures forall i, j :: 0 <= i < j < |Keys(s, key)| ==> Keys(s, key)[i] != Keys(s, key)[j]
  {
    if s != [] {
      var init, last := s[..|s| - 1], s[|s| - 1];
      assert s == init + [last];
      KeysListed(init, key);
    }
  }

  lemma KeysSnoc(s: seq<LedgerEntry>, e: LedgerEntry, key: LedgerEntry -> string)
    ensures Keys(s + [e], key) == if key(e) in Keys(s, key) then Keys(s, key) else Keys(s, key) + [key(e)]
  {
    assert (s + [e])[..|s|] == s;
  }

  /** Insertion order: scanning more entries only appends keys. */
  lemma {:induction false} KeysPrefix(s: seq<LedgerEntry>, t: seq<LedgerEntry>, key: LedgerEntry -> string)
    ensures Keys(s, key) <= Keys(s + t, key)
  {
    if t == [] {
      assert s + t == s;
    } else {
      var init, last := t[..|t| - 1], t[|t| - 1];
      KeysPrefix(s, init, key);
      assert s + t == (s + init) + [last];
      KeysSnoc(s + init, last, key);
    }
  }

  /** The sum of the amounts of each key's entries, over the keys `ks`. */
  function GroupSum(s: seq<LedgerEntry>, key: LedgerEntry -> string, ks: seq<string>): real {
    if ks == [] then 0.0
    else GroupSum(s, key, ks[..|ks| - 1]) + Sum(Having(s, key, ks[|ks| - 1]))
  }

  lemma {:induction false} GroupSumSnoc(s: seq<LedgerEntry>, e: LedgerEntry, key: LedgerEntry -> string, ks: seq<string>)
    requires forall i, j :: 0 <= i < j < |ks| ==> ks[i] != ks[j]
    ensures GroupSum(s + [e], key, ks) == GroupSum(s, key, ks) + (if key(e) in ks then e.amount else 0.0)
  {
    if ks != [] {
      var init, k := ks[..|ks| - 1], ks[|ks| - 1];
      assert ks == init + [k];
      GroupSumSnoc(s, e, key, init);
      HavingSnoc(s, e, key, k);
      if key(e) == k {
        SumSnoc(Having(s, key, k), e);
        assert key(e) !in init by {
          forall i | 0 <= i < |init| ensures init[i] != k {
            assert ks[i] != ks[|ks| - 1];
          }
        }
      } else {
        assert Having(s + [e], key, k) == Having(s, key, k) ;
      }
    }
  }

  /** Grouping loses and duplicates nothing: when every entry's key is listed
      once, the group sums add up to the total. */
  lemma {:induction false} GroupSumTotal(s: seq<LedgerEntry>, key: LedgerEntry -> string, ks: seq<string>)
    requires forall i, j :: 0 <= i < j < |ks| ==> ks[i] != ks[j]
    requires forall e :: e in s ==> key(e) in ks
    ensures GroupSum(s, key, ks) == Sum(s)
  {
    if s == [] {
      GroupSumEmpty(key, ks);
    } else {
      var init, last := s[..|s| - 1], s[|s| - 1];
      assert s == init + [last];
      assert forall e :: e in init ==> e in s;
      GroupSumTotal(init, key, ks);
      GroupSumSnoc(init, last, key, ks);
      SumSnoc(init, last);
    }
  }

  lemma {:induction false} GroupSumEmpty(key: LedgerEntry -> string, ks: seq<string>)
    ensures GroupSum([], key, ks) == 0.0
  {
    if ks != [] {
      GroupSumEmpty(key, ks[..|ks| - 1]);
    }
  }

  // ---------------------------------------------------------------------
  // getOperatingCashflow

  datatype CashflowLine = CashflowLine(entry: LedgerEntry, signedAmount: real)

  /** Revenue counts positive, everything else negative. */
  function Signed(e: LedgerEntry): real {
    if e.kind == Revenue then e.amount else -e.amount
  }

  function LinesOf(cash: seq<LedgerEntry>): (r: seq<CashflowLine>)
    ensures |r| == |cash|
    ensures forall i :: 0 <= i < |r| ==> r[i] == CashflowLine(cash[i], Signed(cash[i]))
  {
    seq(|cash|, i requires 0 <= i < |cash| => CashflowLine(cash[i], Signed(cash[i])))
  }

  /** The revenue and expense entries, in ledger order, each with its amount
      signed: positive for revenue, negative for expense. */
  function OperatingCashflowOf(s: seq<LedgerEntry>): (r: seq<CashflowLine>)
    ensures |r| == |Select(s, CashTypes)|
    ensures forall i :: 0 <= i < |r| ==> r[i].entry == Select(s, CashTypes)[i]
    ensures forall i :: 0 <= i < |r| ==>
              r[i].signedAmount == if r[i].entry.kind == Revenue then r[i].entry.amount else -r[i].entry.amount
  {
    LinesOf(Select(s, CashTypes))
  }

  function SignedTotal(lines: seq<CashflowLine>): real {
    if lines == [] then 0.0 else SignedTotal(lines[..|lines| - 1]) + lines[|lines| - 1].signedAmount
  }

  lemma LinesSnoc(cash: seq<LedgerEntry>, e: LedgerEntry)
    ensures LinesOf(cash + [e]) == LinesOf(cash) + [CashflowLine(e, Signed(e))]
  {
  }

  lemma SignedTotalSnoc(lines: seq<CashflowLine>, line: CashflowLine)
    ensures SignedTotal(lines + [line]) == SignedTotal(lines) + line.signedAmount
  {
    assert (lines + [line])[..|lines|] == lines;
  }

  /** The operating cashflow nets to revenue minus (plain) expenses; taxes,
      fees, royalties and transfers are not part of it. */
  lemma {:induction false} OperatingCashflowNet(s: seq<LedgerEntry>)
    ensures SignedTotal(OperatingCashflowOf(s)) == TotalOf(s, {Revenue}) - TotalOf(s, {Expense})
  {
    if s != [] {
      var init, last := s[..|s| - 1], s[|s| - 1];
      assert s == init + [last];
      OperatingCashflowNet(init);
      SelectSnoc(init, last, CashTypes);
      TotalOfSnoc(init, last, {Revenue});
      TotalOfSnoc(init, last, {Expense});
      var cash := Select(init, CashTypes);
      if last.kind in CashTypes {
        assert Select(s, CashTypes) == cash + [last];
        LinesSnoc(cash, last);
        SignedTotalSnoc(LinesOf(cash), CashflowLine(last, Signed(last)));
      } else {
        assert Select(s, CashTypes) == cash;
      }
    }
  }

  // ---------------------------------------------------------------------
  // getCashflowByAccount

  datatype AccountFlow = AccountFlow(account: string, totalIn: real, totalOut: real, net: real)

  /** The accounts that have a non-transfer entry, in order of first use. */
  function AccountsOf(s: seq<LedgerEntry>): seq<string> {
    Keys(Select(s, NonTransferTypes), AccountOf)
  }

  /** The total of the account's entries of the given types. */
  function AccountTotal(s: seq<LedgerEntry>, account: string, types: set<EntryType>): real {
    Sum(Having(Select(s, types), AccountOf, account))
  }

  /** One account's report: revenue in, operating expenses out. */
  function FlowOf(s: seq<LedgerEntry>, account: string): (r: AccountFlow)
    ensures r.account == account && r.net == r.totalIn - r.totalOut
  {
    var totalIn := AccountTotal(s, account, {Revenue});
    var totalOut := AccountTotal(s, account, OperatingExpenseTypes);
    AccountFlow(account, totalIn, totalOut, totalIn - totalOut)
  }

  function FlowsOf(s: seq<LedgerEntry>, accounts: seq<string>): (r: seq<AccountFlow>)
    ensures |r| == |accounts|
    ensures forall i :: 0 <= i < |r| ==> r[i] == FlowOf(s, accounts[i])
  {
    if accounts == [] then []
    else FlowsOf(s, accounts[..|accounts| - 1]) + [FlowOf(s, accounts[|accounts| - 1])]
  }

  /** One line per account, in order of first use, each that account's
      report. */
  function CashflowByAccountOf(s: seq<LedgerEntry>): (r: seq<AccountFlow>)
    ensures |r| == |AccountsOf(s)|
    ensures forall i :: 0 <= i < |r| ==> r[i] == FlowOf(s, AccountsOf(s)[i])
  {
    FlowsOf(s, AccountsOf(s))
  }

  /** The accounts listed are those of the non-transfer entries, each once. */
  lemma AccountListed(s: seq<LedgerEntry>, a: string)
    ensures a in AccountsOf(s) <==> exists e :: e in s && e.kind != Transfer && e.bankAccount == a
  {
    var sel := Select(s, NonTransferTypes);
    SelectMembers(s, NonTransferTypes);
    KeysListed(sel, AccountOf);
    if a in AccountsOf(s) {
      var e :| e in sel && AccountOf(e) == a;
      assert e in s && e.kind in NonTransferTypes;
    }
    if exists e :: e in s && e.kind != Transfer && e.bankAccount == a {
      var e :| e in s && e.kind != Transfer && e.bankAccount == a;
      assert e.kind in NonTransferTypes;
      assert e in sel && AccountOf(e) == a;
    }
  }

  lemma AccountsOfListed(s: seq<LedgerEntry>)
    ensures forall a :: a in AccountsOf(s) <==> exists e :: e in s && e.kind != Transfer && e.bankAccount == a
    ensures forall i, j :: 0 <= i < j < |AccountsOf(s)| ==> AccountsOf(s)[i] != AccountsOf(s)[j]
  {
    KeysListed(Select(s, NonTransferTypes), AccountOf);
    forall a {
      AccountListed(s, a);
    }
  }

  function TotalIn(flows: seq<AccountFlow>): real {
    if flows == [] then 0.0 else TotalIn(flows[..|flows| - 1]) + flows[|flows| - 1].totalIn
  }

  function TotalOut(flows: seq<AccountFlow>): real {
    if flows == [] then 0.0 else TotalOut(flows[..|flows| - 1]) + flows[|flows| - 1].totalOut
  }

  lemma {:induction false} FlowsTotals(s: seq<LedgerEntry>, accounts: seq<string>)
    ensures TotalIn(FlowsOf(s, accounts)) == GroupSum(Select(s, {Revenue}), AccountOf, accounts)
    ensures TotalOut(FlowsOf(s, accounts)) == GroupSum(Select(s, OperatingExpenseTypes), AccountOf, accounts)
  {
    if accounts != [] {
      var init := accounts[..|accounts| - 1];
      FlowsTotals(s, init);
      var r := FlowsOf(s, accounts);
      assert r[..|r| - 1] == FlowsOf(s, init);
    }
  }

  /** The account lines split the ledger totals: their ins add up to the
      revenue and their outs to the operating expenses. */
  lemma CashflowByAccountTotals(s: seq<LedgerEntry>)
    ensures TotalIn(CashflowByAccountOf(s)) == TotalOf(s, {Revenue})
    ensures TotalOut(CashflowByAccountOf(s)) == TotalOf(s, OperatingExpenseTypes)
  {
    var ks := AccountsOf(s);
    FlowsTotals(s, ks);
    SelectMembers(s, NonTransferTypes);
    SelectMembers(s, {Revenue});
    SelectMembers(s, OperatingExpenseTypes);
    KeysListed(Select(s, NonTransferTypes), AccountOf);
    forall e | e in Select(s, {Revenue}) ensures AccountOf(e) in ks {
      assert e in Select(s, NonTransferTypes);
    }
    GroupSumTotal(Select(s, {Revenue}), AccountOf, ks);
    forall e | e in Select(s, OperatingExpenseTypes) ensures AccountOf(e) in ks {
      assert e in Select(s, NonTransferTypes);
    }
    GroupSumTotal(Select(s, OperatingExpenseTypes), AccountOf, ks);
  }

  /** Scanning an entry of the account whose type is counted adds its
      amount to the account's total. */
  lemma AccountTotalAdds(s: seq<LedgerEntry>, e: LedgerEntry, account: string, types: set<EntryType>)
    requires e.bankAccount == account && e.kind in types
    ensures AccountTotal(s + [e], account, types) == AccountTotal(s, account, types) + e.amount
  {
    var sel := Select(s, types);
    SelectSnoc(s, e, types);
    HavingSnoc(sel, e, AccountOf, account);
    SumSnoc(Having(sel, AccountOf, account), e);
  }

  /** An entry of another account or of a type not counted adds nothing. */
  lemma AccountTotalKeeps(s: seq<LedgerEntry>, e: LedgerEntry, account: string, types: set<EntryType>)
    requires e.bankAccount != account || e.kind !in types
    ensures AccountTotal(s + [e], account, types) == AccountTotal(s, account, types)
  {
    var sel := Select(s, types);
    SelectSnoc(s, e, types);
    if e.kind in types {
      HavingSnoc(sel, e, AccountOf, account);
      assert Having(sel + [e], AccountOf, account) == Having(sel, AccountOf, account);
    } else {
      assert Select(s + [e], types) == sel;
    }
  }

  /** Scanning one more entry lists its account, unless it is a transfer or
      the account is listed already. */
  lemma AccountsOfSnoc(s: seq<LedgerEntry>, e: LedgerEntry)
    ensures AccountsOf(s + [e]) == if e.kind == Transfer || e.bankAccount in AccountsOf(s) then AccountsOf(s)
                                   else AccountsOf(s) + [e.bankAccount]
  {
    var sel := Select(s, NonTransferTypes);
    SelectSnoc(s, e, NonTransferTypes);
    if e.kind != Transfer {
      assert e.kind in NonTransferTypes;
      assert Select(s + [e], NonTransferTypes) == sel + [e];
      KeysSnoc(sel, e, AccountOf);
    } else {
      assert Select(s + [e], NonTransferTypes) == sel;
    }
  }

  /** An account not listed has no non-transfer entry, so nothing to add up. */
  lemma {:induction false} AccountTotalUnlisted(s: seq<LedgerEntry>, account: string, types: set<EntryType>)
    requires types <= NonTransferTypes && account !in AccountsOf(s)
    ensures AccountTotal(s, account, types) == 0.0
  {
    if s != [] {
      var init, last := s[..|s| - 1], s[|s| - 1];
      assert s == init + [last];
      AccountsOfSnoc(init, last);
      assert account !in AccountsOf(init);
      AccountTotalUnlisted(init, account, types);
      AccountTotalKeeps(init, last, account, types);
    }
  }

  /** Another account's entry, or a transfer, leaves an account's report as
      it was. */
  lemma FlowOfOther(s: seq<LedgerEntry>, e: LedgerEntry, account: string)
    requires e.bankAccount != account || e.kind == Transfer
    ensures FlowOf(s + [e], account) == FlowOf(s, account)
  {
    AccountTotalKeeps(s, e, account, {Revenue});
    AccountTotalKeeps(s, e, account, OperatingExpenseTypes);
  }

  /** The running report after one more entry of its account: revenue adds
      to the money in, every other type to the money out, and the net is
      recomputed. */
  function Credit(flow: AccountFlow, e: LedgerEntry): (r: AccountFlow)
    ensures r.account == flow.account && r.net == r.totalIn - r.totalOut
    ensures r.totalIn + r.totalOut == flow.totalIn + flow.totalOut + e.amount
    ensures e.kind == Revenue ==> r.totalOut == flow.totalOut
    ensures e.kind != Revenue ==> r.totalIn == flow.totalIn
  {
    var bumped := if e.kind == Revenue then flow.(totalIn := flow.totalIn + e.amount)
                  else flow.(totalOut := flow.totalOut + e.amount);
    bumped.(net := bumped.totalIn - bumped.totalOut)
  }

  /** A revenue entry adds to its account's money in. */
  lemma FlowOfOwnRevenue(s: seq<LedgerEntry>, e: LedgerEntry)
    requires e.kind == Revenue
    ensures FlowOf(s + [e], e.bankAccount) == Credit(FlowOf(s, e.bankAccount), e)
  {
    var a := e.bankAccount;
    var totalIn, totalOut := AccountTotal(s, a, {Revenue}), AccountTotal(s, a, OperatingExpenseTypes);
    AccountTotalAdds(s, e, a, {Revenue});
    AccountTotalKeeps(s, e, a, OperatingExpenseTypes);
    assert FlowOf(s + [e], a) == AccountFlow(a, totalIn + e.amount, totalOut, totalIn + e.amount - totalOut);
  }

  /** An operating expense adds to its account's money out. */
  lemma FlowOfOwnExpense(s: seq<LedgerEntry>, e: LedgerEntry)
    requires e.kind in OperatingExpenseTypes
    ensures FlowOf(s + [e], e.bankAccount) == Credit(FlowOf(s, e.bankAccount), e)
  {
    var a := e.bankAccount;
    var totalIn, totalOut := AccountTotal(s, a, {Revenue}), AccountTotal(s, a, OperatingExpenseTypes);
    assert e.kind !in {Revenue};
    AccountTotalKeeps(s, e, a, {Revenue});
    AccountTotalAdds(s, e, a, OperatingExpenseTypes);
    assert FlowOf(s + [e], a) == AccountFlow(a, totalIn, totalOut + e.amount, totalIn - (totalOut + e.amount));
  }

  /** Crediting an account's report with its own next entry gives the report
      over the longer scan. */
  lemma FlowOfOwn(s: seq<LedgerEntry>, e: LedgerEntry)
    requires e.kind != Transfer
    ensures FlowOf(s + [e], e.bankAccount) == Credit(FlowOf(s, e.bankAccount), e)
  {
    if e.kind == Revenue {
      FlowOfOwnRevenue(s, e);
    } else {
      FlowOfOwnExpense(s, e);
    }
  }

  // ---------------------------------------------------------------------
  // getExecutiveMetrics

  datatype ExecutiveMetrics = ExecutiveMetrics(
    revenue: real, totalExpenses: real, taxes: real, contributionMargin: real, netProfit: real)

  /** Margin in percent of revenue; zero when there is no revenue. */
  function ContributionMargin(revenue: real, totalExpenses: real): (r: real)
    ensures revenue == 0.0 ==> r == 0.0
    ensures revenue != 0.0 ==> r * revenue == (revenue - totalExpenses) * 100.0
  {
    if revenue == 0.0 then 0.0 else (revenue - totalExpenses) / revenue * 100.0
  }

  function ExecutiveMetricsOf(s: seq<LedgerEntry>): (r: ExecutiveMetrics)
    ensures r.revenue == TotalOf(s, {Revenue})
    ensures r.totalExpenses == TotalOf(s, OperatingExpenseTypes)
    ensures r.taxes == TotalOf(s, {Tax})
    ensures r.netProfit == r.revenue - r.totalExpenses
    ensures r.contributionMargin == ContributionMargin(r.revenue, r.totalExpenses)
  {
    var revenue := TotalOf(s, {Revenue});
    var totalExpenses := TotalOf(s, OperatingExpenseTypes);
    ExecutiveMetrics(revenue, totalExpenses, TotalOf(s, {Tax}),
                     ContributionMargin(revenue, totalExpenses), revenue - totalExpenses)
  }

  lemma TotalNonNegative(s: seq<LedgerEntry>, types: set<EntryType>)
    requires NonNegativeAmounts(s)
    ensures TotalOf(s, types) >= 0.0
  {
    SelectMembers(s, types);
    SumNonNegative(Select(s, types));
  }

  lemma MarginAtMostHundred(revenue: real, totalExpenses: real)
    requires revenue > 0.0 && totalExpenses >= 0.0
    ensures ContributionMargin(revenue, totalExpenses) <= 100.0
  {
    var m := ContributionMargin(revenue, totalExpenses);
    if m > 100.0 {
      Positive(m - 100.0, revenue);
      assert false;
    }
  }

  /** With non-negative amounts, taxes are part of the operating expenses,
      and the margin never exceeds 100%. */
  lemma ExecutiveMetricsBounds(s: seq<LedgerEntry>)
    requires NonNegativeAmounts(s)
    ensures var m := ExecutiveMetricsOf(s);
      && 0.0 <= m.taxes <= m.totalExpenses
      && m.revenue >= 0.0
      && m.contributionMargin <= 100.0
      && m.netProfit <= m.revenue
  {
    SelectSumMonotone(s, {Tax}, OperatingExpenseTypes);
    TotalNonNegative(s, {Tax});
    TotalNonNegative(s, {Revenue});
    TotalNonNegative(s, OperatingExpenseTypes);
    var revenue, totalExpenses := TotalOf(s, {Revenue}), TotalOf(s, OperatingExpenseTypes);
    if revenue != 0.0 {
      MarginAtMostHundred(revenue, totalExpenses);
    }
  }

  /** The totals of the worked ledger below, per set of types. */
  lemma ExampleTotals(revenue: LedgerEntry, expense: LedgerEntry, tax: LedgerEntry, transfer: LedgerEntry,
                      types: set<EntryType>)
    requires revenue.kind == Revenue && revenue.amount == 1000.0
    requires expense.kind == Expense && expense.amount == 400.0
    requires tax.kind == Tax && tax.amount == 100.0
    requires transfer.kind == Transfer
    requires Transfer !in types
    ensures TotalOf([revenue, expense, tax, transfer], types)
         == (if Revenue in types then 1000.0 else 0.0) + (if Expense in types then 400.0 else 0.0)
          + (if Tax in types then 100.0 else 0.0)
  {
    var r := if Revenue in types then 1000.0 else 0.0;
    var x := if Expense in types then 400.0 else 0.0;
    var t := if Tax in types then 100.0 else 0.0;
    var s1 := [] + [revenue];
    var s2 := s1 + [expense];
    var s3 := s2 + [tax];
    assert s3 + [transfer] == [revenue, expense, tax, transfer];
    assert TotalOf([], types) == 0.0;
    TotalOfSnoc([], revenue, types);
    assert TotalOf(s1, types) == r;
    TotalOfSnoc(s1, expense, types);
    assert TotalOf(s2, types) == r + x;
    TotalOfSnoc(s2, tax, types);
    assert TotalOf(s3, types) == r + x + t;
    TotalOfSnoc(s3, transfer, types);
  }

  /** A worked ledger: revenue 1000, an expense of 400 and a tax of 100 give
      operating expenses of 500, taxes of 100, a 50% margin and a profit of
      500; a transfer counts nowhere. */
  lemma ExecutiveMetricsExample(revenue: LedgerEntry, expense: LedgerEntry, tax: LedgerEntry, transfer: LedgerEntry)
    requires revenue.kind == Revenue && revenue.amount == 1000.0
    requires expense.kind == Expense && expense.amount == 400.0
    requires tax.kind == Tax && tax.amount == 100.0
    requires transfer.kind == Transfer
    ensures ExecutiveMetricsOf([revenue, expense, tax, transfer]) == ExecutiveMetrics(1000.0, 500.0, 100.0, 50.0, 500.0)
  {
    ExampleTotals(revenue, expense, tax, transfer, {Revenue});
    ExampleTotals(revenue, expense, tax, transfer, OperatingExpenseTypes);
    ExampleTotals(revenue, expense, tax, transfer, {Tax});
    assert ContributionMargin(1000.0, 500.0) == 50.0;
  }

  // ---------------------------------------------------------------------
  // getAiInsights

  datatype CostCenter = CostCenter(category: string, amount: real, percentage: real)

  /** Share of the total in percent; zero when the total is zero. */
  function Percentage(amount: real, total: real): (r: real)
    ensures total == 0.0 ==> r == 0.0
    ensures total != 0.0 ==> r * total == amount * 100.0
  {
    if total == 0.0 then 0.0
    else
      assert amount / total * total == amount;
      amount / total * 100.0
  }

  lemma PercentageAdd(a: real, b: real, total: real)
    ensures Percentage(a, total) + Percentage(b, total) == Percentage(a + b, total)
  {
    if total != 0.0 {
      assert a / total + b / total == (a + b) / total;
    }
  }

  lemma PercentageWhole(total: real)
    requires total != 0.0
    ensures Percentage(total, total) == 100.0
  {
  }

  function CategoryTotal(expenses: seq<LedgerEntry>, category: string): real {
    Sum(Having(expenses, CategoryOf, category))
  }

  /** A category no expense uses totals zero. */
  lemma {:induction false} CategoryTotalUnlisted(expenses: seq<LedgerEntry>, category: string)
    requires category !in Keys(expenses, CategoryOf)
    ensures CategoryTotal(expenses, category) == 0.0
  {
    if expenses != [] {
      var init, last := expenses[..|expenses| - 1], expenses[|expenses| - 1];
      assert expenses == init + [last];
      KeysSnoc(init, last, CategoryOf);
      assert last.category != category && category !in Keys(init, CategoryOf);
      CategoryTotalUnlisted(init, category);
      HavingSnoc(init, last, CategoryOf, category);
      assert Having(expenses, CategoryOf, category) == Having(init, CategoryOf, category);
    }
  }

  /** Scanning one more expense adds its amount to its own category only. */
  lemma CategoryTotalSnoc(expenses: seq<LedgerEntry>, e: LedgerEntry, category: string)
    ensures CategoryTotal(expenses + [e], category)
         == CategoryTotal(expenses, category) + if e.category == category then e.amount else 0.0
  {
    HavingSnoc(expenses, e, CategoryOf, category);
    if e.category == category {
      SumSnoc(Having(expenses, CategoryOf, category), e);
    } else {
      assert Having(expenses + [e], CategoryOf, category) == Having(expenses, CategoryOf, category);
    }
  }

  function CentersOf(expenses: seq<LedgerEntry>, total: real, categories: seq<string>): (r: seq<CostCenter>)
    ensures |r| == |categories|
    ensures forall i :: 0 <= i < |r| ==> r[i].category == categories[i]
    ensures forall i :: 0 <= i < |r| ==> r[i].amount == CategoryTotal(expenses, categories[i])
    ensures forall i :: 0 <= i < |r| ==> r[i].percentage == Percentage(r[i].amount, total)
  {
    if categories == [] then []
    else
      var init, last := categories[..|categories| - 1], categories[|categories| - 1];
      var amount := CategoryTotal(expenses, last);
      CentersOf(expenses, total, init) + [CostCenter(last, amount, Percentage(amount, total))]
  }

  /** The operating expenses. */
  function ExpensesOf(s: seq<LedgerEntry>): seq<LedgerEntry> {
    Select(s, OperatingExpenseTypes)
  }

  /** One cost centre per category of an operating expense, in order of
      first use, with the category's total and its share of all operating
      expenses. */
  function CostCentersOf(s: seq<LedgerEntry>): (r: seq<CostCenter>)
    ensures |r| == |Keys(ExpensesOf(s), CategoryOf)|
    ensures forall i :: 0 <= i < |r| ==> r[i].category == Keys(ExpensesOf(s), CategoryOf)[i]
    ensures forall i :: 0 <= i < |r| ==> r[i].amount == CategoryTotal(ExpensesOf(s), r[i].category)
  {
    var expenses := ExpensesOf(s);
    CentersOf(expenses, Sum(expenses), Keys(expenses, CategoryOf))
  }

  function NegAmount(c: CostCenter): real { -c.amount }

  /** `sort((a, b) => b.amount - a.amount)`: largest amount first, ties in
      their original order. */
  function RankedCostCenters(s: seq<LedgerEntry>): (r: seq<CostCenter>)
    ensures multiset(r) == multiset(CostCentersOf(s))
    ensures forall i, j :: 0 <= i < j < |r| ==> r[i].amount >= r[j].amount
  {
    SortBySorted(CostCentersOf(s), NegAmount);
    SortBy(CostCentersOf(s), NegAmount)
  }

  function Min(a: nat, b: nat): nat { if a <= b then a else b }

  /** `slice(0, 3)` of the centres ranked by decreasing amount. */
  function TopOf(centers: seq<CostCenter>): (r: seq<CostCenter>)
    ensures |r| == Min(3, |centers|)
    ensures r == SortBy(centers, NegAmount)[..|r|]
  {
    var ranked := SortBy(centers, NegAmount);
    ranked[..Min(3, |ranked|)]
  }

  function TopCostCentersOf(s: seq<LedgerEntry>): (r: seq<CostCenter>)
    ensures |r| == Min(3, |Keys(ExpensesOf(s), CategoryOf)|)
    ensures r == RankedCostCenters(s)[..|r|]
  {
    TopOf(CostCentersOf(s))
  }

  datatype Opportunity =
    | ReviewContracts(category: string, percentage: real)
    | MonitorSpending(category: string, amount: real)

  /** A centre above a quarter of the expenses calls for a contract review. */
  function OpportunityFor(c: CostCenter): (r: Opportunity)
    ensures r.category == c.category
    ensures r.ReviewContracts? <==> c.percentage > 25.0
  {
    if c.percentage > 25.0 then ReviewContracts(c.category, c.percentage)
    else MonitorSpending(c.category, c.amount)
  }

  datatype RiskSignal = NoRecentRevenue | ExpensesExceedRevenue | MarginAtRisk | RiskControlled

  datatype Summary = InsufficientData | CurrentTopCostCenters(categories: seq<string>)

  datatype Insights = Insights(
    topCostCenters: seq<CostCenter>, opportunities: seq<Opportunity>,
    risks: seq<RiskSignal>, summary: Summary)

  function OpportunitiesFor(top: seq<CostCenter>): (r: seq<Opportunity>)
    ensures |r| == |top| && forall i :: 0 <= i < |r| ==> r[i] == OpportunityFor(top[i])
  {
    seq(|top|, i requires 0 <= i < |top| => OpportunityFor(top[i]))
  }

  function SummaryFor(top: seq<CostCenter>): (r: Summary)
    ensures r == InsufficientData <==> top == []
    ensures r.CurrentTopCostCenters? ==>
              |r.categories| == |top| && forall i :: 0 <= i < |top| ==> r.categories[i] == top[i].category
  {
    if top == [] then InsufficientData
    else CurrentTopCostCenters(seq(|top|, i requires 0 <= i < |top| => top[i].category))
  }

  /** The insights report, the risk signals computed for the day `now`. */
  function AiInsightsOf(s: seq<LedgerEntry>, now: int): (r: Insights)
    ensures |r.topCostCenters| <= 3
    ensures |r.opportunities| == |r.topCostCenters|
    ensures forall i :: 0 <= i < |r.opportunities| ==> r.opportunities[i] == OpportunityFor(r.topCostCenters[i])
    ensures r.summary == InsufficientData <==> ExpensesOf(s) == []
    ensures |r.risks| == 1
  {
    var top := TopCostCentersOf(s);
    assert ExpensesOf(s) != [] ==> top != [] by {
      if ExpensesOf(s) != [] {
        KeysListed(ExpensesOf(s), CategoryOf);
        assert ExpensesOf(s)[0] in ExpensesOf(s);
        assert CategoryOf(ExpensesOf(s)[0]) in Keys(ExpensesOf(s), CategoryOf);
      }
    }
    Insights(top, OpportunitiesFor(top), RiskSignalsOf(s, now), SummaryFor(top))
  }

  /** The top centres are in decreasing amount order, and no centre left
      out is larger than one kept. */
  lemma TopOfLargest(centers: seq<CostCenter>)
    ensures var top := TopOf(centers);
      && (forall i, j :: 0 <= i < j < |top| ==> top[i].amount >= top[j].amount)
      && (forall c, i :: c in centers && c !in top && 0 <= i < |top| ==> c.amount <= top[i].amount)
  {
    var ranked := SortBy(centers, NegAmount);
    SortBySorted(centers, NegAmount);
    SortByMembers(centers, NegAmount);
    var top := TopOf(centers);
    forall i, j | 0 <= i < j < |top| ensures top[i].amount >= top[j].amount {
      assert NegAmount(ranked[i]) <= NegAmount(ranked[j]);
    }
    forall c, i | c in centers && c !in top && 0 <= i < |top| ensures c.amount <= top[i].amount {
      var j :| 0 <= j < |ranked| && ranked[j] == c;
      assert NegAmount(ranked[i]) <= NegAmount(ranked[j]);
    }
  }

  lemma TopCostCentersLargest(s: seq<LedgerEntry>)
    ensures var top := TopCostCentersOf(s);
      && (forall i, j :: 0 <= i < j < |top| ==> top[i].amount >= top[j].amount)
      && (forall c, i :: c in CostCentersOf(s) && c !in top && 0 <= i < |top| ==> c.amount <= top[i].amount)
  {
    TopOfLargest(CostCentersOf(s));
  }

  /** Every top centre is one of the cost centres. */
  lemma TopCostCentersAreCenters(s: seq<LedgerEntry>)
    ensures forall c :: c in TopCostCentersOf(s) ==> c in CostCentersOf(s)
  {
    SortByMembers(CostCentersOf(s), NegAmount);
  }

  /** Each cost centre is a distinct category of an operating expense, and
      every such category has one. */
  lemma CostCentersCategories(s: seq<LedgerEntry>)
    ensures var centers := CostCentersOf(s);
      && (forall i, j :: 0 <= i < j < |centers| ==> centers[i].category != centers[j].category)
      && (set i | 0 <= i < |centers| :: centers[i].category)
         == (set e | e in s && e.kind in OperatingExpenseTypes :: e.category)
  {
    var centers, ks := CostCentersOf(s), Keys(ExpensesOf(s), CategoryOf);
    SelectMembers(s, OperatingExpenseTypes);
    KeysListed(ExpensesOf(s), CategoryOf);
    var listed := set i | 0 <= i < |centers| :: centers[i].category;
    var used := set e | e in s && e.kind in OperatingExpenseTypes :: e.category;
    forall c | c in used ensures c in listed {
      var e :| e in s && e.kind in OperatingExpenseTypes && e.category == c;
      assert e in ExpensesOf(s) && CategoryOf(e) == c;
      assert c in ks;
      var i :| 0 <= i < |ks| && ks[i] == c;
      assert centers[i].category == c;
    }
    forall c | c in listed ensures c in used {
      var i :| 0 <= i < |centers| && centers[i].category == c;
      assert ks[i] in ks;
      var e :| e in ExpensesOf(s) && CategoryOf(e) == ks[i];
      assert e in s && e.kind in OperatingExpenseTypes && e.category == c;
    }
  }

  function CenterAmounts(centers: seq<CostCenter>): real {
    if centers == [] then 0.0 else CenterAmounts(centers[..|centers| - 1]) + centers[|centers| - 1].amount
  }

  function CenterPercentages(centers: seq<CostCenter>): real {
    if centers == [] then 0.0 else CenterPercentages(centers[..|centers| - 1]) + centers[|centers| - 1].percentage
  }

  lemma CenterSumsSnoc(centers: seq<CostCenter>, c: CostCenter)
    ensures CenterAmounts(centers + [c]) == CenterAmounts(centers) + c.amount
    ensures CenterPercentages(centers + [c]) == CenterPercentages(centers) + c.percentage
  {
    assert (centers + [c])[..|centers|] == centers;
  }

  lemma {:induction false} CentersSums(expenses: seq<LedgerEntry>, total: real, categories: seq<string>)
    ensures CenterPercentages(CentersOf(expenses, total, categories))
         == Percentage(GroupSum(expenses, CategoryOf, categories), total)
  {
    if categories == [] {
      assert Percentage(0.0, total) == 0.0;
    } else {
      var init, last := categories[..|categories| - 1], categories[|categories| - 1];
      CentersSums(expenses, total, init);
      var prefix, a := CentersOf(expenses, total, init), CategoryTotal(expenses, last);
      var c := CostCenter(last, a, Percentage(a, total));
      assert CentersOf(expenses, total, categories) == prefix + [c];
      CenterSumsSnoc(prefix, c);
      PercentageAdd(GroupSum(expenses, CategoryOf, init), a, total);
    }
  }

  lemma {:induction false} CentersAmounts(expenses: seq<LedgerEntry>, total: real, categories: seq<string>)
    ensures CenterAmounts(CentersOf(expenses, total, categories)) == GroupSum(expenses, CategoryOf, categories)
  {
    if categories != [] {
      var init, last := categories[..|categories| - 1], categories[|categories| - 1];
      CentersAmounts(expenses, total, init);
      var prefix, a := CentersOf(expenses, total, init), CategoryTotal(expenses, last);
      var c := CostCenter(last, a, Percentage(a, total));
      assert CentersOf(expenses, total, categories) == prefix + [c];
      CenterSumsSnoc(prefix, c);
    }
  }

  /** The cost centres split the operating expenses: their amounts add up to
      the total, and, when the total is not zero, their shares to 100%. */
  lemma CostCentersPartition(s: seq<LedgerEntry>)
    ensures CenterAmounts(CostCentersOf(s)) == TotalOf(s, OperatingExpenseTypes)
    ensures TotalOf(s, OperatingExpenseTypes) != 0.0 ==> CenterPercentages(CostCentersOf(s)) == 100.0
  {
    var expenses := ExpensesOf(s);
    var total, ks := Sum(expenses), Keys(expenses, CategoryOf);
    KeysListed(expenses, CategoryOf);
    forall e | e in expenses ensures CategoryOf(e) in ks {
      assert exists x :: x in expenses && CategoryOf(x) == CategoryOf(e);
    }
    GroupSumTotal(expenses, CategoryOf, ks);
    CentersAmounts(expenses, total, ks);
    CentersSums(expenses, total, ks);
    if total != 0.0 {
      PercentageWhole(total);
    }
  }

  // ---------------------------------------------------------------------
  // detectRiskSignals

  /** The entries dated within the 60 days before `now`: strictly after the
      day `now - 60`. */
  function Recent(s: seq<LedgerEntry>, now: int): (r: seq<LedgerEntry>)
    ensures |r| <= |s|
    ensures forall e :: e in r ==> e in s && e.date > now - 60
  {
    if s == [] then []
    else Recent(s[..|s| - 1], now) + (if s[|s| - 1].date > now - 60 then [s[|s| - 1]] else [])
  }

  lemma {:induction false} RecentMembers(s: seq<LedgerEntry>, now: int)
    ensures forall e :: e in Recent(s, now) <==> e in s && e.date > now - 60
  {
    if s != [] {
      var init, last := s[..|s| - 1], s[|s| - 1];
      assert s == init + [last];
      RecentMembers(init, now);
    }
  }

  /** The rules in order: no revenue against positive expenses, expenses
      above revenue, expenses above 85% of revenue, else controlled. */
  function RiskOf(revenue: real, expenses: real): (r: RiskSignal)
    ensures r == NoRecentRevenue <==> revenue == 0.0 && expenses > 0.0
    ensures r == RiskControlled ==> expenses <= revenue
    ensures r == RiskControlled && revenue > 0.0 ==> expenses <= 0.85 * revenue
  {
    if revenue == 0.0 && expenses > 0.0 then NoRecentRevenue
    else if expenses > revenue then ExpensesExceedRevenue
    else if revenue > 0.0 && expenses / revenue > 0.85 then MarginAtRisk
    else if revenue > 0.0 then
      RatioAbove(expenses, revenue, 0.85);
      RiskControlled
    else RiskControlled
  }

  function RiskSignalsOf(s: seq<LedgerEntry>, now: int): (r: seq<RiskSignal>)
    ensures |r| == 1
  {
    var recent := Recent(s, now);
    [RiskOf(TotalOf(recent, {Revenue}), TotalOf(recent, OperatingExpenseTypes))]
  }

  /** For non-negative revenue the four signals partition the cases by the
      expense ratio: risk is controlled exactly when expenses are at most
      85% of revenue. */
  lemma RiskOfCases(revenue: real, expenses: real)
    requires revenue >= 0.0
    ensures RiskOf(revenue, expenses) == NoRecentRevenue <==> revenue == 0.0 && expenses > 0.0
    ensures RiskOf(revenue, expenses) == ExpensesExceedRevenue <==> revenue > 0.0 && expenses > revenue
    ensures RiskOf(revenue, expenses) == MarginAtRisk <==> 0.85 * revenue < expenses <= revenue
    ensures RiskOf(revenue, expenses) == RiskControlled <==> expenses <= 0.85 * revenue
  {
    if revenue > 0.0 {
      RatioAbove(expenses, revenue, 0.85);
    }
  }

  /** `x / y > c` read without division, for positive `y`. */
  lemma RatioAbove(x: real, y: real, c: real)
    requires y > 0.0
    ensures x / y > c <==> x > c * y
  {
    var q := x / y;
    assert q * y == x;
    if q > c {
      Positive(q - c, y);
      assert (q - c) * y == x - c * y;
    } else {
      Positive(c - q, y);
      assert (c - q) * y == c * y - x;
    }
  }

  lemma Positive(a: real, b: real)
    requires a >= 0.0 && b > 0.0
    ensures a * b >= 0.0 && (a > 0.0 ==> a * b > 0.0)
  {
  }

  /** Entries from before the window do not change the risk signals. */
  lemma RiskSignalsIgnoreOldEntries(s: seq<LedgerEntry>, e: LedgerEntry, now: int)
    requires e.date <= now - 60
    ensures RiskSignalsOf(s + [e], now) == RiskSignalsOf(s, now)
  {
    assert (s + [e])[..|s|] == s;
    assert Recent(s + [e], now) == Recent(s, now) ;
  }

  /** Transfers change none of the reports but the list of entries: a
      transfer is neither revenue nor an operating expense. */
  lemma TransfersDoNotCount(s: seq<LedgerEntry>, e: LedgerEntry, now: int)
    requires e.kind == Transfer
    ensures ExecutiveMetricsOf(s + [e]) == ExecutiveMetricsOf(s)
    ensures CashflowByAccountOf(s + [e]) == CashflowByAccountOf(s)
    ensures CostCentersOf(s + [e]) == CostCentersOf(s)
    ensures RiskSignalsOf(s + [e], now) == RiskSignalsOf(s, now)
  {
    assert (s + [e])[..|s|] == s;
    assert ExecutiveMetricsOf(s + [e]) == ExecutiveMetricsOf(s) by {
      TransferSkipped(s, e, {Revenue});
      TransferSkipped(s, e, {Tax});
      TransferSkipped(s, e, OperatingExpenseTypes);
    }
    assert CashflowByAccountOf(s + [e]) == CashflowByAccountOf(s) by {
      TransferSkipped(s, e, NonTransferTypes);
      TransferSkipped(s, e, {Revenue});
      TransferSkipped(s, e, OperatingExpenseTypes);
    }
    assert CostCentersOf(s + [e]) == CostCentersOf(s) by {
      TransferSkipped(s, e, OperatingExpenseTypes);
    }
    assert RiskSignalsOf(s + [e], now) == RiskSignalsOf(s, now) by {
      var recent := Recent(s, now);
      if e.date > now - 60 {
        assert Recent(s + [e], now) == recent + [e];
        TransferSkipped(recent, e, {Revenue});
        TransferSkipped(recent, e, OperatingExpenseTypes);
      } else {
        assert Recent(s + [e], now) == recent;
      }
    }
  }

  /** Filtering by types that leave transfers out skips a transfer. */
  lemma TransferSkipped(s: seq<LedgerEntry>, e: LedgerEntry, types: set<EntryType>)
    requires e.kind == Transfer && Transfer !in types
    ensures Select(s + [e], types) == Select(s, types)
  {
    SelectSnoc(s, e, types);
  }

}
