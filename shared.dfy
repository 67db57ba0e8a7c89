/** The shared record types of the ledger: entry types, provenance tags and
    ledger entries, with and without an identifier. */
module Shared {

  datatype Option<T> = None | Some(value: T)

  /** `value` if present, else `default` (the `??` operator). */
  function OrElse<T>(o: Option<T>, default: T): T {
    match o
    case Some(v) => v
    case None => default
  }

  /** `findIndex`: the first position whose element satisfies `p`. */
  function FirstIndex<T>(s: seq<T>, p: T -> bool): (r: Option<nat>)
    ensures r.Some? ==> r.value < |s| && p(s[r.value]) && forall j :: 0 <= j < r.value ==> !p(s[j])
    ensures r.None? <==> forall j :: 0 <= j < |s| ==> !p(s[j])
  {
    if s == [] then None
    else if p(s[0]) then Some(0)
    else
      assert forall j :: 1 <= j < |s| ==> s[j] == s[1..][j - 1];
      match FirstIndex(s[1..], p)
      case Some(k) => Some(k + 1)
      case None => None
  }

  datatype EntryType = Revenue | Expense | Transfer | Tax | Fee | Royalty

  datatype Provenance = Pdf | Xlsx | Ods | Manual | CreditCard

  /** The sources an import batch may come from (`manual` is not one of them). */
  type ImportSource = p: Provenance | p != Manual witness Pdf

  /** Entry identifiers; the store hands them out from a counter. */
  type Id = nat

  /** Dates are day numbers; amounts are exact decimals. The field called
      `type` in the record is `kind` here. */
  datatype LedgerEntry = LedgerEntry(
    id: Id,
    date: int,
    amount: real,
    description: string,
    category: string,
    bankAccount: string,
    kind: EntryType,
    importedFrom: Option<Provenance>,
    linkedBankEntryId: Option<Id>)

  /** A ledger entry before an identifier is assigned. */
  datatype Draft = Draft(
    date: int,
    amount: real,
    description: string,
    category: string,
    bankAccount: string,
    kind: EntryType,
    importedFrom: Option<Provenance>,
    linkedBankEntryId: Option<Id>)

  /** `{ ...draft, id }` */
  function WithId(d: Draft, id: Id): (e: LedgerEntry)
    ensures e.id == id && DraftOf(e) == d
  {
    LedgerEntry(id, d.date, d.amount, d.description, d.category, d.bankAccount,
                d.kind, d.importedFrom, d.linkedBankEntryId)
  }

  /** Every field of an entry but its identifier. */
  function DraftOf(e: LedgerEntry): Draft {
    Draft(e.date, e.amount, e.description, e.category, e.bankAccount,
          e.kind, e.importedFrom, e.linkedBankEntryId)
  }

  /** The operating-expense types: everything that is neither revenue nor a transfer. */
  const OperatingExpenseTypes: set<EntryType> := {Expense, Tax, Fee, Royalty}

  /** The types a duplicate may have. */
  const MatchableTypes: set<EntryType> := {Expense, Fee, Tax}

  /** The types of the operating cashflow. */
  const CashTypes: set<EntryType> := {Revenue, Expense}

  /** Every type but `Transfer`. */
  const NonTransferTypes: set<EntryType> := {Revenue, Expense, Tax, Fee, Royalty}

  /** `Math.abs` */
  function Abs(x: real): real { if x < 0.0 then -x else x }

  function IdOf(e: LedgerEntry): Id { e.id }
  function DateKey(e: LedgerEntry): real { e.date as real }
  function AccountOf(e: LedgerEntry): string { e.bankAccount }
  function CategoryOf(e: LedgerEntry): string { e.category }

  ghost predicate NonNegativeAmounts(s: seq<LedgerEntry>) {
    forall e :: e in s ==> e.amount >= 0.0
  }
}
