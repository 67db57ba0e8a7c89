/** The pure rules behind the ledger store's mutators: id lookup, partial
    update, delete-by-id and batch import. */
module Store {
  import opened Shared
  import opened Sorting

  /** `findIndex`: the first position holding the id. */
  function FindIndex(entries: seq<LedgerEntry>, id: Id): (r: Option<nat>)
    ensures r.Some? ==> r.value < |entries| && entries[r.value].id == id
                        && forall j :: 0 <= j < r.value ==> entries[j].id != id
    ensures r.None? <==> forall j :: 0 <= j < |entries| ==> entries[j].id != id
  {
    FirstIndex(entries, (e: LedgerEntry) => e.id == id)
  }

  /** A partial update: present fields replace, absent fields are kept. The
      identifier is not among them. */
  datatype Changes = Changes(
    date: Option<int>,
    amount: Option<real>,
    description: Option<string>,
    category: Option<string>,
    bankAccount: Option<string>,
    kind: Option<EntryType>,
    importedFrom: Option<Provenance>,
    linkedBankEntryId: Option<Id>)

  const NoChanges := Changes(None, None, None, None, None, None, None, None)

  /** `{ ...entry, ...changes }` */
  function Merge(e: LedgerEntry, c: Changes): (r: LedgerEntry)
    ensures r.id == e.id
  {
    LedgerEntry(
      e.id,
      OrElse(c.date, e.date),
      OrElse(c.amount, e.amount),
      OrElse(c.description, e.description),
      OrElse(c.category, e.category),
      OrElse(c.bankAccount, e.bankAccount),
      OrElse(c.kind, e.kind),
      if c.importedFrom.Some? then c.importedFrom else e.importedFrom,
      if c.linkedBankEntryId.Some? then c.linkedBankEntryId else e.linkedBankEntryId)
  }

  function Override<T>(first: Option<T>, second: Option<T>): Option<T> {
    if second.Some? then second else first
  }

  /** `{ ...first, ...second }` on two partial updates. */
  function Combine(first: Changes, second: Changes): Changes {
    Changes(
      Override(first.date, second.date),
      Override(first.amount, second.amount),
      Override(first.description, second.description),
      Override(first.category, second.category),
      Override(first.bankAccount, second.bankAccount),
      Override(first.kind, second.kind),
      Override(first.importedFrom, second.importedFrom),
      Override(first.linkedBankEntryId, second.linkedBankEntryId))
  }

  /** An update without fields leaves the entry as it was. */
  lemma MergeNoChanges(e: LedgerEntry)
    ensures Merge(e, NoChanges) == e
  {
  }

  /** Two updates in a row are one update with the later fields winning, so
      repeating an update changes nothing more. */
  lemma MergeCombine(e: LedgerEntry, first: Changes, second: Changes)
    ensures Merge(Merge(e, first), second) == Merge(e, Combine(first, second))
    ensures Merge(Merge(e, first), first) == Merge(e, first)
  {
  }

  /** Fields the update does not mention keep their values; mentioned ones
      take the new value. */
  lemma MergeFields(e: LedgerEntry, c: Changes)
    ensures (c.description.None? ==> Merge(e, c).description == e.description)
         && (c.description.Some? ==> Merge(e, c).description == c.description.value)
    ensures (c.category.None? ==> Merge(e, c).category == e.category)
         && (c.category.Some? ==> Merge(e, c).category == c.category.value)
    ensures (c.amount.None? ==> Merge(e, c).amount == e.amount)
         && (c.amount.Some? ==> Merge(e, c).amount == c.amount.value)
    ensures (c.date.None? ==> Merge(e, c).date == e.date)
         && (c.date.Some? ==> Merge(e, c).date == c.date.value)
    ensures (c.bankAccount.None? ==> Merge(e, c).bankAccount == e.bankAccount)
         && (c.bankAccount.Some? ==> Merge(e, c).bankAccount == c.bankAccount.value)
    ensures (c.kind.None? ==> Merge(e, c).kind == e.kind)
         && (c.kind.Some? ==> Merge(e, c).kind == c.kind.value)
    ensures (c.importedFrom.None? ==> Merge(e, c).importedFrom == e.importedFrom)
         && (c.importedFrom.Some? ==> Merge(e, c).importedFrom == c.importedFrom)
    ensures (c.linkedBankEntryId.None? ==> Merge(e, c).linkedBankEntryId == e.linkedBankEntryId)
         && (c.linkedBankEntryId.Some? ==> Merge(e, c).linkedBankEntryId == c.linkedBankEntryId)
  {
  }

  /** `filter(entry => entry.id !== id)` */
  function Without(entries: seq<LedgerEntry>, id: Id): (r: seq<LedgerEntry>)
    ensures |r| <= |entries|
  {
    if entries == [] then []
    else Without(entries[..|entries| - 1], id) + if entries[|entries| - 1].id == id then [] else [entries[|entries| - 1]]
  }

  /** No entry of `entries` holds the id. */
  predicate Absent(entries: seq<LedgerEntry>, id: Id) {
    forall j :: 0 <= j < |entries| ==> entries[j].id != id
  }

  /** Deleting an id nobody holds changes nothing. */
  lemma {:induction false} WithoutAbsent(entries: seq<LedgerEntry>, id: Id)
    requires Absent(entries, id)
    ensures Without(entries, id) == entries
  {
    if entries != [] {
      var init := entries[..|entries| - 1];
      assert Absent(init, id) by {
        forall j | 0 <= j < |init| ensures init[j].id != id {
          assert init[j] == entries[j];
        }
      }
      WithoutAbsent(init, id);
      assert entries == init + [entries[|entries| - 1]];
    }
  }

  /** Something is removed exactly when some entry holds the id, and
      afterwards none does. */
  lemma {:induction false} WithoutRemoves(entries: seq<LedgerEntry>, id: Id)
    ensures |Without(entries, id)| == |entries| <==> Absent(entries, id)
    ensures Absent(Without(entries, id), id)
  {
    if entries != [] {
      var init, last := entries[..|entries| - 1], entries[|entries| - 1];
      WithoutRemoves(init, id);
      assert forall j :: 0 <= j < |init| ==> init[j] == entries[j];
      if Absent(init, id) && last.id != id {
        assert Absent(entries, id);
      }
    }
  }

  /** Deleting distributes over concatenation. */
  lemma {:induction false} WithoutConcat(a: seq<LedgerEntry>, b: seq<LedgerEntry>, id: Id)
    ensures Without(a + b, id) == Without(a, id) + Without(b, id)
    decreases |b|
  {
    if b == [] {
      assert a + b == a;
    } else {
      var b', y := b[..|b| - 1], b[|b| - 1];
      assert (a + b)[..|a + b| - 1] == a + b';
      WithoutConcat(a, b', id);
      var tail := if y.id == id then [] else [y];
      assert Without(a + b, id) == (Without(a, id) + Without(b', id)) + tail;
      assert Without(b, id) == Without(b', id) + tail;
    }
  }

  /** With unique ids, deleting removes exactly the one entry holding the id
      and keeps the others in order. */
  lemma WithoutUnique(entries: seq<LedgerEntry>, id: Id, k: nat)
    requires DistinctBy(entries, IdOf)
    requires k < |entries| && entries[k].id == id
    ensures Without(entries, id) == entries[..k] + entries[k + 1..]
  {
    var before, after := entries[..k], entries[k + 1..];
    assert entries == (before + [entries[k]]) + after;
    assert Absent(before, id) by {
      forall j | 0 <= j < |before| ensures before[j].id != id {
        assert IdOf(entries[j]) != IdOf(entries[k]);
      }
    }
    assert Absent(after, id) by {
      forall j | 0 <= j < |after| ensures after[j].id != id {
        assert IdOf(entries[k]) != IdOf(entries[k + 1 + j]);
      }
    }
    var mid := [entries[k]];
    assert Without(mid, id) == [] by {
      assert mid[..0] == [];
    }
    calc {
      Without(entries, id);
      Without((before + mid) + after, id);
      { WithoutConcat(before + mid, after, id); }
      Without(before + mid, id) + Without(after, id);
      { WithoutConcat(before, mid, id); }
      (Without(before, id) + Without(mid, id)) + Without(after, id);
      { WithoutAbsent(before, id); WithoutAbsent(after, id); }
      (before + []) + after;
      { assert before + [] == before; }
      before + after;
    }
  }

  /** Deleting twice: the second delete finds nothing. */
  lemma WithoutIdempotent(entries: seq<LedgerEntry>, id: Id)
    ensures Without(Without(entries, id), id) == Without(entries, id)
  {
    WithoutRemoves(entries, id);
    WithoutAbsent(Without(entries, id), id);
  }

  /** Identifiers are unique and all below the next one to hand out. */
  ghost predicate FreshIds(entries: seq<LedgerEntry>, nextId: Id) {
    && DistinctBy(entries, IdOf)
    && forall j :: 0 <= j < |entries| ==> entries[j].id < nextId
  }

  /** Appending an entry with the next id keeps identifiers unique. */
  lemma AppendFresh(entries: seq<LedgerEntry>, nextId: Id, e: LedgerEntry)
    requires FreshIds(entries, nextId) && e.id == nextId
    ensures FreshIds(entries + [e], nextId + 1)
  {
    var r := entries + [e];
    forall i, j | 0 <= i < j < |r| ensures IdOf(r[i]) != IdOf(r[j]) {
      if j == |entries| {
        assert r[i] == entries[i];
      } else {
        assert r[i] == entries[i] && r[j] == entries[j];
        assert IdOf(entries[i]) != IdOf(entries[j]);
      }
    }
  }

  /** A reordering with distinct ids of stored entries keeps identifiers
      fresh. */
  lemma FreshReordered(entries: seq<LedgerEntry>, nextId: Id, r: seq<LedgerEntry>)
    requires FreshIds(entries, nextId) && DistinctBy(r, IdOf)
    requires forall x :: x in r ==> x in entries
    ensures FreshIds(r, nextId)
  {
    forall j | 0 <= j < |r| ensures r[j].id < nextId {
      assert r[j] in entries;
      var k :| 0 <= k < |entries| && entries[k] == r[j];
    }
  }

  /** Replacing an entry by one with the same id keeps identifiers unique. */
  lemma ReplaceFresh(entries: seq<LedgerEntry>, nextId: Id, k: nat, e: LedgerEntry)
    requires FreshIds(entries, nextId) && k < |entries| && e.id == entries[k].id
    ensures FreshIds(entries[k := e], nextId)
  {
    var r := entries[k := e];
    forall i, j | 0 <= i < j < |r| ensures IdOf(r[i]) != IdOf(r[j]) {
      assert IdOf(r[i]) == IdOf(entries[i]) && IdOf(r[j]) == IdOf(entries[j]);
    }
    forall j | 0 <= j < |r| ensures r[j].id < nextId {
      assert r[j].id == entries[j].id;
    }
  }

  /** Deleting keeps identifiers unique. */
  lemma {:induction false} WithoutFresh(entries: seq<LedgerEntry>, nextId: Id, id: Id)
    requires FreshIds(entries, nextId)
    ensures FreshIds(Without(entries, id), nextId)
  {
    if entries != [] {
      var init, last := entries[..|entries| - 1], entries[|entries| - 1];
      assert forall j :: 0 <= j < |init| ==> init[j] == entries[j];
      assert FreshIds(init, nextId) by {
        forall i, j | 0 <= i < j < |init| ensures IdOf(init[i]) != IdOf(init[j]) {
          assert IdOf(entries[i]) != IdOf(entries[j]);
        }
      }
      WithoutFresh(init, nextId, id);
      var w := Without(init, id);
      if last.id != id {
        WithoutMembers(init, id);
        forall j | 0 <= j < |w| ensures w[j].id != last.id {
          assert w[j] in init;
          var k :| 0 <= k < |init| && init[k] == w[j];
          assert IdOf(entries[k]) != IdOf(entries[|entries| - 1]);
        }
        var r := w + [last];
        assert r == Without(entries, id);
        forall i, j | 0 <= i < j < |r| ensures IdOf(r[i]) != IdOf(r[j]) {
          if j == |w| {
            assert r[i] == w[i];
          } else {
            assert r[i] == w[i] && r[j] == w[j];
            assert IdOf(w[i]) != IdOf(w[j]);
          }
        }
      }
    }
  }

  /** Every entry left after deleting was there before. */
  lemma {:induction false} WithoutMembers(entries: seq<LedgerEntry>, id: Id)
    ensures forall e :: e in Without(entries, id) ==> e in entries
  {
    if entries != [] {
      var init := entries[..|entries| - 1];
      WithoutMembers(init, id);
      assert forall e :: e in init ==> e in entries;
    }
  }

  /** The category advisor an import consults: the category for a
      description, given the draft's own as fallback. */
  type Suggester = (string, string) -> string

  /** The duplicate search a credit-card import consults: the stored entry a
      draft duplicates, if any. */
  type Finder = (seq<LedgerEntry>, Draft) -> Option<LedgerEntry>

  /** The state an import batch works on and produces. */
  datatype ImportState = ImportState(entries: seq<LedgerEntry>, nextId: Id, imported: seq<LedgerEntry>)

  /** `duplicate?.id` */
  function LinkTo(duplicate: Option<LedgerEntry>): (r: Option<Id>)
    ensures r.Some? <==> duplicate.Some?
    ensures duplicate.Some? ==> r.value == duplicate.value.id
  {
    match duplicate
    case Some(e) => Some(e.id)
    case None => None
  }

  /** The entry built from a draft at import: a fresh id, the source as
      provenance and the suggested category; credit-card imports also set the
      link to the duplicate found, or clear it. */
  function Enrich(suggest: Suggester, source: ImportSource, d: Draft, id: Id,
                  duplicate: Option<LedgerEntry>): (e: LedgerEntry)
    ensures e.id == id && e.importedFrom == Option<Provenance>.Some(source)
    ensures e.category == suggest(d.description, d.category)
    ensures e.date == d.date && e.amount == d.amount && e.description == d.description
            && e.bankAccount == d.bankAccount && e.kind == d.kind
    ensures source == CreditCard ==> e.linkedBankEntryId == LinkTo(duplicate)
    ensures source != CreditCard ==> e.linkedBankEntryId == d.linkedBankEntryId
  {
    var base := WithId(d, id).(importedFrom := Option<Provenance>.Some(source),
                                category := suggest(d.description, d.category));
    if source == CreditCard then
      base.(linkedBankEntryId := LinkTo(duplicate))
    else base
  }

  /** The entry one iteration of the import loop builds. */
  function Enriched(suggest: Suggester, find: Finder, source: ImportSource, st: ImportState, d: Draft): (e: LedgerEntry)
    ensures e.id == st.nextId && e.importedFrom == Option<Provenance>.Some(source)
    ensures source == CreditCard ==> e.linkedBankEntryId == LinkTo(find(st.entries, d))
    ensures source != CreditCard ==> e.linkedBankEntryId == d.linkedBankEntryId
  {
    Enrich(suggest, source, d, st.nextId, if source == CreditCard then find(st.entries, d) else None)
  }

  /** One iteration of the import loop: the enriched entry is always
      returned, and stored unless a credit-card import linked it to a
      duplicate. */
  function ImportStep(suggest: Suggester, find: Finder, source: ImportSource, st: ImportState, d: Draft): (r: ImportState)
    ensures r.nextId == st.nextId + 1
    ensures r.imported == st.imported + [Enriched(suggest, find, source, st, d)]
    ensures r.entries == st.entries + if source == CreditCard && find(st.entries, d).Some? then []
                                      else [Enriched(suggest, find, source, st, d)]
  {
    var e := Enriched(suggest, find, source, st, d);
    if source == CreditCard && find(st.entries, d).Some? then ImportState(st.entries, st.nextId + 1, st.imported + [e])
    else ImportState(st.entries + [e], st.nextId + 1, st.imported + [e])
  }

  /** The state after importing every draft in order. */
  function ImportAll(suggest: Suggester, find: Finder, source: ImportSource, st: ImportState, drafts: seq<Draft>): (r: ImportState)
    ensures |r.imported| == |st.imported| + |drafts|
    ensures r.nextId == st.nextId + |drafts|
  {
    if drafts == [] then st
    else ImportStep(suggest, find, source, ImportAll(suggest, find, source, st, drafts[..|drafts| - 1]), drafts[|drafts| - 1])
  }

  /** The entries of `imported` that carry no link, in order. */
  function Unlinked(imported: seq<LedgerEntry>): (r: seq<LedgerEntry>)
    ensures |r| <= |imported|
  {
    if imported == [] then []
    else Unlinked(imported[..|imported| - 1])
         + if imported[|imported| - 1].linkedBankEntryId.None? then [imported[|imported| - 1]] else []
  }

  /** `imported.filter(item => item.linkedBankEntryId).length` */
  function CountLinked(imported: seq<LedgerEntry>): (n: nat)
    ensures n + |Unlinked(imported)| == |imported|
  {
    if imported == [] then 0
    else CountLinked(imported[..|imported| - 1])
         + if imported[|imported| - 1].linkedBankEntryId.Some? then 1 else 0
  }

  /** The first import of a batch starts from the store and nothing imported. */
  function Start(entries: seq<LedgerEntry>, nextId: Id): ImportState {
    ImportState(entries, nextId, [])
  }

  /** The pieces of a batch: all drafts but the last, and the last. */
  lemma ImportAllSnoc(suggest: Suggester, find: Finder, source: ImportSource, st: ImportState,
                      drafts: seq<Draft>, d: Draft)
    ensures ImportAll(suggest, find, source, st, drafts + [d])
         == ImportStep(suggest, find, source, ImportAll(suggest, find, source, st, drafts), d)
  {
    assert (drafts + [d])[..|drafts|] == drafts;
  }

  /** The loop's view: the state after the first `i + 1` drafts is one step
      from the state after the first `i`. */
  lemma ImportAllNext(suggest: Suggester, find: Finder, source: ImportSource, st: ImportState,
                      drafts: seq<Draft>, i: nat)
    requires i < |drafts|
    ensures ImportAll(suggest, find, source, st, drafts[..i + 1])
         == ImportStep(suggest, find, source, ImportAll(suggest, find, source, st, drafts[..i]), drafts[i])
  {
    assert drafts[..i + 1] == drafts[..i] + [drafts[i]];
    ImportAllSnoc(suggest, find, source, st, drafts[..i], drafts[i]);
  }

  /** The `i`-th returned entry is the `i`-th draft, enriched, with the
      `i`-th id. */
  lemma {:induction false} ImportedEntryAt(suggest: Suggester, find: Finder, source: ImportSource,
                                           entries: seq<LedgerEntry>, nextId: Id, drafts: seq<Draft>, i: nat)
    requires i < |drafts|
    ensures var r := ImportAll(suggest, find, source, Start(entries, nextId), drafts);
      && r.imported[i].id == nextId + i
      && r.imported[i].importedFrom == Option<Provenance>.Some(source)
      && r.imported[i].category == suggest(drafts[i].description, drafts[i].category)
      && DraftOf(r.imported[i]).(category := drafts[i].category, importedFrom := drafts[i].importedFrom,
                                 linkedBankEntryId := drafts[i].linkedBankEntryId) == drafts[i]
      && (source != CreditCard ==> r.imported[i].linkedBankEntryId == drafts[i].linkedBankEntryId)
    decreases |drafts|
  {
    var n := |drafts|;
    var init, d := drafts[..n - 1], drafts[n - 1];
    assert drafts == init + [d];
    var prev := ImportAll(suggest, find, source, Start(entries, nextId), init);
    ImportAllSnoc(suggest, find, source, Start(entries, nextId), init, d);
    var r := ImportStep(suggest, find, source, prev, d);
    assert r.imported == prev.imported + [Enriched(suggest, find, source, prev, d)];
    if i < n - 1 {
      ImportedEntryAt(suggest, find, source, entries, nextId, init, i);
      assert r.imported[i] == prev.imported[i] && drafts[i] == init[i];
    }
  }

  /** Each returned entry is its draft, enriched, with the next id in turn. */
  lemma ImportedEntries(suggest: Suggester, find: Finder, source: ImportSource,
                        entries: seq<LedgerEntry>, nextId: Id, drafts: seq<Draft>)
    ensures var r := ImportAll(suggest, find, source, Start(entries, nextId), drafts);
      forall i :: 0 <= i < |drafts| ==>
        && r.imported[i].id == nextId + i
        && r.imported[i].importedFrom == Option<Provenance>.Some(source)
        && r.imported[i].category == suggest(drafts[i].description, drafts[i].category)
        && DraftOf(r.imported[i]).(category := drafts[i].category, importedFrom := drafts[i].importedFrom,
                                   linkedBankEntryId := drafts[i].linkedBankEntryId) == drafts[i]
        && (source != CreditCard ==> r.imported[i].linkedBankEntryId == drafts[i].linkedBankEntryId)
  {
    forall i | 0 <= i < |drafts| {
      ImportedEntryAt(suggest, find, source, entries, nextId, drafts, i);
    }
  }

  /** Documents (`pdf`, `xlsx`, `ods`): every enriched entry is appended. */
  lemma {:induction false} ImportDocumentsAppendsAll(suggest: Suggester, find: Finder, source: ImportSource,
                                                     entries: seq<LedgerEntry>, nextId: Id, drafts: seq<Draft>)
    requires source != CreditCard
    ensures var r := ImportAll(suggest, find, source, Start(entries, nextId), drafts);
      r.entries == entries + r.imported
  {
    if drafts != [] {
      var n := |drafts|;
      var init, d := drafts[..n - 1], drafts[n - 1];
      ImportDocumentsAppendsAll(suggest, find, source, entries, nextId, init);
      var prev := ImportAll(suggest, find, source, Start(entries, nextId), init);
      var e := Enriched(suggest, find, source, prev, d);
      ConcatAssoc(entries, prev.imported, [e]);
    }
  }

  /** The import loop keeps identifiers unique. */
  lemma {:induction false} ImportFresh(suggest: Suggester, find: Finder, source: ImportSource,
                                       st: ImportState, drafts: seq<Draft>)
    requires FreshIds(st.entries, st.nextId)
    ensures var r := ImportAll(suggest, find, source, st, drafts); FreshIds(r.entries, r.nextId)
  {
    if drafts != [] {
      var n := |drafts|;
      var init, d := drafts[..n - 1], drafts[n - 1];
      ImportFresh(suggest, find, source, st, init);
      var prev := ImportAll(suggest, find, source, st, init);
      var e := Enriched(suggest, find, source, prev, d);
      if source == CreditCard && find(prev.entries, d).Some? {
        FreshLater(prev.entries, prev.nextId);
      } else {
        AppendFresh(prev.entries, prev.nextId, e);
      }
    }
  }

  /** Handing out an id keeps the stored ones below the counter. */
  lemma FreshLater(entries: seq<LedgerEntry>, nextId: Id)
    requires FreshIds(entries, nextId)
    ensures FreshIds(entries, nextId + 1)
  {
  }

  /** Credit-card feeds: exactly the entries without a link are appended, in
      order, provided the duplicate search returns the id it links to. */
  lemma {:induction false} ImportCreditCardAppendsUnlinked(suggest: Suggester, find: Finder,
                                                           entries: seq<LedgerEntry>, nextId: Id, drafts: seq<Draft>)
    ensures var r := ImportAll(suggest, find, CreditCard, Start(entries, nextId), drafts);
      r.entries == entries + Unlinked(r.imported)
  {
    if drafts != [] {
      var n := |drafts|;
      var init, d := drafts[..n - 1], drafts[n - 1];
      ImportCreditCardAppendsUnlinked(suggest, find, entries, nextId, init);
      var prev := ImportAll(suggest, find, CreditCard, Start(entries, nextId), init);
      var r := ImportStep(suggest, find, CreditCard, prev, d);
      var e := Enriched(suggest, find, CreditCard, prev, d);
      var tail := if e.linkedBankEntryId.None? then [e] else [];
      UnlinkedSnoc(prev.imported, e);
      assert r.entries == prev.entries + tail;
      ConcatAssoc(entries, Unlinked(prev.imported), tail);
    }
  }

  lemma UnlinkedSnoc(imported: seq<LedgerEntry>, e: LedgerEntry)
    ensures Unlinked(imported + [e]) == Unlinked(imported) + if e.linkedBankEntryId.None? then [e] else []
    ensures CountLinked(imported + [e]) == CountLinked(imported) + if e.linkedBankEntryId.Some? then 1 else 0
  {
    assert (imported + [e])[..|imported|] == imported;
  }

  /** The last entry of a credit-card batch is linked to the duplicate the
      search finds among the entries stored before it. */
  lemma ImportCreditCardLinksLast(suggest: Suggester, find: Finder,
                                  entries: seq<LedgerEntry>, nextId: Id, init: seq<Draft>, d: Draft)
    ensures var r := ImportAll(suggest, find, CreditCard, Start(entries, nextId), init + [d]);
      r.imported[|init|].linkedBankEntryId == LinkTo(find(entries + Unlinked(r.imported[..|init|]), d))
  {
    ImportCreditCardAppendsUnlinked(suggest, find, entries, nextId, init);
    var prev := ImportAll(suggest, find, CreditCard, Start(entries, nextId), init);
    ImportAllSnoc(suggest, find, CreditCard, Start(entries, nextId), init, d);
    var r := ImportStep(suggest, find, CreditCard, prev, d);
    assert r.imported[..|init|] == prev.imported;
    assert r.imported[|init|] == Enriched(suggest, find, CreditCard, prev, d);
  }

  /** The link of the `i`-th entry of a credit-card batch. */
  lemma {:induction false} ImportCreditCardLinkAt(suggest: Suggester, find: Finder,
                                                  entries: seq<LedgerEntry>, nextId: Id, drafts: seq<Draft>, i: nat)
    requires i < |drafts|
    ensures var r := ImportAll(suggest, find, CreditCard, Start(entries, nextId), drafts);
      r.imported[i].linkedBankEntryId == LinkTo(find(entries + Unlinked(r.imported[..i]), drafts[i]))
    decreases |drafts|
  {
    var n := |drafts|;
    var init, d := drafts[..n - 1], drafts[n - 1];
    assert drafts == init + [d];
    if i == n - 1 {
      ImportCreditCardLinksLast(suggest, find, entries, nextId, init, d);
    } else {
      ImportCreditCardLinkAt(suggest, find, entries, nextId, init, i);
      var prev := ImportAll(suggest, find, CreditCard, Start(entries, nextId), init);
      ImportAllSnoc(suggest, find, CreditCard, Start(entries, nextId), init, d);
      var r := ImportAll(suggest, find, CreditCard, Start(entries, nextId), drafts);
      assert r.imported == prev.imported + [Enriched(suggest, find, CreditCard, prev, d)];
      assert r.imported[i] == prev.imported[i];
      assert r.imported[..i] == prev.imported[..i];
      assert drafts[i] == init[i];
    }
  }

  /** Credit-card feeds: each entry is linked to the first potential duplicate
      among the entries stored when it is processed, which include the
      entries stored earlier in the same batch; it is unlinked when there is
      none. */
  lemma ImportCreditCardLinks(suggest: Suggester, find: Finder,
                              entries: seq<LedgerEntry>, nextId: Id, drafts: seq<Draft>)
    ensures var r := ImportAll(suggest, find, CreditCard, Start(entries, nextId), drafts);
      forall i :: 0 <= i < |drafts| ==>
        r.imported[i].linkedBankEntryId == LinkTo(find(entries + Unlinked(r.imported[..i]), drafts[i]))
  {
    forall i | 0 <= i < |drafts| {
      ImportCreditCardLinkAt(suggest, find, entries, nextId, drafts, i);
    }
  }

  /** The reported count: credit-card imports store all but the linked
      entries. */
  lemma ImportCreditCardCount(suggest: Suggester, find: Finder, entries: seq<LedgerEntry>, nextId: Id, drafts: seq<Draft>)
    ensures var r := ImportAll(suggest, find, CreditCard, Start(entries, nextId), drafts);
      |r.entries| + CountLinked(r.imported) == |entries| + |drafts|
  {
    ImportCreditCardAppendsUnlinked(suggest, find, entries, nextId, drafts);
  }

  /** No entry carries a link, so none is counted. */
  lemma {:induction false} CountLinkedNone(imported: seq<LedgerEntry>)
    requires forall i :: 0 <= i < |imported| ==> imported[i].linkedBankEntryId.None?
    ensures CountLinked(imported) == 0
  {
    if imported != [] {
      var init := imported[..|imported| - 1];
      assert forall i :: 0 <= i < |init| ==> init[i] == imported[i];
      CountLinkedNone(init);
    }
  }

  /** Document imports of unlinked drafts report no duplicates. */
  lemma ImportDocumentsReportNoDuplicates(suggest: Suggester, find: Finder, source: ImportSource,
                                          entries: seq<LedgerEntry>, nextId: Id, drafts: seq<Draft>)
    requires source != CreditCard
    requires forall i :: 0 <= i < |drafts| ==> drafts[i].linkedBankEntryId.None?
    ensures CountLinked(ImportAll(suggest, find, source, Start(entries, nextId), drafts).imported) == 0
  {
    ImportedEntries(suggest, find, source, entries, nextId, drafts);
    CountLinkedNone(ImportAll(suggest, find, source, Start(entries, nextId), drafts).imported);
  }
}
