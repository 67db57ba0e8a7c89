/** The similarity scorer and the duplicate matcher used by credit-card imports. */
module Duplicates {
  import opened Shared
  import opened Text

  /** The set of lower-cased white-space separated tokens of a text. */
  function Tokens(text: string): (r: set<string>)
    ensures r != {}
  {
    var pieces := Split(Lower(text));
    var r := set t | t in pieces;
    assert pieces[0] in r;
    r
  }

  lemma SubsetCardinality<T>(a: set<T>, b: set<T>)
    requires a <= b
    ensures |a| <= |b|
  {
    if a != {} {
      var x :| x in a;
      SubsetCardinality(a - {x}, b - {x});
    }
  }

  lemma RatioAtMostOne(part: nat, whole: nat)
    requires part <= whole && whole > 0
    ensures 0.0 <= part as real / whole as real <= 1.0
  {
    var q := part as real / whole as real;
    assert q * whole as real == part as real;
  }

  /** The Jaccard index of the two token sets: shared tokens over all tokens. */
  function TextSimilarity(first: string, second: string): (r: real)
    ensures 0.0 <= r <= 1.0
  {
    var a, b := Tokens(first), Tokens(second);
    var intersection, union := |a * b|, |a + b|;
    SubsetCardinality(a * b, a + b);
    if union == 0 then 0.0
    else
      RatioAtMostOne(intersection, union);
      intersection as real / union as real
  }

  lemma TextSimilaritySymmetric(first: string, second: string)
    ensures TextSimilarity(first, second) == TextSimilarity(second, first)
  {
    var a, b := Tokens(first), Tokens(second);
    assert a * b == b * a && a + b == b + a;
  }

  /** Every text, even the empty one, is fully similar to itself. */
  lemma TextSimilarityReflexive(text: string)
    ensures TextSimilarity(text, text) == 1.0
  {
    var a := Tokens(text);
    assert a * a == a && a + a == a;
    var x :| x in a;
    assert |a| >= 1;
    var n := |a| as real;
    assert n / n == 1.0;
  }

  /** The division guard never fires: every text has at least one token. */
  lemma UnionNeverEmpty(first: string, second: string)
    ensures |Tokens(first) + Tokens(second)| >= 1
  {
    var x :| x in Tokens(first);
    assert x in Tokens(first) + Tokens(second);
  }

  function AbsInt(x: int): int { if x < 0 then -x else x }

  /** The four conditions under which a stored entry is taken for the same
      transaction as a candidate. */
  predicate IsPotentialDuplicate(existing: LedgerEntry, candidate: Draft)
    ensures IsPotentialDuplicate(existing, candidate) ==>
              existing.kind != Revenue && existing.kind != Transfer && existing.kind != Royalty
  {
    && existing.kind in MatchableTypes
    && Abs(existing.amount - candidate.amount) < 0.05
    && AbsInt(existing.date - candidate.date) <= 4
    && TextSimilarity(existing.description, candidate.description) >= 0.55
  }

  /** `find`: the first entry, in store order, that is a potential duplicate
      of the candidate, or none. */
  function FindPotentialDuplicate(entries: seq<LedgerEntry>, candidate: Draft): (r: Option<LedgerEntry>)
    ensures r.Some? ==> r.value in entries && IsPotentialDuplicate(r.value, candidate)
  {
    match FirstIndex(entries, (e: LedgerEntry) => IsPotentialDuplicate(e, candidate))
    case Some(i) => Some(entries[i])
    case None => None
  }

  /** The match found is the first potential duplicate in store order, an
      expense, fee or tax; none is found exactly when no entry qualifies. */
  lemma FindPotentialDuplicateFirst(entries: seq<LedgerEntry>, candidate: Draft)
    ensures var r := FindPotentialDuplicate(entries, candidate);
      && (r.Some? ==> r.value.kind in MatchableTypes)
      && (r.Some? ==> exists i :: 0 <= i < |entries| && entries[i] == r.value
                                 && IsPotentialDuplicate(entries[i], candidate)
                                 && forall j :: 0 <= j < i ==> !IsPotentialDuplicate(entries[j], candidate))
      && (r.None? <==> forall j :: 0 <= j < |entries| ==> !IsPotentialDuplicate(entries[j], candidate))
  {
  }
}
