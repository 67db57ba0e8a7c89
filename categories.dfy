/** The category advisor: a table from normalised description to the last
    category used for it. */
module Categories {
  import opened Text

  /** The hint key of a description: lower-cased, then trimmed. */
  function Normalize(description: string): (r: string)
    ensures |r| <= |description|
  {
    Trim(Lower(description))
  }

  /** The hint learned for the description, else the fallback. */
  function Suggest(hints: map<string, string>, description: string, fallback: string): (r: string)
    ensures Normalize(description) in hints ==> r == hints[Normalize(description)]
    ensures Normalize(description) !in hints ==> r == fallback
  {
    var key := Normalize(description);
    if key in hints then hints[key] else fallback
  }

  /** The table after recording `category` for the description. */
  function Learn(hints: map<string, string>, description: string, category: string): (r: map<string, string>)
    ensures r.Keys == hints.Keys + {Normalize(description)}
    ensures r[Normalize(description)] == category
    ensures forall k :: k in hints && k != Normalize(description) ==> r[k] == hints[k]
  {
    hints[Normalize(description) := category]
  }

  /** Right after learning, the learned category is suggested for every
      description with the same key, and nothing changes for other keys. */
  lemma SuggestAfterLearn(hints: map<string, string>, learned: string, category: string,
                          description: string, fallback: string)
    ensures Suggest(Learn(hints, learned, category), description, fallback)
         == if Normalize(description) == Normalize(learned) then category
            else Suggest(hints, description, fallback)
  {
  }

  lemma TrimStartLower(s: string)
    ensures TrimStart(Lower(s)) == Lower(TrimStart(s))
    decreases |s|
  {
    if |s| > 0 && IsSpace(s[0]) {
      TrimStartLower(s[1..]);
      assert Lower(s)[1..] == Lower(s[1..]);
    }
  }

  lemma TrimEndLower(s: string)
    ensures TrimEnd(Lower(s)) == Lower(TrimEnd(s))
    decreases |s|
  {
    if |s| > 0 && IsSpace(s[|s| - 1]) {
      TrimEndLower(s[..|s| - 1]);
      assert Lower(s)[..|s| - 1] == Lower(s[..|s| - 1]);
    }
  }

  lemma TrimIdempotent(s: string)
    ensures Trim(Trim(s)) == Trim(s)
  {
    var t := Trim(s);
    assert TrimStart(t) == t;
    assert TrimEnd(t) == t;
  }

  /** A normalised description is its own key. */
  lemma {:induction false} NormalizeIdempotent(description: string)
    ensures Normalize(Normalize(description)) == Normalize(description)
  {
    var t := Trim(Lower(description));
    TrimStartLower(TrimStart(Lower(description)));
    TrimEndLower(t);
    calc {
      Normalize(t);
      Trim(Lower(t));
      { LowerIdempotent(description); TrimStartLower(Lower(description));
        TrimEndLower(TrimStart(Lower(description))); }
      Trim(t);
      { TrimIdempotent(Lower(description)); }
      t;
    }
  }

  /** Suggestions ignore case and surrounding white space. */
  lemma SuggestIgnoresCaseAndPadding(hints: map<string, string>, description: string, fallback: string)
    ensures Suggest(hints, Normalize(description), fallback) == Suggest(hints, description, fallback)
  {
    NormalizeIdempotent(description);
  }
}
