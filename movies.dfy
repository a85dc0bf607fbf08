/**
 * The movie catalogue's search (src/pages/Movies.tsx): a term that is blank after
 * trimming shows the whole list; otherwise a movie is kept when the lower-cased
 * term occurs in its lower-cased title, genre or (when present) description. The
 * term itself is not trimmed for matching. Lower-casing is the parameter `lower`,
 * a character map, since Unicode case mapping is not modelled.
 */
module Movies {
  import opened Wrappers
  import opened JsText

  const Ellipsis: string := "..."
  const ShortLength: nat := 100

  datatype Movie = Movie(id: int, title: string, genre: string, duration: int,
                         description: Option<string>, posterUrl: Option<string>,
                         year: Option<int>, director: Option<string>)

  /** `text.toLowerCase().includes(term.toLowerCase())`. */
  predicate FoldedIncludes(text: string, term: string, lower: char -> char) {
    Includes(MapChars(text, lower), MapChars(term, lower))
  }

  /** The predicate given to `movies.filter`; an absent description makes the
    * optional-chained call yield `undefined`, which is falsy. */
  predicate Matches(m: Movie, term: string, lower: char -> char) {
    FoldedIncludes(m.title, term, lower) || FoldedIncludes(m.genre, term, lower) ||
    (m.description.Some? && FoldedIncludes(m.description.value, term, lower))
  }

  /** `a` is `b` with some elements dropped, the rest in their order: either the
    * heads pair up, or the head of `b` is one of the dropped elements. */
  predicate IsSubsequence(a: seq<Movie>, b: seq<Movie>)
    decreases |b|
  {
    a == [] ||
    (b != [] && ((a[0] == b[0] && IsSubsequence(a[1..], b[1..])) || IsSubsequence(a, b[1..])))
  }

  /** `movies.filter(movie => …)`. */
  function Keep(ms: seq<Movie>, term: string, lower: char -> char): (r: seq<Movie>)
    ensures |r| <= |ms|
    ensures forall k :: 0 <= k < |r| ==> Matches(r[k], term, lower)
    ensures forall m :: m in r <==> m in ms && Matches(m, term, lower)
  {
    if ms == [] then []
    else
      var rest := Keep(ms[1..], term, lower);
      assert forall m :: m in ms <==> m == ms[0] || m in ms[1..];
      if Matches(ms[0], term, lower) then [ms[0]] + rest else rest
  }

  /** The empty term occurs in every title, so filtering by it keeps the whole
    * list in its order. */
  lemma {:induction false} EmptyTermKeepsAll(ms: seq<Movie>, lower: char -> char)
    ensures Keep(ms, "", lower) == ms
  {
    if ms != [] {
      IncludesEmpty(MapChars(ms[0].title, lower));
      assert Matches(ms[0], "", lower);
      EmptyTermKeepsAll(ms[1..], lower);
    }
  }

  /** The search effect: what `filteredMovies` becomes for `searchTerm`. */
  function Search(ms: seq<Movie>, term: string, lower: char -> char): (r: seq<Movie>)
    ensures IsBlank(term) ==> r == ms
    ensures !IsBlank(term) ==> forall m :: m in r <==> m in ms && Matches(m, term, lower)
  {
    if Trim(term) == "" then ms else Keep(ms, term, lower)
  }

  lemma {:induction false} KeepIsSubsequence(ms: seq<Movie>, term: string, lower: char -> char)
    ensures IsSubsequence(Keep(ms, term, lower), ms)
  {
    if ms != [] {
      KeepIsSubsequence(ms[1..], term, lower);
      var rest := Keep(ms[1..], term, lower);
      if Matches(ms[0], term, lower) {
        assert ([ms[0]] + rest)[1..] == rest;
      }
    }
  }

  /** The search result is always the movie list with some movies dropped and the
    * others in their original order. */
  lemma SearchIsSubsequence(ms: seq<Movie>, term: string, lower: char -> char)
    ensures IsSubsequence(Search(ms, term, lower), ms)
  {
    if IsBlank(term) {
      SubsequenceReflexive(ms);
    } else {
      KeepIsSubsequence(ms, term, lower);
    }
  }

  lemma {:induction false} SubsequenceReflexive(s: seq<Movie>)
    ensures IsSubsequence(s, s)
  {
    if s != [] {
      SubsequenceReflexive(s[1..]);
    }
  }

  /** A movie without a description is found only through its title or genre. */
  lemma NoDescriptionMatchesTitleOrGenre(ms: seq<Movie>, term: string, lower: char -> char, m: Movie)
    requires !IsBlank(term) && m.description.None?
    ensures m in Search(ms, term, lower) <==>
      m in ms && (FoldedIncludes(m.title, term, lower) || FoldedIncludes(m.genre, term, lower))
  {
  }

  /** A term longer than the text never occurs in it. */
  lemma {:induction false} LongerNotIncluded(s: string, t: string)
    requires |t| > |s|
    ensures !Includes(s, t)
  {
    if s != [] {
      LongerNotIncluded(s[1..], t);
    }
  }

  /** The term is matched untrimmed: under a case map that changes nothing, a
    * leading space makes a term miss the title it finds without the space. */
  lemma UntrimmedTerm(lower: char -> char)
    requires forall c :: lower(c) == c
    ensures var dune := Movie(1, "Dune", "", 155, None, None, None, None);
      Search([dune], "Dune", lower) == [dune] && Search([dune], " Dune", lower) == []
  {
    var dune := Movie(1, "Dune", "", 155, None, None, None, None);
    assert MapChars("Dune", lower) == "Dune";
    assert |MapChars(" Dune", lower)| == 5;
    assert MapChars("", lower) == "";
    assert IsPrefix("Dune", "Dune");
    assert Matches(dune, "Dune", lower);
    LongerNotIncluded("Dune", MapChars(" Dune", lower));
    LongerNotIncluded("", MapChars(" Dune", lower));
    assert !Matches(dune, " Dune", lower);
    NotBlankWhenStartsVisible("Dune");
    BlankIffAllSpace(" Dune");
    assert !IsSpace(" Dune"[1]);
    assert Keep([dune], " Dune", lower) == [];
  }

  // ---------------------------------------------------------------------------
  // description shortening
  // ---------------------------------------------------------------------------

  /** The card text for a description: beyond 100 characters, its first 100
    * followed by "...". Lengths are counted in characters. */
  function ShortDescription(d: string): (r: string)
    ensures |d| <= ShortLength ==> r == d
    ensures |d| > ShortLength ==>
      |r| == ShortLength + |Ellipsis| && IsPrefix(r[..ShortLength], d) && r[ShortLength..] == Ellipsis
  {
    if |d| > ShortLength then d[..ShortLength] + Ellipsis else d
  }

  /** Shortening an already shortened description changes nothing more, and what is
    * shown never exceeds 103 characters. */
  lemma ShortDescriptionIdempotent(d: string)
    ensures ShortDescription(ShortDescription(d)) == ShortDescription(d)
    ensures |ShortDescription(d)| <= ShortLength + |Ellipsis|
  {
    if |d| > ShortLength {
      var r := ShortDescription(d);
      assert r[..ShortLength] == d[..ShortLength];
    }
  }
}
