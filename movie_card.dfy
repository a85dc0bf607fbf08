/**
 * The movie card (src/components/common/MovieCard.tsx): the favourite button flips
 * a flag, the genre text is shown as one chip per comma-separated piece with its
 * surrounding whitespace trimmed, a missing poster falls back to a placeholder,
 * and a truthy age rating is shown as "<rating>+".
 */
module MovieCard {
  import opened Wrappers
  import opened JsText

  const PosterPlaceholder: string := "/api/placeholder/300/450"

  datatype Movie = Movie(id: int, title: string, genre: string, duration: int,
                         description: Option<string>, posterUrl: Option<string>, ageRating: Option<int>)

  // ---------------------------------------------------------------------------
  // The favourite flag
  // ---------------------------------------------------------------------------

  /** `handleFavoriteClick`: the new value of `isFavorite`. */
  function Toggle(favourite: bool): (r: bool)
    ensures r != favourite
  {
    !favourite
  }

  /** The flag after `clicks` clicks. */
  function AfterClicks(favourite: bool, clicks: nat): bool {
    if clicks == 0 then favourite else Toggle(AfterClicks(favourite, clicks - 1))
  }

  /** The flag depends only on whether the number of clicks is odd, so two clicks
    * restore it. */
  lemma {:induction false} AfterClicksParity(favourite: bool, clicks: nat)
    ensures AfterClicks(favourite, clicks) == (favourite != (clicks % 2 == 1))
    ensures AfterClicks(favourite, clicks + 2) == AfterClicks(favourite, clicks)
  {
    if clicks > 0 {
      AfterClicksParity(favourite, clicks - 1);
    }
  }

  // ---------------------------------------------------------------------------
  // Genre chips
  // ---------------------------------------------------------------------------

  /** `movie.genre.split(',').map(g => g.trim())`. */
  function GenreChips(genre: string): (chips: seq<string>)
    ensures |chips| == Count(genre, ',') + 1
    ensures forall k :: 0 <= k < |chips| ==> ',' !in chips[k]
    ensures forall k :: 0 <= k < |chips| ==> chips[k] == [] || (!IsSpace(chips[k][0]) && !IsSpace(chips[k][|chips[k]| - 1]))
  {
    var pieces := Split(genre, ',');
    TrimmedPiecesLack(pieces, ',');
    seq(|pieces|, k requires 0 <= k < |pieces| => Trim(pieces[k]))
  }

  /** Trimming removes characters only, so a character absent from a text is absent
    * from its trimmed form. */
  lemma TrimLacks(s: string, c: char)
    requires c !in s
    ensures c !in Trim(s)
  {
    var r := Trim(s);
    var k :| OccursAt(s, r, k);
    forall i | 0 <= i < |r| ensures r[i] != c {
      assert r[i] == s[k + i];
    }
  }

  lemma TrimmedPiecesLack(pieces: seq<string>, c: char)
    requires forall k :: 0 <= k < |pieces| ==> c !in pieces[k]
    ensures forall k :: 0 <= k < |pieces| ==> c !in Trim(pieces[k])
  {
    forall k | 0 <= k < |pieces| ensures c !in Trim(pieces[k]) {
      TrimLacks(pieces[k], c);
    }
  }

  /** Genres written as comma-separated names, with any spacing around the commas,
    * come back as the names: the chip list is the list of trimmed pieces. */
  lemma GenreChipsOfJoin(pieces: seq<string>)
    requires |pieces| >= 1
    requires forall k :: 0 <= k < |pieces| ==> ',' !in pieces[k]
    ensures GenreChips(Join(pieces, ',')) == seq(|pieces|, k requires 0 <= k < |pieces| => Trim(pieces[k]))
  {
    SplitJoin(pieces, ',');
  }

  // ---------------------------------------------------------------------------
  // Optional fields
  // ---------------------------------------------------------------------------

  /** `movie.posterUrl || '/api/placeholder/300/450'`. */
  function PosterImage(m: Movie): (url: string)
    ensures Truthy(m.posterUrl) ==> url == m.posterUrl.value
    ensures !Truthy(m.posterUrl) ==> url == PosterPlaceholder
    ensures url != ""
  {
    OrElse(m.posterUrl, PosterPlaceholder)
  }

  /** The age chip's label, shown only for a truthy `ageRating`. */
  function AgeChip(m: Movie): (chip: Option<string>)
    ensures chip.Some? <==> m.ageRating.Some? && m.ageRating.value != 0
    ensures chip.Some? ==> |chip.value| >= 2 && chip.value[|chip.value| - 1] == '+'
  {
    if m.ageRating.Some? && m.ageRating.value != 0 then Some(IntToString(m.ageRating.value) + "+") else None
  }

  /** The age chip names the rating: reading its label as a number gives the rating
    * back, so different ratings get different chips. */
  lemma AgeChipReadsBack(m: Movie)
    requires AgeChip(m).Some?
    ensures ParseInt(AgeChip(m).value) == m.ageRating
  {
    ParseIntOfIntToStringThen(m.ageRating.value, "+");
  }
}
