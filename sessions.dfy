/**
 * The screening schedule (src/pages/Sessions.tsx): `fetchSessions` builds the
 * request URL from the two filters, appending a `movie` and then a `date`
 * parameter to a `URLSearchParams` object when the filter is non-empty, and adding
 * "?" and the serialized parameters only when there are any; the response body is
 * then normalised to a list. `getMovieTitle` looks a title up in the movie list.
 * The page's filters and lists are the class `SchedulePage`.
 */
module Sessions {
  import opened Wrappers
  import opened JsText

  const SessionsUrl: string := "http://localhost:8080/api/sessions"
  const MsgLoadFailed: string := "Не удалось загрузить сеансы"
  const DefaultTitle: string := "Фильм"

  datatype Session = Session(id: int, movieId: int, movieTitle: string, hallId: int, hallName: string,
                             startTime: string, price: int, format: string)

  datatype Movie = Movie(id: int, title: string)

  // ---------------------------------------------------------------------------
  // application/x-www-form-urlencoded serialization (WHATWG URL Standard,
  // section 5.2), which `URLSearchParams.toString` performs
  // ---------------------------------------------------------------------------

  predicate IsAsciiAlphanumeric(c: char) {
    ('0' <= c <= '9') || ('A' <= c <= 'Z') || ('a' <= c <= 'z')
  }

  /** The characters the serializer leaves as they are. */
  predicate Unreserved(c: char) {
    IsAsciiAlphanumeric(c) || c == '*' || c == '-' || c == '.' || c == '_'
  }

  /** The characters a serialized name or value can contain. */
  predicate Serialized(c: char) {
    Unreserved(c) || c == '+' || c == '%'
  }

  /** The UTF-8 encoding of a code point, as byte values. */
  function Utf8(c: char): (bytes: seq<int>)
    ensures 1 <= |bytes| <= 4
    ensures forall k :: 0 <= k < |bytes| ==> 0 <= bytes[k] < 256
    ensures |bytes| == 1 <==> (c as int) < 0x80
    ensures |bytes| == 1 ==> bytes[0] == c as int
  {
    var n := c as int;
    if n < 0x80 then [n]
    else if n < 0x800 then [0xC0 + n / 0x40, 0x80 + n % 0x40]
    else if n < 0x1_0000 then [0xE0 + n / 0x1000, 0x80 + (n / 0x40) % 0x40, 0x80 + n % 0x40]
    else [0xF0 + n / 0x4_0000, 0x80 + (n / 0x1000) % 0x40, 0x80 + (n / 0x40) % 0x40, 0x80 + n % 0x40]
  }

  function HexDigit(d: int): (c: char)
    requires 0 <= d < 16
    ensures IsAsciiAlphanumeric(c)
  {
    if d < 10 then ('0' as int + d) as char else ('A' as int + d - 10) as char
  }

  /** `%XX` for each byte, with upper-case hexadecimal digits. */
  function PercentEncode(bytes: seq<int>): (r: string)
    requires forall k :: 0 <= k < |bytes| ==> 0 <= bytes[k] < 256
    ensures |r| == 3 * |bytes|
    ensures forall k :: 0 <= k < |r| ==> Serialized(r[k])
  {
    if bytes == [] then []
    else ['%', HexDigit(bytes[0] / 16), HexDigit(bytes[0] % 16)] + PercentEncode(bytes[1..])
  }

  /** One code point: kept, space as "+", otherwise its UTF-8 bytes percent-encoded. */
  function EncodeChar(c: char): (r: string)
    ensures r != [] && forall k :: 0 <= k < |r| ==> Serialized(r[k])
  {
    if c == ' ' then "+"
    else if Unreserved(c) then [c]
    else PercentEncode(Utf8(c))
  }

  function FormEncode(s: string): (r: string)
    ensures |r| >= |s|
    ensures forall k :: 0 <= k < |r| ==> Serialized(r[k])
  {
    if s == [] then [] else EncodeChar(s[0]) + FormEncode(s[1..])
  }

  /** Text made only of unreserved characters (a decimal id, an ISO date, the
    * parameter names) is serialized unchanged. */
  lemma {:induction false} FormEncodeUnreserved(s: string)
    requires forall k :: 0 <= k < |s| ==> Unreserved(s[k])
    ensures FormEncode(s) == s
  {
    if s != [] {
      FormEncodeUnreserved(s[1..]);
      assert s == [s[0]] + s[1..];
    }
  }

  /** Encoding keeps distinct texts distinct on characters that are kept as they are;
    * a character that is not kept always becomes something other than itself. */
  lemma EncodeCharChanges(c: char)
    ensures EncodeChar(c) == [c] <==> Unreserved(c)
  {
    if !Unreserved(c) && c != ' ' {
      var r := PercentEncode(Utf8(c));
      assert r[0] == '%';
    }
  }

  /** One parameter serialized as `name=value`. */
  function Piece(p: (string, string)): string {
    FormEncode(p.0) + "=" + FormEncode(p.1)
  }

  /** The pieces of the serialization, one per parameter. */
  function Pieces(params: seq<(string, string)>): (ps: seq<string>)
    ensures |ps| == |params|
    ensures forall k :: 0 <= k < |ps| ==> ps[k] == Piece(params[k])
  {
    if params == [] then [] else [Piece(params[0])] + Pieces(params[1..])
  }

  /** `params.toString()`. */
  function Serialize(params: seq<(string, string)>): (r: string)
    ensures r == "" <==> params == []
  {
    var ps := Pieces(params);
    assert params != [] ==> ps[0] == Piece(params[0]) && |ps[0]| > 0;
    Join(ps, '&')
  }

  lemma NoDelimiters(s: string)
    requires forall k :: 0 <= k < |s| ==> Serialized(s[k])
    ensures '&' !in s && '=' !in s
  {
  }

  /** A `name=value` piece splits at "=" into the serialized name and value. */
  lemma PieceRoundTrip(name: string, value: string)
    ensures Split(Piece((name, value)), '=') == [FormEncode(name), FormEncode(value)]
  {
    var n, v := FormEncode(name), FormEncode(value);
    NoDelimiters(n);
    NoDelimiters(v);
    SplitJoin([n, v], '=');
    assert [n, v][1..] == [v];
  }

  /** The serialization is empty exactly when there are no parameters, and splitting
    * it at "&" gives back the `name=value` pieces in order. */
  lemma SerializeRoundTrip(params: seq<(string, string)>)
    ensures Serialize(params) == "" <==> params == []
    ensures params != [] ==> Split(Serialize(params), '&') == Pieces(params)
  {
    var ps := Pieces(params);
    forall k | 0 <= k < |ps| ensures '&' !in ps[k] {
      assert ps[k] == Piece(params[k]);
      NoDelimiters(FormEncode(params[k].0));
      NoDelimiters(FormEncode(params[k].1));
    }
    if params != [] {
      SplitJoin(ps, '&');
      assert Split(Serialize(params), '&')[0] == ps[0];
      assert ps[0] != [];
    }
  }

  // ---------------------------------------------------------------------------
  // The request URL
  // ---------------------------------------------------------------------------

  /** The parameters `fetchSessions` appends: `movie`, then `date`, each only when
    * its filter is non-empty. */
  function QueryParams(movie: string, date: string): (params: seq<(string, string)>)
    ensures |params| == (if movie != "" then 1 else 0) + (if date != "" then 1 else 0)
    ensures movie != "" ==> params[0] == ("movie", movie)
    ensures date != "" ==> params[|params| - 1] == ("date", date)
  {
    (if movie != "" then [("movie", movie)] else []) + (if date != "" then [("date", date)] else [])
  }

  /** The URL requested for the two filters. */
  function RequestUrl(movie: string, date: string): (u: string)
    ensures IsPrefix(SessionsUrl, u)
    ensures u == SessionsUrl <==> movie == "" && date == ""
  {
    var query := Serialize(QueryParams(movie, date));
    if query != "" then SessionsUrl + "?" + query else SessionsUrl
  }

  /** "?" and a query are added exactly when a filter is set; the query lists the
    * movie filter before the date filter, each serialized as `name=value`. */
  lemma RequestUrlShape(movie: string, date: string)
    ensures movie == "" && date == "" ==> RequestUrl(movie, date) == SessionsUrl
    ensures movie != "" || date != "" ==>
      RequestUrl(movie, date) == SessionsUrl + "?" + Serialize(QueryParams(movie, date)) &&
      Split(Serialize(QueryParams(movie, date)), '&') ==
        (if movie != "" then ["movie=" + FormEncode(movie)] else []) +
        (if date != "" then ["date=" + FormEncode(date)] else [])
  {
    var params := QueryParams(movie, date);
    SerializeRoundTrip(params);
    var ps := Pieces(params);
    if movie != "" {
      MoviePiece(movie);
    }
    if date != "" {
      DatePiece(date);
    }
    if movie != "" && date != "" {
      assert ps == [ps[0], ps[1]];
    } else if movie != "" || date != "" {
      assert ps == [ps[0]];
    }
  }

  lemma MoviePiece(movie: string)
    ensures Piece(("movie", movie)) == "movie=" + FormEncode(movie)
  {
    FormEncodeUnreserved("movie");
  }

  lemma DatePiece(date: string)
    ensures Piece(("date", date)) == "date=" + FormEncode(date)
  {
    FormEncodeUnreserved("date");
  }

  /** The URL-building steps of `fetchSessions`: a parameter list appended to in
    * order, then "?" and its serialization when that is non-empty. */
  method BuildUrl(movie: string, date: string) returns (url: string)
    ensures url == RequestUrl(movie, date)
  {
    url := SessionsUrl;
    var params: seq<(string, string)> := [];
    if movie != "" {
      params := params + [("movie", movie)];
    }
    if date != "" {
      params := params + [("date", date)];
    }
    assert params == QueryParams(movie, date);
    var query := Serialize(params);
    if query != "" {
      url := url + "?" + query;
    }
  }

  // ---------------------------------------------------------------------------
  // The response
  // ---------------------------------------------------------------------------

  /** What `response.data` can be: a list, an object with or without a truthy
    * `sessions` list, or something else (null, a string). */
  datatype Body = List(items: seq<Session>) | Wrapped(sessions: Option<seq<Session>>) | Other

  /** The list `fetchSessions` stores for a response body. */
  function Normalise(body: Body): (r: seq<Session>)
    ensures body.List? ==> r == body.items
    ensures body.Wrapped? && body.sessions.Some? ==> r == body.sessions.value
    ensures body.Other? || (body.Wrapped? && body.sessions.None?) ==> r == []
  {
    match body
    case List(items) => items
    case Wrapped(Some(s)) => s
    case _ => []
  }

  /** Index of the first movie with the id, as `movies.find` scans. */
  function FindMovie(movies: seq<Movie>, id: int): (r: Option<nat>)
    ensures r.Some? ==> r.value < |movies| && movies[r.value].id == id &&
                        forall j :: 0 <= j < r.value ==> movies[j].id != id
    ensures r.None? <==> forall j :: 0 <= j < |movies| ==> movies[j].id != id
  {
    if movies == [] then None
    else if movies[0].id == id then Some(0)
    else match FindMovie(movies[1..], id)
      case None => None
      case Some(k) => Some(k + 1)
  }

  /** `getMovieTitle(movieId)`: the first matching movie's title, or "Фильм" when
    * there is none or its title is empty. */
  function MovieTitle(movies: seq<Movie>, id: int): (t: string)
    ensures t != ""
    ensures (forall j :: 0 <= j < |movies| ==> movies[j].id != id) ==> t == DefaultTitle
    ensures forall k :: (0 <= k < |movies| && movies[k].id == id && movies[k].title != "" &&
                         forall j :: 0 <= j < k ==> movies[j].id != id) ==> t == movies[k].title
    ensures forall k :: (0 <= k < |movies| && movies[k].id == id && movies[k].title == "" &&
                         forall j :: 0 <= j < k ==> movies[j].id != id) ==> t == DefaultTitle
  {
    match FindMovie(movies, id)
    case None => DefaultTitle
    case Some(k) => if movies[k].title != "" then movies[k].title else DefaultTitle
  }

  /** A later movie with the same id never supplies the title. */
  lemma FirstMovieWins(movies: seq<Movie>, m: Movie)
    requires m.title != "" && forall j :: 0 <= j < |movies| ==> movies[j].id != m.id
    ensures MovieTitle([m] + movies, m.id) == m.title
    ensures MovieTitle([m] + movies + [Movie(m.id, "other")], m.id) == m.title
  {
    assert ([m] + movies)[0] == m;
    assert ([m] + movies + [Movie(m.id, "other")])[0] == m;
  }

  class SchedulePage {
    var selectedMovie: string
    var selectedDate: string
    var sessions: seq<Session>
    var movies: seq<Movie>
    var error: string
    var loading: bool

    /** The movie filter starts from the `movie` search parameter, or "". */
    constructor (movieParam: Option<string>)
      ensures selectedMovie == OrElse(movieParam, "") && selectedDate == ""
      ensures sessions == [] && movies == [] && error == "" && loading
    {
      selectedMovie := OrElse(movieParam, "");
      selectedDate := "";
      sessions, movies := [], [];
      error, loading := "", true;
    }

    /** `fetchSessions`: the URL requested and the list stored; `reply` is the body
      * the request returned, `None` when it failed. */
    method FetchSessions(reply: Option<Body>) returns (url: string)
      modifies this
      ensures url == RequestUrl(selectedMovie, selectedDate)
      ensures reply.Some? ==> sessions == Normalise(reply.value) && error == ""
      ensures reply.None? ==> sessions == [] && error == MsgLoadFailed
      ensures !loading
      ensures selectedMovie == old(selectedMovie) && selectedDate == old(selectedDate) && movies == old(movies)
    {
      url := BuildUrl(selectedMovie, selectedDate);
      loading := true;
      error := "";
      if reply.None? {
        error := MsgLoadFailed;
        sessions := [];
      } else {
        var list: seq<Session> := [];
        match reply.value {
          case List(items) => list := items;
          case Wrapped(Some(s)) => list := s;
          case _ =>
        }
        sessions := list;
      }
      loading := false;
    }

    /** `fetchMovies`: a failed load leaves the list as it was. */
    method FetchMovies(reply: Option<seq<Movie>>)
      modifies this
      ensures movies == (if reply.Some? then reply.value else old(movies))
      ensures selectedMovie == old(selectedMovie) && selectedDate == old(selectedDate)
      ensures sessions == old(sessions) && error == old(error) && loading == old(loading)
    {
      if reply.Some? {
        movies := reply.value;
      }
    }

    /** The "reset filters" button. */
    method ResetFilters()
      modifies this
      ensures selectedMovie == "" && selectedDate == ""
      ensures RequestUrl(selectedMovie, selectedDate) == SessionsUrl
      ensures sessions == old(sessions) && movies == old(movies) && error == old(error) && loading == old(loading)
    {
      selectedMovie := "";
      selectedDate := "";
      RequestUrlShape("", "");
    }
  }
}
