/**
 * Screening administration (src/pages/AdminSessions.tsx): the data load sorts a
 * copy of the movie list by id (the engine's sort is stable, ECMA-262 section
 * 23.1.3.30), the create handler refuses a form with an empty field and otherwise
 * posts the parsed ids and the start time with seconds appended, and delete runs
 * only after confirmation. The screen's state is the class `SessionsAdminPage`.
 */
module AdminSessions {
  import opened Wrappers
  import opened JsText

  const MsgFillAll: string := "Заполните все поля"
  const MsgCreated: string := "Сеанс создан успешно!"
  const MsgCreateFailed: string := "Ошибка создания сеанса"
  const MsgDeleted: string := "Сеанс удален"
  const MsgDeleteFailed: string := "Ошибка удаления"
  const MsgLoadFailed: string := "Ошибка загрузки данных"
  const DefaultFormat: string := "2D"

  datatype Movie = Movie(id: int, title: string)

  datatype Session = Session(id: int, movieId: int, movieTitle: string, hallId: int, hallName: string,
                             startTime: string, price: int, format: string)

  datatype Hall = Hall(id: int, name: string)

  /** The form: the movie and hall selects' values (a picked option's numeric id,
    * or the empty placeholder text) and the text of the other inputs. */
  datatype SessionForm = SessionForm(movieId: SelectValue, hallId: SelectValue, startTime: string, price: string, format: string)

  const EmptyForm: SessionForm := SessionForm(Text(""), Text(""), "", "", DefaultFormat)

  // ---------------------------------------------------------------------------
  // Sorting the movies by id
  // ---------------------------------------------------------------------------

  predicate SortedById(ms: seq<Movie>) {
    forall i, j :: 0 <= i < j < |ms| ==> ms[i].id <= ms[j].id
  }

  /** Places `m` before the first movie whose id is not smaller, so that `m` stays
    * ahead of the movies with its id that came after it in the input. */
  function Insert(m: Movie, ms: seq<Movie>): (r: seq<Movie>)
    ensures multiset(r) == multiset(ms) + multiset{m}
    ensures |r| == |ms| + 1
  {
    if ms == [] || m.id <= ms[0].id then [m] + ms
    else
      assert ms == [ms[0]] + ms[1..];
      [ms[0]] + Insert(m, ms[1..])
  }

  /** `[...movies].sort((a, b) => a.id - b.id)`: a stable sort by ascending id. */
  function SortById(ms: seq<Movie>): (r: seq<Movie>)
    ensures multiset(r) == multiset(ms)
    ensures |r| == |ms|
  {
    if ms == [] then []
    else
      assert ms == [ms[0]] + ms[1..];
      Insert(ms[0], SortById(ms[1..]))
  }

  lemma {:induction false} InsertSorted(m: Movie, ms: seq<Movie>)
    requires SortedById(ms)
    ensures SortedById(Insert(m, ms))
  {
    if ms != [] && m.id > ms[0].id {
      InsertSorted(m, ms[1..]);
      var t := Insert(m, ms[1..]);
      forall k | 0 <= k < |t| ensures ms[0].id <= t[k].id {
        assert t[k] in multiset(t);
        assert t[k] in multiset(ms[1..]) + multiset{m};
        if t[k] in multiset(ms[1..]) {
          var q :| 0 <= q < |ms[1..]| && ms[1..][q] == t[k];
          assert ms[q + 1] == t[k];
        }
      }
    }
  }

  /** The movies come out in ascending order of id. */
  lemma {:induction false} SortByIdSorted(ms: seq<Movie>)
    ensures SortedById(SortById(ms))
  {
    if ms != [] {
      SortByIdSorted(ms[1..]);
      InsertSorted(ms[0], SortById(ms[1..]));
    }
  }

  /** The movies with id `id`, in list order. */
  function WithId(ms: seq<Movie>, id: int): seq<Movie> {
    if ms == [] then [] else (if ms[0].id == id then [ms[0]] else []) + WithId(ms[1..], id)
  }

  lemma {:induction false} WithIdAppend(a: seq<Movie>, b: seq<Movie>, id: int)
    ensures WithId(a + b, id) == WithId(a, id) + WithId(b, id)
  {
    if a == [] {
      assert a + b == b;
    } else {
      var ab := a + b;
      assert ab[0] == a[0];
      assert ab[1..] == a[1..] + b;
      WithIdAppend(a[1..], b, id);
      assert WithId(ab, id) == (if a[0].id == id then [a[0]] else []) + WithId(a[1..] + b, id);
    }
  }

  lemma {:induction false} InsertKeepsOrder(m: Movie, ms: seq<Movie>, id: int)
    requires SortedById(ms)
    ensures WithId(Insert(m, ms), id) == (if m.id == id then [m] else []) + WithId(ms, id)
  {
    if ms == [] || m.id <= ms[0].id {
      WithIdAppend([m], ms, id);
    } else {
      InsertKeepsOrder(m, ms[1..], id);
      WithIdAppend([ms[0]], Insert(m, ms[1..]), id);
      WithIdAppend([ms[0]], ms[1..], id);
      assert ms == [ms[0]] + ms[1..];
      if m.id == id {
        // every movie ahead of the insertion point has a smaller id
        assert ms[0].id < m.id;
      }
    }
  }

  /** The sort is stable: the movies sharing an id keep their relative order. */
  lemma {:induction false} SortByIdStable(ms: seq<Movie>, id: int)
    ensures WithId(SortById(ms), id) == WithId(ms, id)
  {
    if ms != [] {
      SortByIdStable(ms[1..], id);
      SortByIdSorted(ms[1..]);
      InsertKeepsOrder(ms[0], SortById(ms[1..]), id);
    }
  }

  // ---------------------------------------------------------------------------
  // Creating a screening
  // ---------------------------------------------------------------------------

  /** `!movieId || !hallId || !startTime || !price`. */
  predicate MissingField(f: SessionForm)
    ensures f.movieId.Number? && f.hallId.Number? ==>
      (MissingField(f) <==> 0 in [f.movieId.n, f.hallId.n] || "" in [f.startTime, f.price])
  {
    !Chosen(f.movieId) || !Chosen(f.hallId) || f.startTime == "" || f.price == ""
  }

  /** `sessionData`; the price is kept as the text given to `parseFloat`. */
  datatype SessionData = SessionData(movieId: Option<int>, hallId: Option<int>, startTime: string, price: string, format: string)

  function Payload(f: SessionForm): (d: SessionData)
    ensures |d.startTime| == |f.startTime| + 3
    ensures d.startTime[..|f.startTime|] == f.startTime && d.startTime[|f.startTime|..] == ":00"
    ensures d.format == f.format && d.price == f.price
  {
    SessionData(ParseSelect(f.movieId), ParseSelect(f.hallId), f.startTime + ":00", f.price, f.format)
  }

  /** Ids picked from the selects, which hold the options' numeric ids, reach the
    * payload as those ids. */
  lemma PayloadIds(movieId: int, hallId: int, startTime: string, price: string, format: string)
    ensures var d := Payload(SessionForm(Number(movieId), Number(hallId), startTime, price, format));
      d.movieId == Some(movieId) && d.hallId == Some(hallId)
  {
  }

  datatype SessionRequest = CreateSession(data: SessionData) | DeleteSession(id: int)

  /** How a request ended: success, or failure with the response body text. */
  datatype Outcome = Ok | Failed(data: Option<string>)

  /** What the three list requests of `fetchData` returned, when all succeeded. */
  datatype Lists = Lists(sessions: seq<Session>, movies: seq<Movie>, halls: seq<Hall>)

  /** The screen's state: the three lists, the form and the two messages. */
  datatype PageState = PageState(sessions: seq<Session>, movies: seq<Movie>, halls: seq<Hall>,
                                 form: SessionForm, error: string, successMessage: string)

  /** The state `fetchData` leaves: on success the lists, with the movies sorted by
    * id and movies sharing an id in response order, and no error; on failure only
    * the load message. */
  function Loaded(v: PageState, reply: Option<Lists>): (w: PageState)
    ensures w.form == v.form && w.successMessage == v.successMessage
    ensures reply.Some? ==> w.sessions == reply.value.sessions && w.halls == reply.value.halls &&
                            multiset(w.movies) == multiset(reply.value.movies) && SortedById(w.movies) &&
                            w.error == ""
    ensures reply.Some? ==> forall id :: WithId(w.movies, id) == WithId(reply.value.movies, id)
    ensures reply.None? ==> w == v.(error := MsgLoadFailed)
  {
    if reply.Some? then
      SortByIdSorted(reply.value.movies);
      assert forall id :: WithId(SortById(reply.value.movies), id) == WithId(reply.value.movies, id) by {
        forall id ensures WithId(SortById(reply.value.movies), id) == WithId(reply.value.movies, id) {
          SortByIdStable(reply.value.movies, id);
        }
      }
      v.(sessions := reply.value.sessions, movies := SortById(reply.value.movies), halls := reply.value.halls,
         error := "")
    else v.(error := MsgLoadFailed)
  }

  class SessionsAdminPage {
    var sessions: seq<Session>
    var movies: seq<Movie>
    var halls: seq<Hall>
    var form: SessionForm
    var error: string
    var successMessage: string

    function View(): PageState
      reads this
    {
      PageState(sessions, movies, halls, form, error, successMessage)
    }

    constructor ()
      ensures View() == PageState([], [], [], EmptyForm, "", "")
    {
      sessions, movies, halls := [], [], [];
      form, error, successMessage := EmptyForm, "", "";
    }

    /** `fetchData`: on success the lists, with the movies sorted by id. */
    method FetchData(reply: Option<Lists>)
      modifies this
      ensures View() == Loaded(old(View()), reply)
    {
      if reply.None? {
        error := MsgLoadFailed;
        return;
      }
      var sorted := SortById(reply.value.movies);
      sessions := reply.value.sessions;
      movies := sorted;
      halls := reply.value.halls;
      error := "";
    }

    /** `handleCreateSession`: refuse an incomplete form, else post and on success
      * reset the form; `reload` is what the following `fetchData` gets. */
    method HandleCreateSession(outcome: Outcome, reload: Option<Lists>) returns (sent: Option<SessionRequest>)
      modifies this
      ensures MissingField(old(form)) ==> sent == None && View() == old(View()).(error := MsgFillAll)
      ensures !MissingField(old(form)) ==> sent == Some(CreateSession(Payload(old(form))))
      ensures !MissingField(old(form)) && outcome.Ok? ==>
        View() == Loaded(old(View()).(successMessage := MsgCreated, form := EmptyForm), reload)
      ensures !MissingField(old(form)) && outcome.Failed? ==>
        View() == old(View()).(error := OrElse(outcome.data, MsgCreateFailed))
    {
      if !Chosen(form.movieId) || !Chosen(form.hallId) || form.startTime == "" || form.price == "" {
        error := MsgFillAll;
        return None;
      }
      var data := SessionData(ParseSelect(form.movieId), ParseSelect(form.hallId), form.startTime + ":00", form.price, form.format);
      sent := Some(CreateSession(data));
      if outcome.Failed? {
        error := OrElse(outcome.data, MsgCreateFailed);
        return;
      }
      successMessage := MsgCreated;
      form := SessionForm(Text(""), Text(""), "", "", DefaultFormat);
      FetchData(reload);
    }

    /** `handleDelete(id)`: nothing happens unless the user confirms. */
    method HandleDelete(id: int, confirmed: bool, outcome: Outcome, reload: Option<Lists>) returns (sent: Option<SessionRequest>)
      modifies this
      ensures !confirmed ==> sent == None && View() == old(View())
      ensures confirmed ==> sent == Some(DeleteSession(id))
      ensures confirmed && outcome.Ok? ==> View() == Loaded(old(View()).(successMessage := MsgDeleted), reload)
      ensures confirmed && outcome.Failed? ==> View() == old(View()).(error := OrElse(outcome.data, MsgDeleteFailed))
    {
      if !confirmed {
        return None;
      }
      sent := Some(DeleteSession(id));
      if outcome.Failed? {
        error := OrElse(outcome.data, MsgDeleteFailed);
        return;
      }
      successMessage := MsgDeleted;
      FetchData(reload);
    }
  }
}
