/**
 * Hall administration (src/pages/AdminHalls.tsx): the hall form holds four text
 * fields; `validateForm` checks them in a fixed order, reading the numbers with
 * `parseInt`, whose NaN makes every comparison false; `handleSubmit` builds the
 * request body from the parsed numbers. The screen's form and dialog state is the
 * class `HallsPage`.
 */
module AdminHalls {
  import opened Wrappers
  import opened JsText
  import opened FormChecks

  const MsgName: string := "Введите название зала"
  const MsgRows: string := "Введите корректное количество рядов"
  const MsgSeats: string := "Введите корректное количество мест в ряду"
  const MsgCinema: string := "Выберите кинотеатр"
  const MsgTooBig: string := "Слишком большой зал (максимум 300 мест)"
  const MsgTooSmall: string := "Слишком маленький зал (минимум 10 мест)"
  const MsgCreated: string := "Зал успешно создан"
  const MsgUpdated: string := "Зал успешно обновлен"
  const MsgSaveFailed: string := "Ошибка сохранения зала"

  const MaxSeats: int := 300
  const MinSeats: int := 10

  /** A hall as the list endpoint returns it. */
  datatype Hall = Hall(id: int, name: string, rows: int, seatsPerRow: int, cinemaId: int, cinemaName: string)

  /** The form: the text of each input, and the cinema select's value (a picked
    * cinema's numeric id, or text). */
  datatype HallForm = HallForm(name: string, rows: string, seatsPerRow: string, cinemaId: SelectValue)

  const EmptyForm: HallForm := HallForm("", "", "", Text(""))

  // ---------------------------------------------------------------------------
  // Numbers that may be NaN
  // ---------------------------------------------------------------------------

  /** `x <= k` where `x` may be NaN (`None`): false for NaN. */
  predicate AtMost(x: Option<int>, k: int) {
    x.Some? && x.value <= k
  }

  /** `x > k`, false for NaN. */
  predicate Above(x: Option<int>, k: int) {
    x.Some? && x.value > k
  }

  /** `x < k`, false for NaN. */
  predicate Below(x: Option<int>, k: int) {
    x.Some? && x.value < k
  }

  /** `a * b`: NaN when either factor is. */
  function Times(a: Option<int>, b: Option<int>): (r: Option<int>)
    ensures r.Some? <==> a.Some? && b.Some?
    ensures r.Some? ==> r.value == a.value * b.value
  {
    if a.Some? && b.Some? then Some(a.value * b.value) else None
  }

  /** `getTotalSeats(rows, seatsPerRow)`. */
  function TotalSeats(rows: int, seatsPerRow: int): (t: int)
    ensures rows > 0 && seatsPerRow > 0 ==> t >= rows && t >= seatsPerRow
    ensures rows == 0 || seatsPerRow == 0 ==> t == 0
  {
    rows * seatsPerRow
  }

  // ---------------------------------------------------------------------------
  // Validation
  // ---------------------------------------------------------------------------

  /** `validateForm`: the first failing check's message, or "". */
  function ValidateHall(f: HallForm): (m: string)
    ensures m in {"", MsgName, MsgRows, MsgSeats, MsgCinema, MsgTooBig, MsgTooSmall}
  {
    ValidateParsed(f, ParseInt(f.rows), ParseInt(f.seatsPerRow))
  }

  /** `validateForm` once `parseInt` has read the rows as `r` and the seats as `s`. */
  function ValidateParsed(f: HallForm, r: Option<int>, s: Option<int>): (m: string)
    ensures m in {"", MsgName, MsgRows, MsgSeats, MsgCinema, MsgTooBig, MsgTooSmall}
  {
    if IsBlank(f.name) then MsgName
    else if f.rows == "" || AtMost(r, 0) then MsgRows
    else if f.seatsPerRow == "" || AtMost(s, 0) then MsgSeats
    else if !Chosen(f.cinemaId) then MsgCinema
    else
      var total := Times(r, s);
      if Above(total, MaxSeats) then MsgTooBig
      else if Below(total, MinSeats) then MsgTooSmall
      else ""
  }

  /** The checks of `validateForm`, in order, for parsed numbers `r` and `s`. */
  function HallChecks(f: HallForm, r: Option<int>, s: Option<int>): seq<Check> {
    [Check(IsBlank(f.name), MsgName)] + NumberChecks(f, r, s)
  }

  function NumberChecks(f: HallForm, r: Option<int>, s: Option<int>): seq<Check> {
    [Check(f.rows == "" || AtMost(r, 0), MsgRows)] +
    ([Check(f.seatsPerRow == "" || AtMost(s, 0), MsgSeats)] +
     ([Check(!Chosen(f.cinemaId), MsgCinema)] + TotalChecks(Times(r, s))))
  }

  function TotalChecks(total: Option<int>): seq<Check> {
    [Check(Above(total, MaxSeats), MsgTooBig)] + [Check(Below(total, MinSeats), MsgTooSmall)]
  }

  /** The validator reports the first failing check of the list above. */
  lemma ValidateHallIsFirstFailure(f: HallForm)
    ensures ValidateHall(f) == FirstFailure(HallChecks(f, ParseInt(f.rows), ParseInt(f.seatsPerRow)))
  {
    ParsedIsFirstFailure(f, ParseInt(f.rows), ParseInt(f.seatsPerRow));
  }

  /** The same, whatever `parseInt` made of the two numbers. */
  lemma ParsedIsFirstFailure(f: HallForm, r: Option<int>, s: Option<int>)
    ensures ValidateParsed(f, r, s) == FirstFailure(HallChecks(f, r, s))
  {
    TotalChecksFirstFailure(Times(r, s));
    NumberChecksFirstFailure(f, r, s);
    FirstFailureCons(Check(IsBlank(f.name), MsgName), NumberChecks(f, r, s));
  }

  lemma NumberChecksFirstFailure(f: HallForm, r: Option<int>, s: Option<int>)
    ensures FirstFailure(NumberChecks(f, r, s)) ==
      if f.rows == "" || AtMost(r, 0) then MsgRows
      else if f.seatsPerRow == "" || AtMost(s, 0) then MsgSeats
      else if !Chosen(f.cinemaId) then MsgCinema
      else FirstFailure(TotalChecks(Times(r, s)))
  {
    var t := TotalChecks(Times(r, s));
    var t3 := [Check(!Chosen(f.cinemaId), MsgCinema)] + t;
    FirstFailureCons(Check(!Chosen(f.cinemaId), MsgCinema), t);
    var t2 := [Check(f.seatsPerRow == "" || AtMost(s, 0), MsgSeats)] + t3;
    FirstFailureCons(Check(f.seatsPerRow == "" || AtMost(s, 0), MsgSeats), t3);
    FirstFailureCons(Check(f.rows == "" || AtMost(r, 0), MsgRows), t2);
  }

  lemma TotalChecksFirstFailure(total: Option<int>)
    ensures FirstFailure(TotalChecks(total)) ==
      if Above(total, MaxSeats) then MsgTooBig else if Below(total, MinSeats) then MsgTooSmall else ""
  {
    var last := Check(Below(total, MinSeats), MsgTooSmall);
    FirstFailureCons(last, []);
    assert [last] + [] == [last];
    FirstFailureCons(Check(Above(total, MaxSeats), MsgTooBig), [last]);
  }

  /** `parseInt("")` is NaN, so the empty-field tests only repeat what the numeric
    * tests already reject. */
  lemma EmptyIsNaN()
    ensures ParseInt("") == None
  {
  }

  /** With numeric rows and seats, an accepted form has a positive number of rows and
    * of seats per row and a total between 10 and 300, and every such form is
    * accepted. */
  lemma AcceptedNumericBounds(f: HallForm)
    requires ParseInt(f.rows).Some? && ParseInt(f.seatsPerRow).Some?
    ensures var r, s := ParseInt(f.rows).value, ParseInt(f.seatsPerRow).value;
      ValidateHall(f) == "" <==>
        !IsBlank(f.name) && Chosen(f.cinemaId) && r > 0 && s > 0 && MinSeats <= r * s <= MaxSeats
  {
    EmptyIsNaN();
    var r, s := ParseInt(f.rows).value, ParseInt(f.seatsPerRow).value;
    ParsedNumericBounds(f, r, s);
  }

  lemma ParsedNumericBounds(f: HallForm, r: int, s: int)
    requires f.rows != "" && f.seatsPerRow != ""
    ensures ValidateParsed(f, Some(r), Some(s)) == "" <==>
      !IsBlank(f.name) && Chosen(f.cinemaId) && r > 0 && s > 0 && MinSeats <= r * s <= MaxSeats
  {
  }

  /** `parseInt("abc")` is NaN. */
  lemma LettersAreNaN()
    ensures ParseInt("abc") == None
  {
    assert TrimStart("abc") == "abc";
    assert LeadingDigits("abc", 10) == [];
  }

  /** When `parseInt` reads the rows or the seats per row as NaN, the total is NaN
    * and neither bound on it fails: such a form is accepted exactly when the name is
    * not blank, both number fields and the cinema are filled in, and neither number
    * is a non-positive one. */
  lemma NotANumberAccepted(f: HallForm)
    requires ParseInt(f.rows).None? || ParseInt(f.seatsPerRow).None?
    ensures ValidateHall(f) == "" <==>
      && !IsBlank(f.name) && f.rows != "" && f.seatsPerRow != "" && Chosen(f.cinemaId)
      && !AtMost(ParseInt(f.rows), 0) && !AtMost(ParseInt(f.seatsPerRow), 0)
  {
    ParsedNotANumberAccepted(f, ParseInt(f.rows), ParseInt(f.seatsPerRow));
  }

  lemma ParsedNotANumberAccepted(f: HallForm, r: Option<int>, s: Option<int>)
    requires r.None? || s.None?
    ensures ValidateParsed(f, r, s) == "" <==>
      && !IsBlank(f.name) && f.rows != "" && f.seatsPerRow != "" && Chosen(f.cinemaId)
      && !AtMost(r, 0) && !AtMost(s, 0)
  {
    assert Times(r, s).None?;
  }

  /** In particular a form whose rows and seats are "abc" is accepted. */
  lemma LettersAccepted()
    ensures ValidateHall(HallForm("Зал 1", "abc", "abc", Number(1))) == ""
  {
    LettersAreNaN();
    NotBlankWhenStartsVisible("Зал 1");
    NotANumberAccepted(HallForm("Зал 1", "abc", "abc", Number(1)));
  }

  /** A cinema of id 0 picked from the select is falsy, so the form is refused; the
    * same id put in as text by the edit dialog passes this check. */
  lemma CinemaZeroRefused(f: HallForm)
    requires f.cinemaId == Number(0)
    ensures ValidateHall(f) != ""
    ensures ValidateHall(f.(cinemaId := Text(IntToString(0)))) != MsgCinema
  {
    ZeroNotChosen();
    var g := f.(cinemaId := Text(IntToString(0)));
    ParsedCinemaCheck(f, ParseInt(f.rows), ParseInt(f.seatsPerRow));
    ParsedCinemaCheck(g, ParseInt(g.rows), ParseInt(g.seatsPerRow));
  }

  lemma ParsedCinemaCheck(f: HallForm, r: Option<int>, s: Option<int>)
    ensures !Chosen(f.cinemaId) ==> ValidateParsed(f, r, s) != ""
    ensures ValidateParsed(f, r, s) == MsgCinema ==> !Chosen(f.cinemaId)
  {
    var m := ValidateParsed(f, r, s);
    if IsBlank(f.name) {
      assert m == MsgName;
    } else if f.rows == "" || AtMost(r, 0) {
      assert m == MsgRows;
    } else if f.seatsPerRow == "" || AtMost(s, 0) {
      assert m == MsgSeats;
    } else if !Chosen(f.cinemaId) {
      assert m == MsgCinema;
    } else {
      assert m != MsgCinema;
    }
  }

  // ---------------------------------------------------------------------------
  // The request body
  // ---------------------------------------------------------------------------

  /** `hallData`: the name as typed, the numbers as parsed (NaN as `None`) and the
    * cinema nested as `{id}`. */
  datatype CinemaRef = CinemaRef(id: Option<int>)
  datatype HallData = HallData(name: string, rows: Option<int>, seatsPerRow: Option<int>, cinema: CinemaRef)

  function Payload(f: HallForm): (d: HallData)
    ensures d.name == f.name
    ensures f.cinemaId.Number? ==> d.cinema.id == Some(f.cinemaId.n)
    ensures d.rows.None? <==> ParseInt(f.rows).None?
    ensures d.seatsPerRow.None? <==> ParseInt(f.seatsPerRow).None?
  {
    HallData(f.name, ParseInt(f.rows), ParseInt(f.seatsPerRow), CinemaRef(ParseSelect(f.cinemaId)))
  }

  /** An accepted form with numeric fields sends positive numbers whose product
    * lies within the seat limits. */
  lemma AcceptedPayload(f: HallForm)
    requires ParseInt(f.rows).Some? && ParseInt(f.seatsPerRow).Some?
    requires ValidateHall(f) == ""
    ensures var d := Payload(f);
      d.rows.Some? && d.seatsPerRow.Some? && d.rows.value > 0 && d.seatsPerRow.value > 0 &&
      MinSeats <= TotalSeats(d.rows.value, d.seatsPerRow.value) <= MaxSeats
  {
    AcceptedNumericBounds(f);
  }

  /** The form `handleOpenDialog` fills in for a hall. */
  function FormOf(h: Hall): HallForm {
    HallForm(h.name, IntToString(h.rows), IntToString(h.seatsPerRow), Text(IntToString(h.cinemaId)))
  }

  /** Saving an edited hall without changing the form sends back the hall's own
    * numbers and cinema. */
  lemma EditedPayloadRoundTrip(h: Hall)
    ensures Payload(FormOf(h)) == HallData(h.name, Some(h.rows), Some(h.seatsPerRow), CinemaRef(Some(h.cinemaId)))
  {
    ParseIntOfIntToString(h.rows);
    ParseIntOfIntToString(h.seatsPerRow);
    ParseIntOfIntToString(h.cinemaId);
  }

  /** A hall with a non-blank name and 10 to 300 seats in positive rows passes
    * validation when opened for editing, and its total is what the form checked. */
  lemma EditedHallValid(h: Hall)
    requires !IsBlank(h.name) && h.rows > 0 && h.seatsPerRow > 0
    requires MinSeats <= TotalSeats(h.rows, h.seatsPerRow) <= MaxSeats
    ensures ValidateHall(FormOf(h)) == ""
  {
    ParseIntOfIntToString(h.rows);
    ParseIntOfIntToString(h.seatsPerRow);
    AcceptedNumericBounds(FormOf(h));
  }

  /** The request `handleSubmit` sends: a PUT for the hall being edited, a POST
    * otherwise. */
  datatype HallRequest = UpdateHall(id: int, data: HallData) | CreateHall(data: HallData)

  /** How the save request ends: success, or failure with the response body text. */
  datatype SaveOutcome = Saved | SaveFailed(data: Option<string>)

  // ---------------------------------------------------------------------------
  // The screen
  // ---------------------------------------------------------------------------

  class HallsPage {
    var dialogOpen: bool
    var editing: Option<Hall>
    var form: HallForm
    var error: string
    var successMessage: string

    constructor ()
      ensures !dialogOpen && editing == None && form == EmptyForm && error == "" && successMessage == ""
    {
      dialogOpen, editing, form := false, None, EmptyForm;
      error, successMessage := "", "";
    }

    /** `handleOpenDialog(hall)`: the hall's values as text, or an empty form. */
    method OpenDialog(hall: Option<Hall>)
      modifies this
      ensures dialogOpen && editing == hall
      ensures form == if hall.Some? then FormOf(hall.value) else EmptyForm
      ensures error == old(error) && successMessage == old(successMessage)
    {
      editing := hall;
      if hall.Some? {
        var h := hall.value;
        form := HallForm(h.name, IntToString(h.rows), IntToString(h.seatsPerRow), Text(IntToString(h.cinemaId)));
      } else {
        form := EmptyForm;
      }
      dialogOpen := true;
    }

    /** `handleCloseDialog`. */
    method CloseDialog()
      modifies this
      ensures !dialogOpen && editing == None && form == EmptyForm
      ensures error == old(error) && successMessage == old(successMessage)
    {
      dialogOpen := false;
      editing := None;
      form := EmptyForm;
    }

    /** `handleSubmit`: validate, then send the body and, on success, close the
      * dialog; `save` is how the request ends. The list reload is not modelled. */
    method HandleSubmit(save: SaveOutcome) returns (sent: Option<HallRequest>)
      modifies this
      ensures ValidateHall(old(form)) != "" ==>
        sent == None && error == ValidateHall(old(form)) &&
        form == old(form) && dialogOpen == old(dialogOpen) && editing == old(editing) &&
        successMessage == old(successMessage)
      ensures ValidateHall(old(form)) == "" ==>
        sent == Some(if old(editing).Some? then UpdateHall(old(editing).value.id, Payload(old(form)))
                     else CreateHall(Payload(old(form))))
      ensures ValidateHall(old(form)) == "" && save.Saved? ==>
        !dialogOpen && editing == None && form == EmptyForm && error == "" &&
        successMessage == (if old(editing).Some? then MsgUpdated else MsgCreated)
      ensures ValidateHall(old(form)) == "" && save.SaveFailed? ==>
        error == OrElse(save.data, MsgSaveFailed) &&
        form == old(form) && dialogOpen == old(dialogOpen) && editing == old(editing) &&
        successMessage == old(successMessage)
    {
      var validationError := ValidateHall(form);
      if validationError != "" {
        error := validationError;
        return None;
      }
      var data := Payload(form);
      if editing.Some? {
        sent := Some(UpdateHall(editing.value.id, data));
      } else {
        sent := Some(CreateHall(data));
      }
      if save.SaveFailed? {
        error := OrElse(save.data, MsgSaveFailed);
        return;
      }
      successMessage := if editing.Some? then MsgUpdated else MsgCreated;
      CloseDialog();
      error := "";
    }
  }
}
