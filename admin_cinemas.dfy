/**
 * Cinema administration (src/pages/AdminCinemas.tsx): a three-field form checked
 * for blank fields in the order name, city, address, and the dialog handlers that
 * fill and reset it. The screen's form and dialog state is the class `CinemasPage`.
 */
module AdminCinemas {
  import opened Wrappers
  import opened JsText
  import opened FormChecks

  const MsgName: string := "Введите название кинотеатра"
  const MsgCity: string := "Введите город"
  const MsgAddress: string := "Введите адрес"
  const MsgCreated: string := "Кинотеатр успешно создан"
  const MsgUpdated: string := "Кинотеатр успешно обновлен"
  const MsgSaveFailed: string := "Ошибка сохранения кинотеатра"

  datatype Cinema = Cinema(id: int, name: string, city: string, address: string)

  datatype CinemaForm = CinemaForm(name: string, city: string, address: string)

  const EmptyForm: CinemaForm := CinemaForm("", "", "")

  /** `validateForm`. */
  function ValidateCinema(f: CinemaForm): (m: string)
    ensures m == "" <==> !IsBlank(f.name) && !IsBlank(f.city) && !IsBlank(f.address)
  {
    if IsBlank(f.name) then MsgName
    else if IsBlank(f.city) then MsgCity
    else if IsBlank(f.address) then MsgAddress
    else ""
  }

  /** The checks of `validateForm`, in order. */
  function CinemaChecks(f: CinemaForm): seq<Check> {
    [Check(IsBlank(f.name), MsgName)] + ([Check(IsBlank(f.city), MsgCity)] + [Check(IsBlank(f.address), MsgAddress)])
  }

  /** The validator reports the first blank field, in the order name, city, address. */
  lemma ValidateCinemaIsFirstFailure(f: CinemaForm)
    ensures ValidateCinema(f) == FirstFailure(CinemaChecks(f))
  {
    var c0, c1, c2 := Check(IsBlank(f.name), MsgName), Check(IsBlank(f.city), MsgCity), Check(IsBlank(f.address), MsgAddress);
    FirstFailureCons(c2, []);
    assert [c2] + [] == [c2];
    FirstFailureCons(c1, [c2]);
    FirstFailureCons(c0, [c1] + [c2]);
  }

  /** The form `handleOpenDialog` fills in for a cinema. */
  function FormOf(c: Cinema): CinemaForm {
    CinemaForm(c.name, c.city, c.address)
  }

  /** A cinema whose three fields each hold a visible character passes validation
    * unchanged when opened for editing. */
  lemma EditedCinemaValid(c: Cinema)
    requires exists k :: 0 <= k < |c.name| && !IsSpace(c.name[k])
    requires exists k :: 0 <= k < |c.city| && !IsSpace(c.city[k])
    requires exists k :: 0 <= k < |c.address| && !IsSpace(c.address[k])
    ensures ValidateCinema(FormOf(c)) == ""
  {
    BlankIffAllSpace(c.name);
    BlankIffAllSpace(c.city);
    BlankIffAllSpace(c.address);
  }

  /** The empty form `handleOpenDialog` shows for a new cinema is refused, with the
    * name message. */
  lemma EmptyFormRejected()
    ensures ValidateCinema(EmptyForm) == MsgName
  {
    EmptyIsBlank();
  }

  /** `cinemaData`. */
  datatype CinemaData = CinemaData(name: string, city: string, address: string)

  datatype CinemaRequest = UpdateCinema(id: int, data: CinemaData) | CreateCinema(data: CinemaData)

  /** How the save request ends: success, or failure with the response body text. */
  datatype SaveOutcome = Saved | SaveFailed(data: Option<string>)

  class CinemasPage {
    var dialogOpen: bool
    var editing: Option<Cinema>
    var form: CinemaForm
    var error: string
    var successMessage: string

    constructor ()
      ensures !dialogOpen && editing == None && form == EmptyForm && error == "" && successMessage == ""
    {
      dialogOpen, editing, form := false, None, EmptyForm;
      error, successMessage := "", "";
    }

    /** `handleOpenDialog(cinema)`: the cinema's fields, or an empty form. */
    method OpenDialog(c: Option<Cinema>)
      modifies this
      ensures dialogOpen && editing == c
      ensures form == if c.Some? then FormOf(c.value) else EmptyForm
      ensures error == old(error) && successMessage == old(successMessage)
    {
      if c.Some? {
        editing := c;
        form := CinemaForm(c.value.name, c.value.city, c.value.address);
      } else {
        editing := None;
        form := EmptyForm;
      }
      dialogOpen := true;
    }

    /** `handleCloseDialog`. */
    method CloseDialog()
      modifies this
      ensures !dialogOpen && editing == None && form == EmptyForm
      ensures error == old(error) && successMessage == old(successMessage)
    {
      dialogOpen := false;
      editing := None;
      form := EmptyForm;
    }

    /** `handleSubmit`: validate, send, and on success close the dialog. The list
      * reload is not modelled. */
    method HandleSubmit(save: SaveOutcome) returns (sent: Option<CinemaRequest>)
      modifies this
      ensures ValidateCinema(old(form)) != "" ==>
        sent == None && error == ValidateCinema(old(form)) && form == old(form) &&
        dialogOpen == old(dialogOpen) && editing == old(editing) && successMessage == old(successMessage)
      ensures ValidateCinema(old(form)) == "" ==> Saved(old(form), old(editing), old(dialogOpen), old(successMessage), save, sent)
    {
      var validationError := ValidateCinema(form);
      if validationError != "" {
        sent := Reject(validationError);
      } else {
        sent := Save(save);
      }
    }

    /** The `handleSubmit` path for a form that failed validation: only the message
      * is shown. */
    method Reject(m: string) returns (sent: Option<CinemaRequest>)
      modifies this
      ensures sent == None && error == m
      ensures form == old(form) && dialogOpen == old(dialogOpen) && editing == old(editing)
      ensures successMessage == old(successMessage)
    {
      error := m;
      sent := None;
    }

    /** What the save part of `handleSubmit` leaves behind, from the form and the
      * cinema being edited: the request for the form's fields, then on success a
      * closed dialog and a message, on failure the error with the dialog and the
      * success message as they were. */
    ghost predicate Saved(f: CinemaForm, ed: Option<Cinema>, wasOpen: bool, success: string, save: SaveOutcome,
                          sent: Option<CinemaRequest>)
      reads this
    {
      var data := CinemaData(f.name, f.city, f.address);
      && sent == Some(if ed.Some? then UpdateCinema(ed.value.id, data) else CreateCinema(data))
      && (save.Saved? ==>
            !dialogOpen && editing == None && form == EmptyForm && error == "" &&
            successMessage == (if ed.Some? then MsgUpdated else MsgCreated))
      && (save.SaveFailed? ==>
            error == OrElse(save.data, MsgSaveFailed) && form == f &&
            dialogOpen == wasOpen && editing == ed && successMessage == success)
    }

    /** The request and its aftermath, once the form has passed validation. */
    method Save(save: SaveOutcome) returns (sent: Option<CinemaRequest>)
      modifies this
      ensures Saved(old(form), old(editing), old(dialogOpen), old(successMessage), save, sent)
    {
      var data := CinemaData(form.name, form.city, form.address);
      if editing.Some? {
        sent := Some(UpdateCinema(editing.value.id, data));
      } else {
        sent := Some(CreateCinema(data));
      }
      if save.SaveFailed? {
        error := OrElse(save.data, MsgSaveFailed);
        return;
      }
      successMessage := if editing.Some? then MsgUpdated else MsgCreated;
      CloseDialog();
      error := "";
    }
  }
}
