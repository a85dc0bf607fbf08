/**
 * User administration (src/pages/AdminUsers.tsx): the user form and its ordered
 * validator (including the e-mail pattern `^[^\s@]+@[^\s@]+\.[^\s@]+$`), the request
 * body that carries a password only when one is set or the user is new, the local
 * block/unblock fallback, the active/blocked tabs, and the self-guards of the delete
 * and block handlers. The screen's state is the class `UsersPage`.
 */
module AdminUsers {
  import opened Wrappers
  import opened JsText
  import opened FormChecks

  const MsgUsername: string := "Введите имя пользователя"
  const MsgUsernameShort: string := "Имя пользователя должно содержать минимум 3 символа"
  const MsgEmail: string := "Введите email"
  const MsgEmailShape: string := "Введите корректный email"
  const MsgPassword: string := "Введите пароль"
  const MsgPasswordShort: string := "Пароль должен содержать минимум 6 символов"
  const MsgNewPasswordShort: string := "Новый пароль должен содержать минимум 6 символов"
  const MsgMismatch: string := "Пароли не совпадают"
  const MsgCreated: string := "Пользователь успешно создан"
  const MsgUpdated: string := "Пользователь успешно обновлен"
  const MsgSaveFailed: string := "Ошибка сохранения пользователя"
  const MsgLoadFailed: string := "Не удалось загрузить пользователей"
  const MsgSelfDelete: string := "Вы не можете удалить свой собственный аккаунт"
  const MsgSelfBlock: string := "Вы не можете заблокировать свой собственный аккаунт"
  const MsgDeleted: string := "Пользователь успешно удален"
  const MsgDeleteFailed: string := "Ошибка удаления пользователя"
  const MsgBlocked: string := "Пользователь заблокирован"
  const MsgUnblocked: string := "Пользователь разблокирован"
  const MsgBlockFailed: string := "Ошибка блокировки пользователя"
  const MsgUnblockFailed: string := "Ошибка разблокировки пользователя"

  datatype Role = USER | ADMIN

  /** A user as the list endpoint returns it; `isBlocked` may be absent. */
  datatype User = User(id: int, username: string, email: string, role: Role, isBlocked: Option<bool>)

  datatype UserForm = UserForm(username: string, email: string, role: Role, password: string, confirmPassword: string)

  const EmptyForm: UserForm := UserForm("", "", USER, "", "")

  // ---------------------------------------------------------------------------
  // The e-mail pattern
  // ---------------------------------------------------------------------------

  /** `[^\s@]` for every position of s[lo..hi]. */
  predicate PlainRange(s: string, lo: int, hi: int)
    requires 0 <= lo <= hi <= |s|
  {
    forall k :: lo <= k < hi ==> !IsSpace(s[k]) && s[k] != '@'
  }

  /** `/^[^\s@]+@[^\s@]+\.[^\s@]+$/.test(s)`: the text splits at an '@' at `i` and a
    * '.' at `j` into three non-empty runs of characters that are neither whitespace
    * nor '@'. */
  predicate EmailMatches(s: string)
    ensures EmailMatches(s) ==> |s| >= 5 && '@' in s && '.' in s
  {
    exists i, j :: 0 < i && i + 1 < j && j + 1 < |s| && s[i] == '@' && s[j] == '.' &&
                   PlainRange(s, 0, i) && PlainRange(s, i + 1, j) && PlainRange(s, j + 1, |s|)
  }

  /** The same set of texts described by its parts: no whitespace anywhere, exactly
    * one '@', something before it, and after it a domain holding a '.' that is
    * neither its first nor its last character. */
  predicate EmailShape(s: string) {
    && (forall k :: 0 <= k < |s| ==> !IsSpace(s[k]))
    && exists i :: 0 < i < |s| && s[i] == '@' && (forall k :: 0 <= k < |s| && k != i ==> s[k] != '@') &&
                   (exists j :: i + 1 < j < |s| - 1 && s[j] == '.')
  }

  /** The pattern accepts exactly the texts of the described shape. */
  lemma EmailMatchesIffShape(s: string)
    ensures EmailMatches(s) <==> EmailShape(s)
  {
    if EmailMatches(s) {
      var i, j :| 0 < i && i + 1 < j && j + 1 < |s| && s[i] == '@' && s[j] == '.' &&
                  PlainRange(s, 0, i) && PlainRange(s, i + 1, j) && PlainRange(s, j + 1, |s|);
      assert !IsSpace('@') && !IsSpace('.');
      assert forall k :: 0 <= k < |s| && k != i ==> s[k] != '@' by {
        forall k | 0 <= k < |s| && k != i ensures s[k] != '@' {
          if k == j { } else if k < i { } else if k < j { } else { }
        }
      }
      assert forall k :: 0 <= k < |s| ==> !IsSpace(s[k]) by {
        forall k | 0 <= k < |s| ensures !IsSpace(s[k]) {
          if k == i || k == j { } else if k < i { } else if k < j { } else { }
        }
      }
    }
    if EmailShape(s) {
      var i :| 0 < i < |s| && s[i] == '@' && (forall k :: 0 <= k < |s| && k != i ==> s[k] != '@') &&
               (exists j :: i + 1 < j < |s| - 1 && s[j] == '.');
      var j :| i + 1 < j < |s| - 1 && s[j] == '.';
      assert PlainRange(s, 0, i) && PlainRange(s, i + 1, j) && PlainRange(s, j + 1, |s|);
    }
  }

  /** Two accepted and one refused address. */
  lemma EmailExamples()
    ensures EmailMatches("a@b.c")
    ensures !EmailMatches("a@b")
  {
    var s := "a@b.c";
    assert s[1] == '@' && s[3] == '.';
    assert PlainRange(s, 0, 1) && PlainRange(s, 2, 3) && PlainRange(s, 4, 5);
    EmailMatchesIffShape("a@b");
  }

  // ---------------------------------------------------------------------------
  // Validation
  // ---------------------------------------------------------------------------

  /** `validateForm`; `editing` says whether a user is being edited. */
  function ValidateUser(f: UserForm, editing: bool): (m: string)
    ensures m in {"", MsgUsername, MsgUsernameShort, MsgEmail, MsgEmailShape, MsgPassword,
                  MsgPasswordShort, MsgNewPasswordShort, MsgMismatch}
  {
    if IsBlank(f.username) then MsgUsername
    else if |f.username| < 3 then MsgUsernameShort
    else if IsBlank(f.email) then MsgEmail
    else if !EmailMatches(f.email) then MsgEmailShape
    else PasswordMessage(f, editing)
  }

  /** The password part of `validateForm`: a new user needs a password of six or more
    * characters, an edit may leave it empty, and a typed password must match its
    * confirmation. */
  function PasswordMessage(f: UserForm, editing: bool): (m: string)
    ensures m in {"", MsgPassword, MsgPasswordShort, MsgNewPasswordShort, MsgMismatch}
  {
    if !editing && f.password == "" then MsgPassword
    else if !editing && |f.password| < 6 then MsgPasswordShort
    else if editing && f.password != "" && |f.password| < 6 then MsgNewPasswordShort
    else if f.password != "" && f.password != f.confirmPassword then MsgMismatch
    else ""
  }

  function IdentityChecks(f: UserForm): seq<Check> {
    [Check(IsBlank(f.username), MsgUsername)] +
    ([Check(|f.username| < 3, MsgUsernameShort)] +
     ([Check(IsBlank(f.email), MsgEmail)] +
      [Check(!EmailMatches(f.email), MsgEmailShape)]))
  }

  function PasswordChecks(f: UserForm, editing: bool): seq<Check> {
    [Check(!editing && f.password == "", MsgPassword)] +
    ([Check(!editing && |f.password| < 6, MsgPasswordShort)] +
     ([Check(editing && f.password != "" && |f.password| < 6, MsgNewPasswordShort)] +
      [Check(f.password != "" && f.password != f.confirmPassword, MsgMismatch)]))
  }

  /** The checks of `validateForm`, in order. */
  function UserChecks(f: UserForm, editing: bool): seq<Check> {
    IdentityChecks(f) + PasswordChecks(f, editing)
  }

  lemma FourChecks(c0: Check, c1: Check, c2: Check, c3: Check, rest: seq<Check>)
    ensures FirstFailure(([c0] + ([c1] + ([c2] + [c3]))) + rest) ==
      if c0.fails then c0.message else if c1.fails then c1.message
      else if c2.fails then c2.message else if c3.fails then c3.message else FirstFailure(rest)
  {
    assert ([c0] + ([c1] + ([c2] + [c3]))) + rest == [c0] + ([c1] + ([c2] + ([c3] + rest)));
    FirstFailureCons(c3, rest);
    FirstFailureCons(c2, [c3] + rest);
    FirstFailureCons(c1, [c2] + ([c3] + rest));
    FirstFailureCons(c0, [c1] + ([c2] + ([c3] + rest)));
  }

  lemma PasswordIsFirstFailure(f: UserForm, editing: bool)
    ensures PasswordMessage(f, editing) == FirstFailure(PasswordChecks(f, editing))
  {
    var p := PasswordChecks(f, editing);
    FourChecks(Check(!editing && f.password == "", MsgPassword),
               Check(!editing && |f.password| < 6, MsgPasswordShort),
               Check(editing && f.password != "" && |f.password| < 6, MsgNewPasswordShort),
               Check(f.password != "" && f.password != f.confirmPassword, MsgMismatch), []);
    assert p + [] == p;
  }

  /** The validator reports the first failing check of the list above. */
  lemma ValidateUserIsFirstFailure(f: UserForm, editing: bool)
    ensures ValidateUser(f, editing) == FirstFailure(UserChecks(f, editing))
  {
    var p := PasswordChecks(f, editing);
    PasswordIsFirstFailure(f, editing);
    var b0, b1, b2, b3 := IsBlank(f.username), |f.username| < 3, IsBlank(f.email), !EmailMatches(f.email);
    var c0, c1, c2, c3 := Check(b0, MsgUsername), Check(b1, MsgUsernameShort), Check(b2, MsgEmail), Check(b3, MsgEmailShape);
    assert UserChecks(f, editing) == ([c0] + ([c1] + ([c2] + [c3]))) + p;
    FourChecks(c0, c1, c2, c3, p);
    assert ValidateUser(f, editing) ==
      if b0 then MsgUsername else if b1 then MsgUsernameShort else if b2 then MsgEmail
      else if b3 then MsgEmailShape else PasswordMessage(f, editing);
  }

  /** What an accepted form satisfies, and conversely: a username of at least three
    * characters that is not blank, an address the pattern accepts, a password of at
    * least six characters that matches its confirmation, which only an edit may
    * leave empty. */
  lemma AcceptedIff(f: UserForm, editing: bool)
    ensures ValidateUser(f, editing) == "" <==>
      && !IsBlank(f.username) && |f.username| >= 3
      && EmailMatches(f.email)
      && (f.password == "" ==> editing)
      && (f.password != "" ==> |f.password| >= 6 && f.password == f.confirmPassword)
  {
    if EmailMatches(f.email) {
      EmailMatchesIffShape(f.email);
      var i :| 0 < i < |f.email| && f.email[i] == '@' && (forall k :: 0 <= k < |f.email| && k != i ==> f.email[k] != '@') &&
               (exists j :: i + 1 < j < |f.email| - 1 && f.email[j] == '.');
      NotBlankWhenStartsVisible(f.email);
    }
  }

  // ---------------------------------------------------------------------------
  // The request body
  // ---------------------------------------------------------------------------

  /** `userData`: the password field is present only when set. */
  datatype UserData = UserData(username: string, email: string, role: Role, password: Option<string>)

  function Payload(f: UserForm, editing: bool): (d: UserData)
    ensures d.password.Some? <==> f.password != "" || !editing
    ensures d.password.Some? ==> d.password.value == f.password
    ensures d.username == f.username && d.email == f.email && d.role == f.role
  {
    UserData(f.username, f.email, f.role, if f.password != "" || !editing then Some(f.password) else None)
  }

  /** An accepted new user always sends a password of at least six characters; an
    * accepted edit sends one only when a new one was typed. */
  lemma AcceptedPayloadPassword(f: UserForm, editing: bool)
    requires ValidateUser(f, editing) == ""
    ensures !editing ==> Payload(f, editing).password.Some? && |Payload(f, editing).password.value| >= 6
    ensures editing ==> (Payload(f, editing).password.Some? <==> f.password != "")
  {
    AcceptedIff(f, editing);
  }

  // ---------------------------------------------------------------------------
  // Blocking and the tabs
  // ---------------------------------------------------------------------------

  /** `u.isBlocked` read as a condition: absent counts as not blocked. */
  predicate IsBlocked(u: User)
    ensures IsBlocked(u) <==> u.isBlocked != None && u.isBlocked != Some(false)
  {
    match u.isBlocked
    case None => false
    case Some(b) => b
  }

  /** `handleLocalBlock(id, block)`: the `map` over the list. */
  function LocalBlock(users: seq<User>, id: int, block: bool): (r: seq<User>)
    ensures |r| == |users|
    ensures forall k :: 0 <= k < |users| ==>
      r[k] == if users[k].id == id then users[k].(isBlocked := Some(block)) else users[k]
  {
    seq(|users|, k requires 0 <= k < |users| =>
      if users[k].id == id then users[k].(isBlocked := Some(block)) else users[k])
  }

  /** `users.filter(u => !u.isBlocked)`. */
  function ActiveUsers(users: seq<User>): (r: seq<User>)
    ensures forall k :: 0 <= k < |r| ==> !IsBlocked(r[k])
  {
    if users == [] then []
    else (if IsBlocked(users[0]) then [] else [users[0]]) + ActiveUsers(users[1..])
  }

  /** `users.filter(u => u.isBlocked)`. */
  function BlockedUsers(users: seq<User>): (r: seq<User>)
    ensures forall k :: 0 <= k < |r| ==> IsBlocked(r[k])
  {
    if users == [] then []
    else (if IsBlocked(users[0]) then [users[0]] else []) + BlockedUsers(users[1..])
  }

  /** The two tabs split the list: together they hold every user exactly once. */
  lemma {:induction false} TabsPartition(users: seq<User>)
    ensures multiset(ActiveUsers(users)) + multiset(BlockedUsers(users)) == multiset(users)
    ensures |ActiveUsers(users)| + |BlockedUsers(users)| == |users|
  {
    if users != [] {
      TabsPartition(users[1..]);
      assert users == [users[0]] + users[1..];
    }
  }

  /** After a local block or unblock, the users with that id sit in the tab that
    * matches, and nobody else moves. */
  lemma LocalBlockMovesOnlyThatUser(users: seq<User>, id: int, block: bool, k: int)
    requires 0 <= k < |users|
    ensures var u := LocalBlock(users, id, block)[k];
      (users[k].id == id ==> IsBlocked(u) == block) &&
      (users[k].id != id ==> u == users[k])
  {
  }

  /** The list shown on tab `tab`: all users on the first tab, the active ones on
    * the second, the blocked ones on any other. */
  function CurrentUsers(users: seq<User>, tab: int): (r: seq<User>)
    ensures tab == 0 ==> r == users
    ensures tab == 1 ==> forall k :: 0 <= k < |r| ==> !IsBlocked(r[k])
    ensures tab != 0 && tab != 1 ==> forall k :: 0 <= k < |r| ==> IsBlocked(r[k])
  {
    if tab == 0 then users else if tab == 1 then ActiveUsers(users) else BlockedUsers(users)
  }

  /** Every user of the list is shown on exactly one of the second and third
    * tabs, chosen by the blocked flag, and those tabs show nobody else. */
  lemma TabsShowEachUserOnce(users: seq<User>, u: User)
    ensures u in CurrentUsers(users, 1) <==> u in users && !IsBlocked(u)
    ensures u in CurrentUsers(users, 2) <==> u in users && IsBlocked(u)
  {
    TabsPartition(users);
    var a, b := ActiveUsers(users), BlockedUsers(users);
    assert u in users <==> multiset(users)[u] > 0;
    assert u in a <==> multiset(a)[u] > 0;
    assert u in b <==> multiset(b)[u] > 0;
  }

  // ---------------------------------------------------------------------------
  // The screen
  // ---------------------------------------------------------------------------

  /** How a request ended: success, or failure with the response status and body
    * text (`data`, and its `error` and `message` fields) when a response came. */
  datatype Outcome = Ok | Failed(status: Option<int>, data: Option<string>, dataError: Option<string>, dataMessage: Option<string>)

  datatype UserRequest =
    | CreateUser(data: UserData)
    | UpdateUser(id: int, data: UserData)
    | DeleteUser(id: int)
    | BlockUser(id: int)
    | UnblockUser(id: int)

  /** The screen's state: the list, the two messages, the edit dialog and the
    * delete dialog. */
  datatype PageState = PageState(users: seq<User>, error: string, successMessage: string, dialogOpen: bool,
                                 editing: Option<User>, form: UserForm,
                                 deleteDialogOpen: bool, userToDelete: Option<User>)

  /** The state `fetchUsers` leaves: the list and no error on success, the load
    * message on failure, and nothing else changed. */
  function Reloaded(v: PageState, reply: Option<seq<User>>): (w: PageState)
    ensures w.users == (if reply.Some? then reply.value else v.users)
    ensures w.error == (if reply.Some? then "" else MsgLoadFailed)
    ensures w.(users := v.users, error := v.error) == v
  {
    if reply.Some? then v.(users := reply.value, error := "") else v.(error := MsgLoadFailed)
  }

  /** The state `handleCloseDialog` leaves. */
  function Closed(v: PageState): (w: PageState)
    ensures !w.dialogOpen && w.editing == None && w.form == EmptyForm
    ensures w.(dialogOpen := v.dialogOpen, editing := v.editing, form := v.form) == v
  {
    v.(dialogOpen := false, editing := None, form := EmptyForm)
  }

  /** The message of `handleLocalBlock`: the server's message, marked as local. */
  function LocalMessage(block: bool): (m: string)
    ensures m == (if block then MsgBlocked else MsgUnblocked) + " (локально)"
  {
    "Пользователь " + (if block then "заблокирован" else "разблокирован") + " (локально)"
  }

  /** The request `handleSubmit` sends for form `f` while editing `ed`. */
  function SaveRequest(f: UserForm, ed: Option<User>): (r: UserRequest)
    ensures (r.CreateUser? || r.UpdateUser?) && (r.CreateUser? <==> ed.None?)
    ensures r.UpdateUser? ==> r.id == ed.value.id
    ensures r.data == Payload(f, ed.Some?)
  {
    var data := Payload(f, ed.Some?);
    if ed.Some? then UpdateUser(ed.value.id, data) else CreateUser(data)
  }

  class UsersPage {
    /** The signed-in administrator's id (`user?.id`). */
    const currentUserId: Option<int>
    var users: seq<User>
    var error: string
    var successMessage: string
    var dialogOpen: bool
    var editing: Option<User>
    var form: UserForm
    var deleteDialogOpen: bool
    var userToDelete: Option<User>

    function View(): PageState
      reads this
    {
      PageState(users, error, successMessage, dialogOpen, editing, form, deleteDialogOpen, userToDelete)
    }

    /** No handler ever arms the delete dialog. */
    predicate DeleteNeverArmed()
      reads this
    {
      userToDelete == None && !deleteDialogOpen
    }

    constructor (current: Option<int>)
      ensures currentUserId == current && users == [] && error == "" && successMessage == ""
      ensures !dialogOpen && editing == None && form == EmptyForm && DeleteNeverArmed()
    {
      currentUserId := current;
      users, error, successMessage := [], "", "";
      dialogOpen, editing, form := false, None, EmptyForm;
      deleteDialogOpen, userToDelete := false, None;
    }

    /** `fetchUsers`: the list on success, a message on failure. */
    method FetchUsers(reply: Option<seq<User>>)
      modifies this
      ensures View() == Reloaded(old(View()), reply)
    {
      if reply.Some? {
        users := reply.value;
        error := "";
      } else {
        error := MsgLoadFailed;
      }
    }

    /** `handleOpenDialog(user)`: the user's fields with empty passwords, or an empty
      * form. */
    method OpenDialog(u: Option<User>)
      modifies this
      ensures dialogOpen && editing == u
      ensures form == if u.Some? then UserForm(u.value.username, u.value.email, u.value.role, "", "") else EmptyForm
      ensures users == old(users) && error == old(error) && successMessage == old(successMessage)
      ensures userToDelete == old(userToDelete) && deleteDialogOpen == old(deleteDialogOpen)
    {
      editing := u;
      if u.Some? {
        form := UserForm(u.value.username, u.value.email, u.value.role, "", "");
      } else {
        form := EmptyForm;
      }
      dialogOpen := true;
    }

    /** `handleCloseDialog`. */
    method CloseDialog()
      modifies this
      ensures View() == Closed(old(View()))
    {
      dialogOpen := false;
      editing := None;
      form := EmptyForm;
    }

    /** `handleSubmit`: validate, send, and on success reload the list with `reload`
      * and close the dialog. */
    method HandleSubmit(outcome: Outcome, reload: Option<seq<User>>) returns (sent: Option<UserRequest>)
      modifies this
      ensures Submitted(ValidateUser(old(form), old(editing).Some?), old(View()), outcome, reload, sent)
    {
      var validationError := ValidateUser(form, editing.Some?);
      if validationError != "" {
        sent := Reject(validationError);
      } else {
        sent := SubmitValid(outcome, reload);
      }
    }

    /** The `handleSubmit` path for a form that passed validation. */
    method SubmitValid(outcome: Outcome, reload: Option<seq<User>>) returns (sent: Option<UserRequest>)
      requires ValidateUser(form, editing.Some?) == ""
      modifies this
      ensures Submitted(ValidateUser(old(form), old(editing).Some?), old(View()), outcome, reload, sent)
    {
      sent := Save(outcome, reload);
    }

    /** The `handleSubmit` path for a form that failed validation: only the message
      * is shown. */
    method Reject(m: string) returns (sent: Option<UserRequest>)
      modifies this
      ensures sent == None && View() == old(View()).(error := m)
    {
      error := m;
      sent := None;
    }

    /** What `handleSubmit` leaves behind, from the state `v` it started in, when
      * validation yields `m`: a failed validation only shows its message, a passed
      * one saves. */
    ghost predicate Submitted(m: string, v: PageState, outcome: Outcome, reload: Option<seq<User>>,
                              sent: Option<UserRequest>)
      reads this
    {
      if m != "" then sent == None && View() == v.(error := m)
      else Saved(v, outcome, reload, sent)
    }

    /** What the save part of `handleSubmit` leaves behind, from the state `v` it
      * started in: the request for the form, then on success the message, the
      * reloaded list, a closed dialog and no error; on failure only the error, from
      * `data.error`, `data.message` or the default. */
    ghost predicate Saved(v: PageState, outcome: Outcome, reload: Option<seq<User>>, sent: Option<UserRequest>)
      reads this
    {
      && sent == Some(SaveRequest(v.form, v.editing))
      && View() == if outcome.Ok? then
           Closed(Reloaded(v.(successMessage := if v.editing.Some? then MsgUpdated else MsgCreated), reload)).(error := "")
         else v.(error := OrElse(outcome.dataError, OrElse(outcome.dataMessage, MsgSaveFailed)))
    }

    /** The request and its aftermath, once the form has passed validation. */
    method Save(outcome: Outcome, reload: Option<seq<User>>) returns (sent: Option<UserRequest>)
      modifies this
      ensures Saved(old(View()), outcome, reload, sent)
    {
      var data := UserData(form.username, form.email, form.role, None);
      if form.password != "" || editing.None? {
        data := data.(password := Some(form.password));
      }
      if editing.Some? {
        sent := Some(UpdateUser(editing.value.id, data));
      } else {
        sent := Some(CreateUser(data));
      }
      if outcome.Failed? {
        error := OrElse(outcome.dataError, OrElse(outcome.dataMessage, MsgSaveFailed));
        return;
      }
      successMessage := if editing.Some? then MsgUpdated else MsgCreated;
      FetchUsers(reload);
      CloseDialog();
      error := "";
    }

    /** `handleDeleteClick(user)`: its parameter shadows the signed-in user, so the
      * guard compares the clicked user with itself, holds for every click, and the
      * lines after it that would arm the delete dialog never run. */
    method HandleDeleteClick(clicked: User)
      modifies this
      ensures View() == old(View()).(error := MsgSelfDelete)
      ensures DeleteNeverArmed() == old(DeleteNeverArmed())
    {
      error := MsgSelfDelete;
    }

    /** `handleDeleteConfirm`: acts only on an armed dialog, which no handler arms. */
    method HandleDeleteConfirm(outcome: Outcome, reload: Option<seq<User>>) returns (sent: Option<UserRequest>)
      modifies this
      ensures old(userToDelete).None? ==> sent == None && View() == old(View())
      ensures old(userToDelete).Some? ==> sent == Some(DeleteUser(old(userToDelete).value.id))
      ensures old(userToDelete).Some? && outcome.Ok? ==>
        View() == Reloaded(old(View()).(successMessage := MsgDeleted), reload).(deleteDialogOpen := false,
                                                                                  userToDelete := None)
      ensures old(userToDelete).Some? && outcome.Failed? ==>
        View() == old(View()).(error := OrElse(outcome.data, MsgDeleteFailed))
    {
      if userToDelete.None? {
        return None;
      }
      sent := Some(DeleteUser(userToDelete.value.id));
      if outcome.Failed? {
        error := OrElse(outcome.data, MsgDeleteFailed);
        return;
      }
      successMessage := MsgDeleted;
      FetchUsers(reload);
      deleteDialogOpen := false;
      userToDelete := None;
    }

    /** `handleLocalBlock(id, block)`. */
    method HandleLocalBlock(id: int, block: bool)
      modifies this
      ensures View() == old(View()).(users := LocalBlock(old(users), id, block), successMessage := LocalMessage(block))
    {
      users := LocalBlock(users, id, block);
      successMessage := "Пользователь " + (if block then "заблокирован" else "разблокирован") + " (локально)";
    }

    /** `handleBlockUser(id)`: never for oneself; asks for confirmation; a 404 falls
      * back to the local block. */
    method HandleBlockUser(id: int, confirmed: bool, outcome: Outcome, reload: Option<seq<User>>)
      returns (sent: Option<UserRequest>)
      modifies this
      ensures Some(id) == currentUserId ==> sent == None && View() == old(View()).(error := MsgSelfBlock)
      ensures Some(id) != currentUserId && !confirmed ==> sent == None && View() == old(View())
      ensures Some(id) != currentUserId && confirmed ==> sent == Some(BlockUser(id))
      ensures Some(id) != currentUserId && confirmed && outcome.Ok? ==>
        View() == Reloaded(old(View()).(successMessage := MsgBlocked), reload)
      ensures Some(id) != currentUserId && confirmed && outcome.Failed? && outcome.status == Some(404) ==>
        View() == old(View()).(users := LocalBlock(old(users), id, true), successMessage := LocalMessage(true))
      ensures Some(id) != currentUserId && confirmed && outcome.Failed? && outcome.status != Some(404) ==>
        View() == old(View()).(error := OrElse(outcome.data, MsgBlockFailed))
    {
      if Some(id) == currentUserId {
        error := MsgSelfBlock;
        return None;
      }
      if !confirmed {
        return None;
      }
      sent := Some(BlockUser(id));
      if outcome.Ok? {
        successMessage := MsgBlocked;
        FetchUsers(reload);
      } else if outcome.status == Some(404) {
        HandleLocalBlock(id, true);
      } else {
        error := OrElse(outcome.data, MsgBlockFailed);
      }
    }

    /** `handleUnblockUser(id)`: asks for confirmation; a 404 falls back to the local
      * unblock. */
    method HandleUnblockUser(id: int, confirmed: bool, outcome: Outcome, reload: Option<seq<User>>)
      returns (sent: Option<UserRequest>)
      modifies this
      ensures !confirmed ==> sent == None && View() == old(View())
      ensures confirmed ==> sent == Some(UnblockUser(id))
      ensures confirmed && outcome.Ok? ==> View() == Reloaded(old(View()).(successMessage := MsgUnblocked), reload)
      ensures confirmed && outcome.Failed? && outcome.status == Some(404) ==>
        View() == old(View()).(users := LocalBlock(old(users), id, false), successMessage := LocalMessage(false))
      ensures confirmed && outcome.Failed? && outcome.status != Some(404) ==>
        View() == old(View()).(error := OrElse(outcome.data, MsgUnblockFailed))
    {
      if !confirmed {
        return None;
      }
      sent := Some(UnblockUser(id));
      if outcome.Ok? {
        successMessage := MsgUnblocked;
        FetchUsers(reload);
      } else if outcome.status == Some(404) {
        HandleLocalBlock(id, false);
      } else {
        error := OrElse(outcome.data, MsgUnblockFailed);
      }
    }
  }
}
