/**
 * The cancellation dialog (src/components/booking/CancelBookingDialog.tsx): it picks
 * the id to cancel, calls `cancelTicket`, and on failure turns the thrown error into
 * one line of text by a fixed precedence of checks. Its state is the `loading` flag,
 * the `error` text and, here, the log of the parent's callbacks it has invoked.
 */
module CancelBookingDialog {
  import opened Wrappers
  import opened JsText
  import opened TicketApi

  const MsgDefault: string := "Не удалось отменить бронирование"
  const MsgNotFound: string := "Эндпоинт для отмены не найден на сервере"
  const MsgForbidden: string := "У вас нет прав для отмены этого бронирования"
  const MsgUnauthorized: string := "Необходима авторизация"
  const MsgNoAnswer: string := "Сервер не отвечает. Проверьте подключение к бэкенду"

  /** The fields of the `booking` prop the handler reads. */
  datatype Booking = Booking(id: int, ticketId: Option<int>)

  /** `booking.ticketId || booking.id`: a missing or zero ticket id falls back. */
  function TicketIdToCancel(b: Booking): (r: int)
    ensures r == b.id || (b.ticketId.Some? && r == b.ticketId.value)
    ensures r != 0 <==> (b.ticketId.Some? && b.ticketId.value != 0) || b.id != 0
    ensures b.ticketId.Some? && b.ticketId.value != 0 ==> r == b.ticketId.value
  {
    if b.ticketId.Some? && b.ticketId.value != 0 then b.ticketId.value else b.id
  }

  // ---------------------------------------------------------------------------
  // The error message
  // ---------------------------------------------------------------------------

  /** Which check of the catch block decides the message. */
  datatype Branch =
    | NotFound | Forbidden | Unauthorized | ServerMessage | ServerError | ServerOther
    | NoAnswer | OwnMessage | Fallback

  /** The first check that applies, in the catch block's order. */
  function Classify(f: Failure): (b: Branch)
    ensures b in {NotFound, Forbidden, Unauthorized, ServerMessage, ServerError, ServerOther} <==> f.response.Some?
    ensures b == NoAnswer <==> f.response.None? && f.request
    ensures b == NotFound <==> StatusOf(f) == Some(404)
    ensures b == Forbidden <==> StatusOf(f) == Some(403)
  {
    if f.response.Some? then
      var resp := f.response.value;
      if resp.status == 404 then NotFound
      else if resp.status == 403 then Forbidden
      else if resp.status == 401 then Unauthorized
      else if Truthy(resp.data.message) then ServerMessage
      else if Truthy(resp.data.error) then ServerError
      else ServerOther
    else if f.request then NoAnswer
    else if Truthy(f.message) then OwnMessage
    else Fallback
  }

  /** The text `handleCancelBooking` stores in `error` for a thrown `f`. */
  function ErrorMessage(f: Failure): (m: string)
    ensures m != []
    ensures Classify(f) == ServerMessage ==> m == f.response.value.data.message.value
    ensures Classify(f) == ServerError ==> m == f.response.value.data.error.value
    ensures Classify(f) == OwnMessage ==> m == f.message.value
  {
    match Classify(f)
    case NotFound => MsgNotFound
    case Forbidden => MsgForbidden
    case Unauthorized => MsgUnauthorized
    case ServerMessage => f.response.value.data.message.value
    case ServerError => f.response.value.data.error.value
    case ServerOther => MsgDefault
    case NoAnswer => MsgNoAnswer
    case OwnMessage => f.message.value
    case Fallback => MsgDefault
  }

  /** A status check wins over whatever the body says: 404, 403 and 401 each have a
    * fixed message regardless of `data`. */
  lemma StatusBeatsBody(f: Failure, data: ErrorData)
    requires f.response.Some?
    requires f.response.value.status in {404, 403, 401}
    ensures var g := f.(response := Some(f.response.value.(data := data)));
      ErrorMessage(g) == ErrorMessage(f) &&
      ErrorMessage(f) == (if f.response.value.status == 404 then MsgNotFound
                          else if f.response.value.status == 403 then MsgForbidden
                          else MsgUnauthorized)
  {
  }

  /** Without a response the body plays no part: a sent request means the server did
    * not answer, otherwise the error's own message (or the default) is shown. */
  lemma NoResponseMessage(f: Failure)
    requires f.response.None?
    ensures f.request ==> ErrorMessage(f) == MsgNoAnswer
    ensures !f.request ==> ErrorMessage(f) == OrElse(f.message, MsgDefault)
  {
  }

  /** Whatever `cancelTicket` throws, the dialog never reaches its 404 or 403 branch:
    * the call turns those statuses into a simulation or into a plain error. The
    * message the user sees for a refused DELETE is the call's ownership text, and
    * without a token it is the call's own "authorisation required" text. */
  lemma CancelErrorsSkipStatusBranches(ticketId: int, token: Option<string>, del: Outcome, put: Outcome)
    ensures var d := Decide(ticketId, token, del, put).decision;
      d.Throw? ==> Classify(d.failure) != NotFound && Classify(d.failure) != Forbidden
    ensures Truthy(token) && FailedWith(del, 403) ==>
      ErrorMessage(Decide(ticketId, token, del, put).decision.failure) == MsgNotOwner
    ensures !Truthy(token) ==>
      ErrorMessage(Decide(ticketId, token, del, put).decision.failure) == MsgAuthRequired
  {
    ThrownStatusNeverForbiddenOrMissing(ticketId, token, del, put);
  }

  // ---------------------------------------------------------------------------
  // The dialog
  // ---------------------------------------------------------------------------

  /** The parent's callbacks, in the order the dialog calls them. */
  datatype Callback = OnSuccess | OnClose

  class CancelDialog {
    var loading: bool
    var error: string
    var calls: seq<Callback>

    constructor ()
      ensures !loading && error == "" && calls == []
    {
      loading, error, calls := false, "", [];
    }

    /** The `disabled={loading}` rule shared by both action buttons. */
    predicate ButtonsEnabled()
      reads this
    {
      !loading
    }

    /** The start of `handleCancelBooking`: loading, no error shown. */
    method Begin()
      modifies this
      ensures loading && error == "" && calls == old(calls)
    {
      loading := true;
      error := "";
    }

    /** The end of `handleCancelBooking` once the call has settled with `r`. */
    method Settle(r: Result)
      modifies this
      ensures !loading
      ensures r.Resolved? ==> calls == old(calls) + [OnSuccess, OnClose] && error == old(error)
      ensures r.Rejected? ==> calls == old(calls) && error == ErrorMessage(r.failure)
    {
      if r.Resolved? {
        calls := calls + [OnSuccess];
        calls := calls + [OnClose];
      } else {
        error := ErrorMessage(r.failure);
      }
      loading := false;
    }

    /** `handleCancelBooking`: the requests sent and the dialog's state afterwards. */
    method HandleCancelBooking(b: Booking, store: CancellationStore, del: Outcome, put: Outcome, now: string)
      returns (sent: seq<Request>)
      modifies this, store
      ensures store.token == old(store.token)
      ensures !loading
      ensures var id := TicketIdToCancel(b);
        var p := Decide(id, old(store.token), del, put);
        var (r, s) := Run(p, old(store.cancelled), id, now);
        && sent == p.requests && store.cancelled == s
        && (r.Resolved? ==> calls == old(calls) + [OnSuccess, OnClose] && error == "")
        && (r.Rejected? ==> calls == old(calls) && error == ErrorMessage(r.failure))
    {
      Begin();
      var id := TicketIdToCancel(b);
      var r;
      sent, r := store.CancelTicket(id, del, put, now);
      Settle(r);
    }

    /** The confirm button: ignored while loading. */
    method ClickConfirm(b: Booking, store: CancellationStore, del: Outcome, put: Outcome, now: string)
      returns (sent: seq<Request>)
      modifies this, store
      ensures store.token == old(store.token)
      ensures old(loading) ==> sent == [] && error == old(error) && calls == old(calls) && loading
      ensures old(loading) ==> store.cancelled == old(store.cancelled)
      ensures !old(loading) ==> !loading
      ensures !old(loading) ==>
        var id := TicketIdToCancel(b);
        var p := Decide(id, old(store.token), del, put);
        var (r, s) := Run(p, old(store.cancelled), id, now);
        && sent == p.requests && store.cancelled == s
        && (r.Resolved? ==> calls == old(calls) + [OnSuccess, OnClose] && error == "")
        && (r.Rejected? ==> calls == old(calls) && error == ErrorMessage(r.failure))
    {
      if loading {
        return [];
      }
      sent := HandleCancelBooking(b, store, del, put, now);
    }

    /** The back button: closes the dialog unless a cancellation is running. */
    method ClickBack()
      modifies this
      ensures calls == if old(loading) then old(calls) else old(calls) + [OnClose]
      ensures loading == old(loading) && error == old(error)
    {
      if !loading {
        calls := calls + [OnClose];
      }
    }
  }
}
