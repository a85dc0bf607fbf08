/**
 * Ticket cancellation (src/api/ticketApi.ts): `cancelTicket` tries `DELETE
 * /tickets/{id}`, falls back to `PUT /tickets/{id}/cancel` when the server answers
 * 405 Method Not Allowed, and falls back again to a local simulation, which appends
 * a record to the list stored under `simulated_cancelled_tickets`, when the server
 * answers 404 or, after the PUT, 403. The outcomes of the two requests are inputs;
 * `Decide` says which requests go out and what the call does, and the class
 * `CancellationStore` carries the stored list that the simulation updates.
 */
module TicketApi {
  import opened Wrappers
  import opened JsText

  const ApiUrl: string := "http://localhost:8080/api"

  const MsgAuthRequired: string := "Требуется авторизация"
  const MsgDeleted: string := "Бронирование успешно отменено"
  const MsgCancelled: string := "Бронирование отменено"
  const MsgSimulated: string := "Бронирование отменено (симуляция - бэкенд не реализован)"
  const MsgNotOwner: string := "Вы не можете отменить этот билет. Возможно, он принадлежит другому пользователю."

  // ---------------------------------------------------------------------------
  // Requests, errors and replies
  // ---------------------------------------------------------------------------

  /** The body fields of an error response that the client reads. */
  datatype ErrorData = ErrorData(message: Option<string>, error: Option<string>)

  datatype Response = Response(status: int, data: ErrorData)

  /** A thrown error as its catcher sees it: an HTTP client error carries the
    * response (if one came) and whether a request went out; `new Error(m)` carries
    * only its message. */
  datatype Failure = Failure(response: Option<Response>, request: bool, message: Option<string>)

  function PlainError(m: string): Failure {
    Failure(None, false, Some(m))
  }

  /** `error.response?.status`. */
  function StatusOf(f: Failure): Option<int> {
    if f.response.Some? then Some(f.response.value.status) else None
  }

  /** How one request ended. */
  datatype Outcome = Succeeded | Failed(failure: Failure)

  predicate FailedWith(o: Outcome, status: int) {
    o.Failed? && StatusOf(o.failure) == Some(status)
  }

  datatype Verb = DELETE | PUT

  datatype Request = Request(verb: Verb, url: string, authorization: string)

  const TicketsUrl: string := ApiUrl + "/tickets/"

  /** `${API_URL}/tickets/${ticketId}`: the tickets path, then the id's numeral. */
  function TicketUrl(ticketId: int): (u: string)
    ensures IsPrefix(TicketsUrl, u) && u[|TicketsUrl|..] == IntToString(ticketId)
  {
    TicketsUrl + IntToString(ticketId)
  }

  /** `${API_URL}/tickets/${ticketId}/cancel`: the ticket's own URL, then "/cancel". */
  function CancelUrl(ticketId: int): (u: string)
    ensures IsPrefix(TicketUrl(ticketId), u) && u[|TicketUrl(ticketId)|..] == "/cancel"
  {
    TicketUrl(ticketId) + "/cancel"
  }

  /** Both URLs name the ticket: its id reads back from what follows the tickets
    * path (`parseInt` stops at the '/' of "/cancel"), so distinct tickets get
    * distinct URLs. */
  lemma UrlsNameTheTicket(ticketId: int)
    ensures ParseInt(TicketUrl(ticketId)[|TicketsUrl|..]) == Some(ticketId)
    ensures ParseInt(CancelUrl(ticketId)[|TicketsUrl|..]) == Some(ticketId)
  {
    var n := IntToString(ticketId);
    assert TicketUrl(ticketId)[|TicketsUrl|..] == n;
    ParseIntOfIntToString(ticketId);
    assert CancelUrl(ticketId)[|TicketsUrl|..] == n + "/cancel";
    ParseIntOfIntToStringThen(ticketId, "/cancel");
  }

  lemma TicketUrlInjective(a: int, b: int)
    requires TicketUrl(a) == TicketUrl(b) || CancelUrl(a) == CancelUrl(b)
    ensures a == b
  {
    UrlsNameTheTicket(a);
    UrlsNameTheTicket(b);
  }

  /** The `Authorization` header: the token follows the "Bearer " scheme. */
  function Bearer(token: string): (b: string)
    ensures IsPrefix("Bearer ", b) && b[|"Bearer "|..] == token
  {
    "Bearer " + token
  }

  /** The object `cancelTicket` resolves to (the server's `data` is not modelled). */
  datatype Reply = Reply(success: bool, message: string, simulation: bool)

  const SimulatedReply: Reply := Reply(true, MsgSimulated, true)

  /** What `cancelTicket` does once its requests have been answered: resolve with a
    * server-confirmed reply, run the simulation, or throw. */
  datatype Decision = Return(reply: Reply) | Simulate | Throw(failure: Failure)

  datatype Plan = Plan(requests: seq<Request>, decision: Decision)

  // ---------------------------------------------------------------------------
  // The decision tree of `cancelTicket`
  // ---------------------------------------------------------------------------

  /** `cancelTicket(ticketId)` with stored token `token`; `del` is how the DELETE
    * ends and `put` how the PUT would end if it were sent. */
  function Decide(ticketId: int, token: Option<string>, del: Outcome, put: Outcome): (p: Plan)
    ensures |p.requests| <= 2
    ensures p.requests == [] <==> !Truthy(token)
    ensures Truthy(token) ==> p.requests[0] == Request(DELETE, TicketUrl(ticketId), Bearer(token.value))
    ensures |p.requests| == 2 <==> Truthy(token) && FailedWith(del, 405)
    ensures |p.requests| == 2 ==> p.requests[1] == Request(PUT, CancelUrl(ticketId), Bearer(token.value))
    ensures p.decision.Return? ==> p.decision.reply.success && !p.decision.reply.simulation
  {
    if !Truthy(token) then Plan([], Throw(PlainError(MsgAuthRequired)))
    else
      var auth := Bearer(token.value);
      var first := Request(DELETE, TicketUrl(ticketId), auth);
      match del
      case Succeeded => Plan([first], Return(Reply(true, MsgDeleted, false)))
      case Failed(e) =>
        if StatusOf(e) == Some(405) then
          var second := Request(PUT, CancelUrl(ticketId), auth);
          match put
          case Succeeded => Plan([first, second], Return(Reply(true, MsgCancelled, false)))
          case Failed(pe) =>
            if StatusOf(pe) == Some(404) || StatusOf(pe) == Some(403) then Plan([first, second], Simulate)
            else Plan([first, second], Throw(pe))
        else if StatusOf(e) == Some(403) then Plan([first], Throw(PlainError(MsgNotOwner)))
        else if StatusOf(e) == Some(404) then Plan([first], Simulate)
        else Plan([first], Throw(e))
  }

  /** Without a token the call throws before any request. */
  lemma NoTokenNoRequest(ticketId: int, token: Option<string>, del: Outcome, put: Outcome)
    requires !Truthy(token)
    ensures Decide(ticketId, token, del, put) == Plan([], Throw(PlainError(MsgAuthRequired)))
  {
  }

  /** A successful DELETE is the whole story: one request, the success reply. */
  lemma DeleteSucceeds(ticketId: int, token: Option<string>, put: Outcome)
    requires Truthy(token)
    ensures var p := Decide(ticketId, token, Succeeded, put);
      |p.requests| == 1 && p.decision == Return(Reply(true, MsgDeleted, false))
  {
  }

  /** After a 405 exactly one PUT is sent; its success resolves, a 404 or 403
    * simulates, and any other failure is rethrown as it came. */
  lemma MethodNotAllowedFallsBack(ticketId: int, token: Option<string>, del: Outcome, put: Outcome)
    requires Truthy(token) && FailedWith(del, 405)
    ensures var p := Decide(ticketId, token, del, put);
      && |p.requests| == 2 && p.requests[1].verb == PUT
      && (put.Succeeded? ==> p.decision == Return(Reply(true, MsgCancelled, false)))
      && (FailedWith(put, 404) || FailedWith(put, 403) ==> p.decision == Simulate)
      && (put.Failed? && !FailedWith(put, 404) && !FailedWith(put, 403) ==> p.decision == Throw(put.failure))
  {
  }

  /** A DELETE failing with anything but 405: 403 throws the ownership message, 404
    * simulates, anything else is rethrown; the PUT's outcome plays no part. */
  lemma DeleteFailsOtherwise(ticketId: int, token: Option<string>, del: Outcome, put1: Outcome, put2: Outcome)
    requires Truthy(token) && del.Failed? && !FailedWith(del, 405)
    ensures var p := Decide(ticketId, token, del, put1);
      && p == Decide(ticketId, token, del, put2)
      && |p.requests| == 1
      && (FailedWith(del, 403) ==> p.decision == Throw(PlainError(MsgNotOwner)))
      && (FailedWith(del, 404) ==> p.decision == Simulate)
      && (!FailedWith(del, 403) && !FailedWith(del, 404) ==> p.decision == Throw(del.failure))
  {
  }

  /** A simulation happens exactly when the server answered 404 to the DELETE, or
    * 404 or 403 to the PUT that followed a 405. */
  lemma SimulateExactly(ticketId: int, token: Option<string>, del: Outcome, put: Outcome)
    ensures Decide(ticketId, token, del, put).decision == Simulate <==>
      Truthy(token) && (FailedWith(del, 404) || (FailedWith(del, 405) && (FailedWith(put, 404) || FailedWith(put, 403))))
  {
  }

  /** An error thrown with a server response never carries status 403 or 404: those
    * statuses are either turned into a simulation or replaced by a plain error. */
  lemma ThrownStatusNeverForbiddenOrMissing(ticketId: int, token: Option<string>, del: Outcome, put: Outcome)
    ensures var d := Decide(ticketId, token, del, put).decision;
      d.Throw? && d.failure.response.Some? ==>
        d.failure.response.value.status != 403 && d.failure.response.value.status != 404
  {
    var d := Decide(ticketId, token, del, put).decision;
    if Truthy(token) && del.Failed? {
      if StatusOf(del.failure) == Some(405) && put.Failed? {
        assert d.Throw? ==> d.failure == put.failure;
      } else if StatusOf(del.failure) != Some(405) && StatusOf(del.failure) != Some(403) {
        assert d.Throw? ==> d.failure == del.failure;
      }
    }
  }

  // ---------------------------------------------------------------------------
  // The stored list of simulated cancellations
  // ---------------------------------------------------------------------------

  /** One stored record; `cancelledAt` is the ISO time text of the clock. */
  datatype CancelRecord = CancelRecord(ticketId: int, cancelledAt: string)

  /** What `simulated_cancelled_tickets` holds: nothing, the empty string (both read
    * as `'[]'`), a list of records, or text that does not parse as a list (the
    * parse or the `push` then throws, with the engine's message `reason`). */
  datatype StoredList = Missing | EmptyText | Records(records: seq<CancelRecord>) | Unreadable(reason: string)

  /** The list as `JSON.parse(getItem(...) || '[]')` reads it. */
  function ReadList(s: StoredList): (r: Option<seq<CancelRecord>>)
    ensures r.None? <==> s.Unreadable?
    ensures s.Missing? || s.EmptyText? ==> r == Some([])
    ensures s.Records? ==> r == Some(s.records)
  {
    match s
    case Missing => Some([])
    case EmptyText => Some([])
    case Records(rs) => Some(rs)
    case Unreadable(_) => None
  }

  /** `simulateCancellation`: the list with one record for `ticketId` pushed on. */
  function Simulated(s: StoredList, ticketId: int, now: string): (r: Option<StoredList>)
    ensures r.Some? <==> ReadList(s).Some?
    ensures r.Some? ==> r.value.Records? && |r.value.records| == |ReadList(s).value| + 1
    ensures r.Some? ==> r.value.records[..|ReadList(s).value|] == ReadList(s).value
    ensures r.Some? ==> r.value.records[|ReadList(s).value|] == CancelRecord(ticketId, now)
  {
    match ReadList(s)
    case Some(rs) => Some(Records(rs + [CancelRecord(ticketId, now)]))
    case None => None
  }

  /** Two simulations in a row store the two records in call order after the earlier
    * entries. */
  lemma SimulatedTwice(s: StoredList, a: int, b: int, t1: string, t2: string)
    requires ReadList(s).Some?
    ensures var once := Simulated(s, a, t1);
      once.Some? && Simulated(once.value, b, t2) ==
        Some(Records(ReadList(s).value + [CancelRecord(a, t1), CancelRecord(b, t2)]))
  {
    var rs := ReadList(s).value;
    assert rs + [CancelRecord(a, t1)] + [CancelRecord(b, t2)] == rs + [CancelRecord(a, t1), CancelRecord(b, t2)];
  }

  /** The whole of `cancelTicket` as a value: the requests, then either a reply and the
    * stored list afterwards, or the error thrown. */
  datatype Result = Resolved(reply: Reply) | Rejected(failure: Failure)

  function Run(p: Plan, s: StoredList, ticketId: int, now: string): (rs: (Result, StoredList))
    ensures rs.1 != s ==> p.decision == Simulate
  {
    match p.decision
    case Return(reply) => (Resolved(reply), s)
    case Throw(f) => (Rejected(f), s)
    case Simulate =>
      match Simulated(s, ticketId, now)
      case Some(s2) => (Resolved(SimulatedReply), s2)
      case None => (Rejected(Failure(None, false, Some(s.reason))), s)
  }

  /** Every resolved call reports success, and a simulated one says so. */
  lemma ResolvedMeansSuccess(ticketId: int, token: Option<string>, del: Outcome, put: Outcome, s: StoredList, now: string)
    ensures var p := Decide(ticketId, token, del, put);
      var r := Run(p, s, ticketId, now).0;
      r.Resolved? ==> r.reply.success && (r.reply.simulation <==> p.decision == Simulate)
  {
  }

  // ---------------------------------------------------------------------------
  // The stored state
  // ---------------------------------------------------------------------------

  /** The two stored values `cancelTicket` touches: the session token it reads and
    * the list of simulated cancellations it extends. */
  class CancellationStore {
    var token: Option<string>
    var cancelled: StoredList

    constructor (token: Option<string>, cancelled: StoredList)
      ensures this.token == token && this.cancelled == cancelled
    {
      this.token := token;
      this.cancelled := cancelled;
    }

    /** `simulateCancellation(ticketId)` at time `now`. */
    method SimulateCancellation(ticketId: int, now: string) returns (r: Result)
      modifies this
      ensures token == old(token)
      ensures ReadList(old(cancelled)).Some? ==>
        r == Resolved(SimulatedReply) && Some(cancelled) == Simulated(old(cancelled), ticketId, now)
      ensures ReadList(old(cancelled)).None? ==>
        r == Rejected(Failure(None, false, Some(old(cancelled).reason))) && cancelled == old(cancelled)
    {
      var list := ReadList(cancelled);
      if list.None? {
        return Rejected(Failure(None, false, Some(cancelled.reason)));
      }
      var records := list.value;
      records := records + [CancelRecord(ticketId, now)];
      cancelled := Records(records);
      r := Resolved(SimulatedReply);
    }

    /** `cancelTicket(ticketId)`: the requests sent, and how the call ends. */
    method CancelTicket(ticketId: int, del: Outcome, put: Outcome, now: string) returns (sent: seq<Request>, r: Result)
      modifies this
      ensures var p := Decide(ticketId, old(token), del, put);
        sent == p.requests && (r, cancelled) == Run(p, old(cancelled), ticketId, now)
      ensures token == old(token)
    {
      sent := [];
      if !Truthy(token) {
        return sent, Rejected(PlainError(MsgAuthRequired));
      }
      var auth := Bearer(token.value);
      sent := sent + [Request(DELETE, TicketUrl(ticketId), auth)];
      if del.Succeeded? {
        return sent, Resolved(Reply(true, MsgDeleted, false));
      }
      var e := del.failure;
      if StatusOf(e) == Some(405) {
        sent := sent + [Request(PUT, CancelUrl(ticketId), auth)];
        if put.Succeeded? {
          return sent, Resolved(Reply(true, MsgCancelled, false));
        }
        var pe := put.failure;
        if StatusOf(pe) == Some(404) || StatusOf(pe) == Some(403) {
          r := SimulateCancellation(ticketId, now);
          return;
        }
        return sent, Rejected(pe);
      }
      if StatusOf(e) == Some(403) {
        return sent, Rejected(PlainError(MsgNotOwner));
      }
      if StatusOf(e) == Some(404) {
        r := SimulateCancellation(ticketId, now);
        return;
      }
      r := Rejected(e);
    }
  }
}
