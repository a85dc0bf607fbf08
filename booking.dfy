/**
 * The booking page (src/pages/Booking.tsx): the ticket-count select offering one
 * to six tickets with a Russian plural label, the total price, and `handleBooking`,
 * which sends a visitor who is not logged in to the login page, refuses a count
 * below one, and otherwise assembles the booking data, reports it in an alert and
 * moves on to the profile page. No request is made: the booking is only shown.
 * The page's count and busy flag are the class `BookingPage`.
 */
module Booking {
  import opened Wrappers
  import opened JsText

  const MsgLoginFirst: string := "Пожалуйста, войдите в систему для бронирования"
  const MsgPickOne: string := "Выберите хотя бы один билет"
  const LoginPath: string := "/login"
  const ProfilePath: string := "/profile"

  const One: string := "билет"
  const Few: string := "билета"
  const Many: string := "билетов"

  /** The values of the ticket-count select. */
  const CountOptions: seq<int> := [1, 2, 3, 4, 5, 6]

  datatype User = User(id: int, username: string)

  /** The part of the loaded screening the page uses; `price` is `None` when the
    * screening failed to load. */
  datatype Screening = Screening(price: Option<int>)

  datatype BookingData = BookingData(userId: int, sessionId: Option<int>, ticketsCount: int,
                                     seats: seq<string>, totalPrice: int)

  /** What the handler does to the outside world, in order. */
  datatype Effect = Alert(text: string) | Navigate(path: string)

  /** The label after a count: `num === 1 ? "билет" : num < 5 ? "билета" : "билетов"`. */
  function TicketWord(n: int): (w: string)
    ensures w in {One, Few, Many}
    ensures w == One <==> n == 1
    ensures w == Few <==> n != 1 && n < 5
  {
    if n == 1 then One else if n < 5 then Few else Many
  }

  /** The Russian plural category of a count (Unicode CLDR plural rules for "ru"):
    * one for 1, 21, 31, …, few for 2-4, 22-24, …, many otherwise. */
  function RussianPlural(n: nat): string {
    if n % 10 == 1 && n % 100 != 11 then One
    else if 2 <= n % 10 <= 4 && !(12 <= n % 100 <= 14) then Few
    else Many
  }

  /** Every count the select offers gets the grammatically right word; the page's
    * shortcut agrees with the full rule for every count from 1 to 20. */
  lemma TicketWordAgrees(n: nat)
    requires 1 <= n <= 20
    ensures TicketWord(n) == RussianPlural(n)
  {
  }

  /** The first count where the shortcut would be wrong, were it offered. */
  lemma TicketWordDiffersAt21()
    ensures TicketWord(21) == Many && RussianPlural(21) == One
  {
  }

  /** The offered counts are exactly 1 to 6, each with its label. */
  lemma CountOptionsExact()
    ensures forall n :: n in CountOptions <==> 1 <= n <= 6
    ensures forall k :: 0 <= k < |CountOptions| ==> CountOptions[k] == k + 1
  {
  }

  /** `(session?.price || 0) * ticketsCount`. */
  function TotalPrice(s: Option<Screening>, count: int): (t: int)
    ensures s.None? || s.value.price.None? ==> t == 0
  {
    var price := if s.Some? && s.value.price.Some? then s.value.price.value else 0;
    price * count
  }

  /** The total grows with the count and, for an offered count, lies between one and
    * six times the price. */
  lemma TotalPriceBounds(price: nat, count: int, more: int)
    requires 1 <= count <= more
    ensures price <= TotalPrice(Some(Screening(Some(price))), count) <= TotalPrice(Some(Screening(Some(price))), more)
    ensures count <= 6 ==> TotalPrice(Some(Screening(Some(price))), count) <= 6 * price
  {
    assert price * count <= price * more by {
      assert price * (more - count) >= 0;
    }
    assert price * 1 <= price * count;
    if count <= 6 {
      assert price * count <= price * 6;
    }
  }

  /** The success alert: count and total on their own lines. */
  function SuccessText(count: int, total: int): (t: string)
    ensures Split(t, '\n') == ["Бронирование успешно!", "Билетов: " + IntToString(count),
                               "Сумма: " + IntToString(total) + " руб."]
  {
    var a, b, c := "Бронирование успешно!", "Билетов: " + IntToString(count), "Сумма: " + IntToString(total) + " руб.";
    NumeralHasNoNewline(count);
    NumeralHasNoNewline(total);
    ThreeLines(a, b, c);
    a + "\n" + b + "\n" + c
  }

  /** Three lines without line breaks joined by "\n" split back into themselves. */
  lemma ThreeLines(a: string, b: string, c: string)
    requires '\n' !in a && '\n' !in b && '\n' !in c
    ensures Split(a + "\n" + b + "\n" + c, '\n') == [a, b, c]
  {
    var lines := [a, b, c];
    assert Join(lines, '\n') == a + "\n" + b + "\n" + c by {
      assert lines[1..] == [b, c] && [b, c][1..] == [c];
      assert Join([b, c], '\n') == b + ['\n'] + c;
    }
    SplitJoin(lines, '\n');
  }

  lemma NumeralHasNoNewline(n: int)
    ensures '\n' !in IntToString(n)
  {
    if n < 0 {
      assert IntToString(n) == "-" + NatToString(-n);
    }
  }

  /** `parseInt(sessionId || "0")`. */
  function SessionIdOf(param: Option<string>): (id: Option<int>)
    ensures !Truthy(param) ==> id == Some(0)
  {
    ParseIntOfIntToString(0);
    ParseInt(OrElse(param, "0"))
  }

  class BookingPage {
    var ticketsCount: int
    var selectedSeats: seq<string>
    var isBooking: bool

    constructor ()
      ensures ticketsCount == 1 && selectedSeats == [] && !isBooking
    {
      ticketsCount, selectedSeats, isBooking := 1, [], false;
    }

    /** The booking button is disabled while a booking is in progress. */
    predicate ButtonEnabled()
      reads this
    {
      !isBooking
    }

    /** Choosing an entry of the count select. */
    method SelectCount(n: int)
      requires n in CountOptions
      modifies this
      ensures ticketsCount == n && selectedSeats == old(selectedSeats) && isBooking == old(isBooking)
    {
      ticketsCount := n;
    }

    /** `handleBooking`: the effects in order and the booking data assembled. The
      * `catch` branch is unreachable, since nothing in the `try` block fails. */
    method HandleBooking(user: Option<User>, sessionId: Option<string>, s: Option<Screening>)
      returns (effects: seq<Effect>, data: Option<BookingData>)
      modifies this
      ensures user.None? ==>
        effects == [Alert(MsgLoginFirst), Navigate(LoginPath)] && data == None && isBooking == old(isBooking)
      ensures user.Some? && old(ticketsCount) < 1 ==>
        effects == [Alert(MsgPickOne)] && data == None && isBooking == old(isBooking)
      ensures user.Some? && old(ticketsCount) >= 1 ==>
        data == Some(BookingData(user.value.id, SessionIdOf(sessionId), old(ticketsCount), old(selectedSeats),
                                 TotalPrice(s, old(ticketsCount)))) &&
        effects == [Alert(SuccessText(old(ticketsCount), TotalPrice(s, old(ticketsCount)))), Navigate(ProfilePath)] &&
        !isBooking
      ensures ticketsCount == old(ticketsCount) && selectedSeats == old(selectedSeats)
    {
      if user.None? {
        return [Alert(MsgLoginFirst), Navigate(LoginPath)], None;
      }
      if ticketsCount < 1 {
        return [Alert(MsgPickOne)], None;
      }
      isBooking := true;
      var price := if s.Some? && s.value.price.Some? then s.value.price.value else 0;
      var booking := BookingData(user.value.id, ParseInt(OrElse(sessionId, "0")), ticketsCount, selectedSeats,
                                 price * ticketsCount);
      data := Some(booking);
      effects := [Alert(SuccessText(ticketsCount, booking.totalPrice)), Navigate(ProfilePath)];
      isBooking := false;
    }
  }

  /** A logged-in booking with an offered count always goes through and leaves the
    * button enabled again. */
  method BookingGoesThrough(user: User, n: int) returns (ok: bool)
    requires n in CountOptions
    ensures ok
  {
    var page := new BookingPage();
    page.SelectCount(n);
    var effects, data := page.HandleBooking(Some(user), None, None);
    ok := data.Some? && data.value.totalPrice == 0 && data.value.sessionId == Some(0) &&
          effects[1] == Navigate(ProfilePath) && page.ButtonEnabled();
  }
}
