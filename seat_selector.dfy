/**
 * The seat map of one screening (src/components/SeatSelector.tsx): a grid of seats
 * with a status each, the ordered list of seat keys the user has selected, and the
 * list of keys the server reports as taken. The pure step functions say what each
 * handler does to the component's state; the class `SeatMap` performs the same
 * updates field by field and is proved to agree with them.
 */
module SeatSelector {
  import opened Wrappers
  import opened JsText

  // ---------------------------------------------------------------------------
  // Data
  // ---------------------------------------------------------------------------

  datatype SeatStatus = Available | Selected | Booked | Unavailable

  /** One cell of the grid; `row` and `seat` are 1-based. */
  datatype Seat = Seat(row: int, seat: int, status: SeatStatus)

  /** The grid, row by row. */
  type Grid = seq<seq<Seat>>

  /** The fields the client reads from a record of `GET /tickets/session/{id}`. */
  datatype Ticket = Ticket(rowNumber: int, seatNumber: int, status: string)

  /** What the availability probe `GET /tickets/check-seat` produced: the boolean
    * body of a successful reply, or a failure with the HTTP status if a response came. */
  datatype ProbeReply = Answered(free: bool) | ProbeFailed(status: Option<int>)

  /** What `GET /tickets/session/{id}` produced. */
  datatype FetchReply = Fetched(tickets: seq<Ticket>) | FetchFailed

  const MsgSignIn: string := "Для выбора мест необходимо войти в систему"
  const MsgNoToken: string := "Токен не найден. Пожалуйста, войдите снова."
  const MsgForbidden: string := "Доступ запрещен. Пожалуйста, войдите снова."
  const MsgUnauthorized: string := "Необходима авторизация"
  const MsgSessionNotFound: string := "Сеанс не найден"
  const MsgAlreadyBooked: string := "Это место уже забронировано"
  const MsgUnavailable: string := "Место сейчас недоступно"

  // ---------------------------------------------------------------------------
  // Seat keys `${row}-${seat}`
  // ---------------------------------------------------------------------------

  /** The row's numeral, a dash and the seat's numeral: the first dash after the
    * first character (which may be the row's minus sign) ends the row. */
  function SeatKey(row: int, seat: int): (k: string)
    ensures DashFrom(k, 1) == |IntToString(row)|
  {
    DashAfterNumeral(IntToString(row), IntToString(seat), 1);
    IntToString(row) + "-" + IntToString(seat)
  }

  /** The first index at or after `i` holding '-', or |k| if there is none. */
  function DashFrom(k: string, i: nat): (d: nat)
    ensures i <= d <= |k| || (i > |k| && d == |k|)
    ensures d < |k| ==> k[d] == '-'
    ensures forall j :: i <= j < d ==> k[j] != '-'
    decreases |k| - i
  {
    if i >= |k| then |k| else if k[i] == '-' then i else DashFrom(k, i + 1)
  }

  /** Reads a seat key back: the row is what precedes the first '-' after the
    * first character (a row may carry a minus sign), the seat what follows it. */
  function ParseSeatKey(k: string): (r: Option<(int, int)>)
    ensures (forall j :: 1 <= j < |k| ==> k[j] != '-') ==> r.None?
    ensures r.Some? ==> exists d :: 1 <= d < |k| && k[d] == '-' && (forall j :: 1 <= j < d ==> k[j] != '-') &&
                                    ParseInt(k[..d]) == Some(r.value.0) && ParseInt(k[d + 1..]) == Some(r.value.1)
  {
    var d := DashFrom(k, 1);
    if d >= |k| then None
    else
      match (ParseInt(k[..d]), ParseInt(k[d + 1..]))
      case (Some(r), Some(s)) => Some((r, s))
      case _ => None
  }

  lemma {:induction false} DashAfterNumeral(a: string, rest: string, i: nat)
    requires 1 <= i <= |a|
    requires forall k :: 0 < k < |a| ==> IsDecimalDigit(a[k])
    ensures DashFrom(a + "-" + rest, i) == |a|
    decreases |a| - i
  {
    var k := a + "-" + rest;
    if i < |a| {
      assert k[i] == a[i];
      DashAfterNumeral(a, rest, i + 1);
    } else {
      assert k[i] == '-';
    }
  }

  /** A seat key reads back as the row and seat it was built from. */
  lemma ParseSeatKeyRoundTrip(row: int, seat: int)
    ensures ParseSeatKey(SeatKey(row, seat)) == Some((row, seat))
  {
    var a, b := IntToString(row), IntToString(seat);
    var k := SeatKey(row, seat);
    assert k[..|a|] == a;
    assert k[|a| + 1..] == b;
    ParseIntOfIntToString(row);
    ParseIntOfIntToString(seat);
  }

  /** Two seats share a key only if they are the same seat, so comparing keys as
    * strings compares seats by value. */
  lemma SeatKeyInjective(r1: int, s1: int, r2: int, s2: int)
    requires SeatKey(r1, s1) == SeatKey(r2, s2)
    ensures r1 == r2 && s1 == s2
  {
    ParseSeatKeyRoundTrip(r1, s1);
    ParseSeatKeyRoundTrip(r2, s2);
  }

  /** The key the merge computes for the cell at 0-based position (i, j). */
  function KeyAt(i: int, j: int): string {
    SeatKey(i + 1, j + 1)
  }

  // ---------------------------------------------------------------------------
  // The grid
  // ---------------------------------------------------------------------------

  predicate InGrid(g: Grid, row: int, seat: int) {
    1 <= row <= |g| && 1 <= seat <= |g[row - 1]|
  }

  /** Every cell records its own 1-based position. */
  ghost predicate Coordinates(g: Grid) {
    forall i, j :: 0 <= i < |g| && 0 <= j < |g[i]| ==> g[i][j].row == i + 1 && g[i][j].seat == j + 1
  }

  ghost predicate SameShape(g: Grid, h: Grid) {
    |g| == |h| && forall i :: 0 <= i < |g| ==> |g[i]| == |h[i]|
  }

  /** The grid `initializeSeats` builds: `rows` rows of `perRow` available seats,
    * each recording its own 1-based position. */
  ghost function FreshGrid(rows: int, perRow: int): Grid {
    seq(if rows > 0 then rows else 0, i =>
      seq(if perRow > 0 then perRow else 0, j => Seat(i + 1, j + 1, Available)))
  }

  /** `initializeSeats`: two nested counting loops pushing one available seat per
    * position. A non-positive row count gives no rows; a non-positive seat count
    * gives rows without seats. */
  method BuildGrid(rows: int, perRow: int) returns (g: Grid)
    ensures |g| == (if rows > 0 then rows else 0)
    ensures forall i :: 0 <= i < |g| ==> |g[i]| == (if perRow > 0 then perRow else 0)
    ensures forall i, j :: 0 <= i < |g| && 0 <= j < |g[i]| ==> g[i][j] == Seat(i + 1, j + 1, Available)
    ensures g == FreshGrid(rows, perRow)
  {
    g := [];
    var row := 1;
    while row <= rows
      invariant 1 <= row && row - 1 <= (if rows > 0 then rows else 0)
      invariant |g| == row - 1
      invariant forall i :: 0 <= i < |g| ==> |g[i]| == (if perRow > 0 then perRow else 0)
      invariant forall i, j :: 0 <= i < |g| && 0 <= j < |g[i]| ==> g[i][j] == Seat(i + 1, j + 1, Available)
    {
      var rowSeats: seq<Seat> := [];
      var seat := 1;
      while seat <= perRow
        invariant 1 <= seat && seat - 1 <= (if perRow > 0 then perRow else 0)
        invariant |rowSeats| == seat - 1
        invariant forall j :: 0 <= j < |rowSeats| ==> rowSeats[j] == Seat(row, j + 1, Available)
      {
        rowSeats := rowSeats + [Seat(row, seat, Available)];
        seat := seat + 1;
      }
      g := g + [rowSeats];
      row := row + 1;
    }
    ghost var target := FreshGrid(rows, perRow);
    forall i | 0 <= i < |g| ensures g[i] == target[i] {
      assert |g[i]| == |target[i]|;
    }
  }

  /** The grid with the status of seat (row, seat) replaced, as the click handler's
    * nested `map` does; positions outside the grid match no cell. */
  function SetStatus(g: Grid, row: int, seat: int, st: SeatStatus): (h: Grid)
    ensures SameShape(g, h)
    ensures InGrid(g, row, seat) ==> h[row - 1][seat - 1] == g[row - 1][seat - 1].(status := st)
    ensures forall i, j :: 0 <= i < |g| && 0 <= j < |g[i]| && !(i + 1 == row && j + 1 == seat) ==> h[i][j] == g[i][j]
  {
    seq(|g|, i requires 0 <= i < |g| =>
      seq(|g[i]|, j requires 0 <= j < |g[i]| =>
        if i + 1 == row && j + 1 == seat then g[i][j].(status := st) else g[i][j]))
  }

  /** The merge of `fetchBookedSeats`: a cell whose key is booked becomes booked, a
    * selected cell that is not booked becomes available, every other cell is kept. */
  function MergeBooked(g: Grid, booked: seq<string>): (h: Grid)
    ensures SameShape(g, h)
    ensures forall i, j :: 0 <= i < |g| && 0 <= j < |g[i]| ==>
      h[i][j].row == g[i][j].row && h[i][j].seat == g[i][j].seat
    ensures forall i, j :: 0 <= i < |g| && 0 <= j < |g[i]| && KeyAt(i, j) in booked ==> h[i][j].status == Booked
    ensures forall i, j :: 0 <= i < |g| && 0 <= j < |g[i]| && KeyAt(i, j) !in booked && g[i][j].status == Selected ==>
      h[i][j].status == Available
    ensures forall i, j :: 0 <= i < |g| && 0 <= j < |g[i]| && KeyAt(i, j) !in booked && g[i][j].status != Selected ==>
      h[i][j] == g[i][j]
  {
    seq(|g|, i requires 0 <= i < |g| =>
      seq(|g[i]|, j requires 0 <= j < |g[i]| =>
        g[i][j].(status :=
          if KeyAt(i, j) in booked then Booked
          else if g[i][j].status == Selected then Available
          else g[i][j].status)))
  }

  /** The grid part of `clearSelection`: selected cells become available. */
  function ClearGrid(g: Grid): (h: Grid)
    ensures SameShape(g, h)
    ensures forall i, j :: 0 <= i < |g| && 0 <= j < |g[i]| && g[i][j].status == Selected ==>
      h[i][j] == g[i][j].(status := Available)
    ensures forall i, j :: 0 <= i < |g| && 0 <= j < |g[i]| && g[i][j].status != Selected ==> h[i][j] == g[i][j]
  {
    seq(|g|, i requires 0 <= i < |g| =>
      seq(|g[i]|, j requires 0 <= j < |g[i]| =>
        if g[i][j].status == Selected then g[i][j].(status := Available) else g[i][j]))
  }

  ghost predicate NoneSelected(g: Grid) {
    forall i, j :: 0 <= i < |g| && 0 <= j < |g[i]| ==> g[i][j].status != Selected
  }

  /** A booked cell stays booked through a merge, whatever the new booked list says. */
  lemma MergeKeepsBooked(g: Grid, booked: seq<string>, i: int, j: int)
    requires 0 <= i < |g| && 0 <= j < |g[i]| && g[i][j].status == Booked
    ensures MergeBooked(g, booked)[i][j].status == Booked
  {
  }

  /** After a merge no cell is selected. */
  lemma MergeLeavesNoneSelected(g: Grid, booked: seq<string>)
    ensures NoneSelected(MergeBooked(g, booked))
  {
  }

  /** Merging the same booked list twice changes nothing more. */
  lemma MergeIdempotent(g: Grid, booked: seq<string>)
    ensures MergeBooked(MergeBooked(g, booked), booked) == MergeBooked(g, booked)
  {
    var h := MergeBooked(g, booked);
    var h2 := MergeBooked(h, booked);
    assert |h2| == |h|;
    forall i | 0 <= i < |h| ensures h2[i] == h[i] {
      assert |h2[i]| == |h[i]|;
    }
  }

  // ---------------------------------------------------------------------------
  // The booked list
  // ---------------------------------------------------------------------------

  /** Ticket statuses that occupy a seat. */
  predicate Occupies(t: Ticket) {
    t.status == "CONFIRMED" || t.status == "PENDING"
  }

  /** The `filter` + `map` of `fetchBookedSeats`: the keys of occupying tickets, in
    * response order. */
  function BookedKeys(ts: seq<Ticket>): (keys: seq<string>)
    ensures |keys| <= |ts|
  {
    if ts == [] then []
    else (if Occupies(ts[0]) then [SeatKey(ts[0].rowNumber, ts[0].seatNumber)] else []) + BookedKeys(ts[1..])
  }

  /** The list is built in response order: a response split in two gives the two
    * lists one after the other. */
  lemma {:induction false} BookedKeysAppend(a: seq<Ticket>, b: seq<Ticket>)
    ensures BookedKeys(a + b) == BookedKeys(a) + BookedKeys(b)
  {
    if a != [] {
      BookedKeysAppend(a[1..], b);
      assert (a + b)[0] == a[0];
      assert (a + b)[1..] == a[1..] + b;
      var head := if Occupies(a[0]) then [SeatKey(a[0].rowNumber, a[0].seatNumber)] else [];
      calc {
        BookedKeys(a + b);
        head + BookedKeys(a[1..] + b);
        head + (BookedKeys(a[1..]) + BookedKeys(b));
        (head + BookedKeys(a[1..])) + BookedKeys(b);
      }
    } else {
      assert a + b == b;
    }
  }

  /** Seat (row, seat) is in the booked list exactly when some CONFIRMED or PENDING
    * ticket of the response is for that row and seat. */
  lemma {:induction false} BookedKeysExact(ts: seq<Ticket>, row: int, seat: int)
    ensures SeatKey(row, seat) in BookedKeys(ts) <==>
      exists k :: 0 <= k < |ts| && Occupies(ts[k]) && ts[k].rowNumber == row && ts[k].seatNumber == seat
  {
    if ts != [] {
      BookedKeysExact(ts[1..], row, seat);
      var t := ts[0];
      if Occupies(t) && SeatKey(t.rowNumber, t.seatNumber) == SeatKey(row, seat) {
        SeatKeyInjective(t.rowNumber, t.seatNumber, row, seat);
      }
      if exists k :: 0 <= k < |ts[1..]| && Occupies(ts[1..][k]) && ts[1..][k].rowNumber == row && ts[1..][k].seatNumber == seat {
        var k :| 0 <= k < |ts[1..]| && Occupies(ts[1..][k]) && ts[1..][k].rowNumber == row && ts[1..][k].seatNumber == seat;
        assert ts[k + 1] == ts[1..][k];
      }
      forall k | 0 < k < |ts| && Occupies(ts[k]) && ts[k].rowNumber == row && ts[k].seatNumber == seat
        ensures SeatKey(row, seat) in BookedKeys(ts[1..])
      {
        assert ts[1..][k - 1] == ts[k];
      }
    }
  }

  // ---------------------------------------------------------------------------
  // The selection list
  // ---------------------------------------------------------------------------

  /** `selected.filter(s => s !== key)`. */
  function Without(s: seq<string>, x: string): (r: seq<string>)
    ensures x !in r
    ensures forall y :: y != x ==> (y in r <==> y in s)
    ensures |r| <= |s|
  {
    if s == [] then [] else (if s[0] == x then [] else [s[0]]) + Without(s[1..], x)
  }

  /** Every occurrence of the key is dropped and every other key is kept as often as
    * it occurred. */
  lemma {:induction false} WithoutCounts(s: seq<string>, x: string)
    ensures multiset(Without(s, x)) == multiset(s)[x := 0]
  {
    if s != [] {
      assert s == [s[0]] + s[1..];
      WithoutCounts(s[1..], x);
    }
  }

  /** Filtering works element by element, so the keys that stay keep their order:
    * filtering a concatenation is concatenating the filtered parts. */
  lemma {:induction false} WithoutAppend(a: seq<string>, b: seq<string>, x: string)
    ensures Without(a + b, x) == Without(a, x) + Without(b, x)
  {
    if a == [] {
      assert a + b == b;
    } else {
      assert (a + b)[0] == a[0];
      assert (a + b)[1..] == a[1..] + b;
      WithoutAppend(a[1..], b, x);
    }
  }

  /** Filtering out a key that is not there gives the list back. */
  lemma {:induction false} WithoutAbsent(s: seq<string>, x: string)
    requires x !in s
    ensures Without(s, x) == s
  {
    if s != [] {
      WithoutAbsent(s[1..], x);
    }
  }

  /** Appending a key and filtering it out again restores a list that lacked it. */
  lemma {:induction false} WithoutAppended(s: seq<string>, x: string)
    requires x !in s
    ensures Without(s + [x], x) == s
  {
    if s == [] {
      assert [x][1..] == [];
    } else {
      WithoutAppended(s[1..], x);
      assert (s + [x])[1..] == s[1..] + [x];
    }
  }

  // ---------------------------------------------------------------------------
  // The component's state and its handlers, as functions
  // ---------------------------------------------------------------------------

  /** The component's state: `seats`, `selectedSeats`, `bookedSeats`, `error`,
    * `isChecking` and `loading`. */
  datatype MapState = MapState(grid: Grid, selected: seq<string>, booked: seq<string>,
                           error: string, isChecking: bool, loading: bool)

  /** The outcome of `checkSeatAvailability`: whether the seat may be taken, and the
    * message it stores in `error`, if it stores one. */
  datatype Probe = Probe(free: bool, message: Option<string>)

  /** `checkSeatAvailability`: fails closed. Only a signed-in user with a token whose
    * probe answered `true` may take the seat. */
  function CheckSeat(signedIn: bool, token: Option<string>, reply: ProbeReply): (p: Probe)
    ensures p.free <==> signedIn && Truthy(token) && reply == Answered(true)
    ensures p.free ==> p.message == None
  {
    if !signedIn then Probe(false, Some(MsgSignIn))
    else if !Truthy(token) then Probe(false, Some(MsgNoToken))
    else match reply
      case Answered(free) => Probe(free, None)
      case ProbeFailed(status) =>
        if status == Some(403) then Probe(false, Some(MsgForbidden))
        else if status == Some(401) then Probe(false, Some(MsgUnauthorized))
        else if status == Some(404) then Probe(false, Some(MsgSessionNotFound))
        else Probe(false, None)
  }

  /** The state after `checkSeatAvailability`: its message, if any, is stored, and a
    * signed-in probe ends with `isChecking` false. */
  function Probed(v: MapState, signedIn: bool, token: Option<string>, reply: ProbeReply): MapState {
    var p := CheckSeat(signedIn, token, reply);
    var v1 := if p.message.Some? then v.(error := p.message.value) else v;
    if signedIn then v1.(isChecking := false) else v1
  }

  /** `handleSeatClick(row, seat)`. `v.error` is the message shown when the click
    * happened: the handler's closure reads that value after the probe. */
  function Clicked(v: MapState, row: int, seat: int, signedIn: bool, token: Option<string>, reply: ProbeReply): (w: MapState)
    ensures w.booked == v.booked && w.loading == v.loading
    ensures w.selected != v.selected ==> signedIn && SeatKey(row, seat) !in v.booked
  {
    var key := SeatKey(row, seat);
    if !signedIn then v.(error := MsgSignIn)
    else if key in v.booked then v.(error := MsgAlreadyBooked)
    else if key in v.selected then
      v.(selected := Without(v.selected, key), grid := SetStatus(v.grid, row, seat, Available), error := "")
    else
      var probed := Probed(v.(error := ""), signedIn, token, reply);
      if !CheckSeat(signedIn, token, reply).free then
        if v.error == "" then probed.(error := MsgUnavailable) else probed
      else
        probed.(selected := probed.selected + [key], grid := SetStatus(probed.grid, row, seat, Selected))
  }

  /** `fetchBookedSeats`: on success the booked list is replaced and merged into the
    * grid; a failed fetch changes nothing. */
  function FetchedBooked(v: MapState, reply: FetchReply): (w: MapState)
    ensures SameShape(v.grid, w.grid)
    ensures w.selected == v.selected && w.error == v.error && w.isChecking == v.isChecking && w.loading == v.loading
    ensures reply.Fetched? ==> w.booked == BookedKeys(reply.tickets)
    ensures reply.FetchFailed? ==> w == v
  {
    match reply
    case FetchFailed => v
    case Fetched(ts) =>
      var keys := BookedKeys(ts);
      v.(booked := keys, grid := MergeBooked(v.grid, keys))
  }

  /** The refresh effect: a trigger above zero refetches and empties the selection. */
  function Refreshed(v: MapState, trigger: int, reply: FetchReply): (w: MapState)
    ensures trigger <= 0 ==> w == v
    ensures trigger > 0 ==> w.selected == [] && SameShape(v.grid, w.grid) && w.error == v.error
    ensures trigger > 0 && reply.Fetched? ==> w.booked == BookedKeys(reply.tickets)
    ensures trigger > 0 && reply.FetchFailed? ==> w == v.(selected := [])
  {
    if trigger > 0 then FetchedBooked(v, reply).(selected := []) else v
  }

  /** `clearSelection`. */
  function Cleared(v: MapState): (w: MapState)
    ensures w.selected == [] && NoneSelected(w.grid) && SameShape(v.grid, w.grid)
    ensures w.booked == v.booked && w.error == v.error && w.isChecking == v.isChecking && w.loading == v.loading
  {
    v.(selected := [], grid := ClearGrid(v.grid))
  }

  /** The seat button's enable rule: not booked, not unavailable, a user is signed
    * in and no probe is running. */
  predicate SeatEnabled(cell: Seat, signedIn: bool, isChecking: bool)
  {
    !(cell.status == Booked || cell.status == Unavailable || !signedIn || isChecking)
  }

  // ---------------------------------------------------------------------------
  // Consistency of the state
  // ---------------------------------------------------------------------------

  /** Every booked key that names a cell of the grid shows as booked. */
  ghost predicate BookedShownIn(g: Grid, booked: seq<string>) {
    forall i, j :: 0 <= i < |g| && 0 <= j < |g[i]| && KeyAt(i, j) in booked ==> g[i][j].status == Booked
  }

  /** Every cell shown as selected is in the selection list. */
  ghost predicate SelectedListedIn(g: Grid, selected: seq<string>) {
    forall i, j :: 0 <= i < |g| && 0 <= j < |g[i]| && g[i][j].status == Selected ==> KeyAt(i, j) in selected
  }

  /** No selected key is booked. */
  ghost predicate DisjointLists(selected: seq<string>, booked: seq<string>) {
    forall k :: k in selected ==> k !in booked
  }

  ghost predicate ConsistentParts(g: Grid, selected: seq<string>, booked: seq<string>) {
    Coordinates(g) && BookedShownIn(g, booked) && SelectedListedIn(g, selected) && DisjointLists(selected, booked)
  }

  ghost predicate BookedShown(v: MapState) {
    BookedShownIn(v.grid, v.booked)
  }

  ghost predicate SelectedListed(v: MapState) {
    SelectedListedIn(v.grid, v.selected)
  }

  /** The grid agrees with both lists, and no selected key is booked. */
  ghost predicate Consistent(v: MapState) {
    ConsistentParts(v.grid, v.selected, v.booked)
  }

  /** Deselecting a seat that is not booked keeps the state consistent. */
  lemma DeselectConsistent(g: Grid, selected: seq<string>, booked: seq<string>, row: int, seat: int)
    requires ConsistentParts(g, selected, booked) && SeatKey(row, seat) !in booked
    ensures ConsistentParts(SetStatus(g, row, seat, Available), Without(selected, SeatKey(row, seat)), booked)
  {
    var key := SeatKey(row, seat);
    var h: Grid := SetStatus(g, row, seat, Available);
    var sel := Without(selected, key);
    forall i, j | 0 <= i < |h| && 0 <= j < |h[i]| && KeyAt(i, j) in booked
      ensures h[i][j].status == Booked
    {
      assert !(i + 1 == row && j + 1 == seat);
      assert h[i][j] == g[i][j];
    }
    assert BookedShownIn(h, booked);
    forall i, j | 0 <= i < |h| && 0 <= j < |h[i]| && h[i][j].status == Selected
      ensures KeyAt(i, j) in sel
    {
      assert h[i][j] == g[i][j];
      if KeyAt(i, j) == key {
        SeatKeyInjective(i + 1, j + 1, row, seat);
      }
    }
    assert SelectedListedIn(h, sel);
    assert DisjointLists(sel, booked);
  }

  /** Selecting a seat that is not booked keeps the state consistent. */
  lemma SelectConsistent(g: Grid, selected: seq<string>, booked: seq<string>, row: int, seat: int)
    requires ConsistentParts(g, selected, booked) && SeatKey(row, seat) !in booked
    ensures ConsistentParts(SetStatus(g, row, seat, Selected), selected + [SeatKey(row, seat)], booked)
  {
    var key := SeatKey(row, seat);
    var h: Grid := SetStatus(g, row, seat, Selected);
    var sel := selected + [key];
    forall i, j | 0 <= i < |h| && 0 <= j < |h[i]| && KeyAt(i, j) in booked
      ensures h[i][j].status == Booked
    {
      assert !(i + 1 == row && j + 1 == seat);
      assert h[i][j] == g[i][j];
    }
    assert BookedShownIn(h, booked);
    forall i, j | 0 <= i < |h| && 0 <= j < |h[i]| && h[i][j].status == Selected
      ensures KeyAt(i, j) in sel
    {
      if !(i + 1 == row && j + 1 == seat) {
        assert h[i][j] == g[i][j];
      }
    }
    assert SelectedListedIn(h, sel);
    assert DisjointLists(sel, booked);
  }

  /** Clicking with nobody signed in, or on a booked key, changes neither the
    * selection nor the grid, and says why. */
  lemma ClickRejected(v: MapState, row: int, seat: int, signedIn: bool, token: Option<string>, reply: ProbeReply)
    requires !signedIn || SeatKey(row, seat) in v.booked
    ensures var w := Clicked(v, row, seat, signedIn, token, reply);
      w.selected == v.selected && w.grid == v.grid && w.booked == v.booked &&
      w.error == (if signedIn then MsgAlreadyBooked else MsgSignIn)
  {
  }

  /** Clicking a free seat whose probe says yes appends its key and marks only that
    * seat selected; any other probe result changes neither list nor grid. */
  lemma ClickFree(v: MapState, row: int, seat: int, token: Option<string>, reply: ProbeReply)
    requires SeatKey(row, seat) !in v.booked && SeatKey(row, seat) !in v.selected
    ensures var w := Clicked(v, row, seat, true, token, reply);
      && w.booked == v.booked && !w.isChecking
      && (CheckSeat(true, token, reply).free ==>
            w.selected == v.selected + [SeatKey(row, seat)] && w.grid == SetStatus(v.grid, row, seat, Selected) && w.error == "")
      && (!CheckSeat(true, token, reply).free ==>
            w.selected == v.selected && w.grid == v.grid && (v.error == "" ==> w.error == MsgUnavailable))
  {
  }

  /** A refused probe after which no message is shown: when a message was already on
    * screen at the click and the probe failed without a status of its own, the
    * handler's stale copy of the old message suppresses the generic one, while the
    * old message itself has been cleared. */
  lemma ClickFailureCanBeSilent(v: MapState, row: int, seat: int, token: Option<string>)
    requires SeatKey(row, seat) !in v.booked && SeatKey(row, seat) !in v.selected
    requires v.error != "" && Truthy(token)
    ensures Clicked(v, row, seat, true, token, ProbeFailed(Some(500))).error == ""
    ensures Clicked(v, row, seat, true, token, Answered(false)).error == ""
  {
  }

  /** Selecting a free seat and clicking it again restores the selection and the grid
    * (the round trip of a toggle). */
  lemma ToggleRoundTrip(v: MapState, row: int, seat: int, token: Option<string>, reply1: ProbeReply, reply2: ProbeReply)
    requires InGrid(v.grid, row, seat) && v.grid[row - 1][seat - 1].status == Available
    requires SeatKey(row, seat) !in v.booked && SeatKey(row, seat) !in v.selected
    requires CheckSeat(true, token, reply1).free
    ensures var w := Clicked(Clicked(v, row, seat, true, token, reply1), row, seat, true, token, reply2);
      w.selected == v.selected && w.grid == v.grid && w.booked == v.booked
  {
    var key := SeatKey(row, seat);
    var w1 := Clicked(v, row, seat, true, token, reply1);
    assert w1.selected == v.selected + [key];
    WithoutAppended(v.selected, key);
    var g2 := SetStatus(w1.grid, row, seat, Available);
    assert |g2| == |v.grid|;
    forall i | 0 <= i < |v.grid| ensures g2[i] == v.grid[i] {
      assert |g2[i]| == |v.grid[i]|;
    }
  }

  /** A handled click keeps the state consistent. */
  lemma ClickPreservesConsistent(v: MapState, row: int, seat: int, signedIn: bool, token: Option<string>, reply: ProbeReply)
    requires Consistent(v)
    ensures Consistent(Clicked(v, row, seat, signedIn, token, reply))
  {
    var key := SeatKey(row, seat);
    if signedIn && key !in v.booked {
      if key in v.selected {
        DeselectConsistent(v.grid, v.selected, v.booked, row, seat);
      } else if CheckSeat(signedIn, token, reply).free {
        SelectConsistent(v.grid, v.selected, v.booked, row, seat);
      }
    }
  }

  /** A successful fetch shows every booked seat as booked and leaves no seat
    * selected; a failed one changes nothing. */
  lemma FetchShowsBooked(v: MapState, reply: FetchReply)
    requires Coordinates(v.grid)
    ensures var w := FetchedBooked(v, reply);
      Coordinates(w.grid) && SameShape(v.grid, w.grid) && w.selected == v.selected &&
      (reply.Fetched? ==> BookedShown(w) && NoneSelected(w.grid) && w.booked == BookedKeys(reply.tickets)) &&
      (reply.FetchFailed? ==> w == v)
  {
  }

  /** A refresh with a positive trigger and a successful fetch leaves a consistent
    * state with an empty selection. */
  lemma RefreshConsistent(v: MapState, trigger: int, reply: FetchReply)
    requires Coordinates(v.grid) && trigger > 0 && reply.Fetched?
    ensures var w := Refreshed(v, trigger, reply);
      Consistent(w) && w.selected == []
  {
  }

  /** A refresh whose fetch fails empties the selection but leaves selected cells
    * selected: the grid and the list disagree afterwards. */
  lemma RefreshFailureKeepsSelectedCells(v: MapState, trigger: int)
    requires trigger > 0 && |v.grid| > 0 && |v.grid[0]| > 0 && v.grid[0][0].status == Selected
    ensures var w := Refreshed(v, trigger, FetchFailed);
      w.selected == [] && w.grid[0][0].status == Selected && !SelectedListed(w)
  {
  }

  /** Clearing empties the selection, frees the selected cells, leaves every other
    * cell as it was and keeps the state consistent. */
  lemma ClearConsistent(v: MapState)
    requires Consistent(v)
    ensures var w := Cleared(v);
      Consistent(w) && w.selected == [] && NoneSelected(w.grid) && w.booked == v.booked
  {
  }

  /** In a consistent state an enabled seat button belongs to a seat whose key is not
    * booked, so the click handler's booked check agrees with the button. */
  lemma EnabledSeatNotBooked(v: MapState, i: int, j: int, signedIn: bool)
    requires Consistent(v) && 0 <= i < |v.grid| && 0 <= j < |v.grid[i]|
    requires SeatEnabled(v.grid[i][j], signedIn, v.isChecking)
    ensures KeyAt(i, j) !in v.booked && signedIn && !v.isChecking
    ensures v.grid[i][j].status == Available || v.grid[i][j].status == Selected
  {
  }

  // ---------------------------------------------------------------------------
  // The component
  // ---------------------------------------------------------------------------

  class SeatMap {
    const hallRows: int
    const hallSeatsPerRow: int
    var grid: Grid
    var selected: seq<string>
    var booked: seq<string>
    var error: string
    var isChecking: bool
    var loading: bool

    function View(): MapState
      reads this
    {
      MapState(grid, selected, booked, error, isChecking, loading)
    }

    /** The initial state: no grid yet, the initial selection, loading. */
    constructor (rows: int, perRow: int, initialSelected: seq<string>)
      ensures hallRows == rows && hallSeatsPerRow == perRow
      ensures View() == MapState([], initialSelected, [], "", false, true)
    {
      hallRows, hallSeatsPerRow := rows, perRow;
      grid, selected, booked := [], initialSelected, [];
      error, isChecking, loading := "", false, true;
    }

    /** `initializeSeats`: a fresh grid of available seats; loading ends. */
    method InitializeSeats()
      modifies this
      ensures |grid| == (if hallRows > 0 then hallRows else 0)
      ensures forall i :: 0 <= i < |grid| ==> |grid[i]| == (if hallSeatsPerRow > 0 then hallSeatsPerRow else 0)
      ensures forall i, j :: 0 <= i < |grid| && 0 <= j < |grid[i]| ==> grid[i][j] == Seat(i + 1, j + 1, Available)
      ensures Coordinates(grid)
      ensures View() == old(View()).(grid := FreshGrid(hallRows, hallSeatsPerRow), loading := false)
    {
      grid := BuildGrid(hallRows, hallSeatsPerRow);
      loading := false;
    }

    /** `fetchBookedSeats`. */
    method FetchBookedSeats(reply: FetchReply)
      modifies this
      ensures View() == FetchedBooked(old(View()), reply)
    {
      match reply {
        case FetchFailed =>
        case Fetched(ts) =>
          var keys := BookedKeys(ts);
          booked := keys;
          grid := MergeBooked(grid, keys);
      }
    }

    /** The mount effect: build the grid, then fetch the booked seats. */
    method Mount(reply: FetchReply)
      modifies this
      ensures View() == FetchedBooked(old(View()).(grid := FreshGrid(hallRows, hallSeatsPerRow), loading := false), reply)
      ensures SameShape(grid, FreshGrid(hallRows, hallSeatsPerRow)) && Coordinates(grid) && !loading
      ensures reply.Fetched? ==> BookedShown(View()) && NoneSelected(grid) && booked == BookedKeys(reply.tickets)
      ensures reply.FetchFailed? ==> grid == FreshGrid(hallRows, hallSeatsPerRow) && booked == old(booked)
      ensures selected == old(selected) && error == old(error) && isChecking == old(isChecking)
    {
      InitializeSeats();
      FetchBookedSeats(reply);
      FetchShowsBooked(old(View()).(grid := FreshGrid(hallRows, hallSeatsPerRow), loading := false), reply);
    }

    /** The refresh effect for trigger value `trigger`. */
    method Refresh(trigger: int, reply: FetchReply)
      modifies this
      ensures View() == Refreshed(old(View()), trigger, reply)
    {
      if trigger > 0 {
        FetchBookedSeats(reply);
        selected := [];
      }
    }

    /** `checkSeatAvailability(row, seat)`; `isChecking` is raised while the request
      * is out and lowered again in the `finally` block. */
    method CheckSeatAvailability(signedIn: bool, token: Option<string>, reply: ProbeReply) returns (free: bool)
      modifies this
      ensures free == CheckSeat(signedIn, token, reply).free
      ensures View() == Probed(old(View()), signedIn, token, reply)
    {
      if !signedIn {
        error := MsgSignIn;
        return false;
      }
      isChecking := true;
      if !Truthy(token) {
        error := MsgNoToken;
        free := false;
      } else {
        match reply {
          case Answered(b) =>
            free := b;
          case ProbeFailed(status) =>
            if status == Some(403) {
              error := MsgForbidden;
            } else if status == Some(401) {
              error := MsgUnauthorized;
            } else if status == Some(404) {
              error := MsgSessionNotFound;
            }
            free := false;
        }
      }
      isChecking := false;
    }

    /** `handleSeatClick(row, seat)`. */
    method HandleSeatClick(row: int, seat: int, signedIn: bool, token: Option<string>, reply: ProbeReply)
      modifies this
      ensures View() == Clicked(old(View()), row, seat, signedIn, token, reply)
    {
      if !signedIn {
        error := MsgSignIn;
        return;
      }
      var key := SeatKey(row, seat);
      if key in booked {
        error := MsgAlreadyBooked;
        return;
      }
      if key in selected {
        selected := Without(selected, key);
        grid := SetStatus(grid, row, seat, Available);
        error := "";
        return;
      }
      var shown := error;
      error := "";
      var free := CheckSeatAvailability(signedIn, token, reply);
      if !free {
        if shown == "" {
          error := MsgUnavailable;
        }
        return;
      }
      selected := selected + [key];
      grid := SetStatus(grid, row, seat, Selected);
    }

    /** `clearSelection`. */
    method ClearSelection()
      modifies this
      ensures View() == Cleared(old(View()))
    {
      selected := [];
      grid := ClearGrid(grid);
    }

    /** The `disabled` rule of the button of cell (i, j), negated. */
    predicate ButtonEnabled(i: int, j: int, signedIn: bool)
      reads this
      requires 0 <= i < |grid| && 0 <= j < |grid[i]|
    {
      SeatEnabled(grid[i][j], signedIn, isChecking)
    }
  }
}
