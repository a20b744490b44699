/**
  Checkout: the per-room dates a cart controller fixes when it is built,
  the cart total it displays, the card check before payment, and the
  receipt it writes (its lines, its total and its file name).
 */
module Cart {
  import opened Seqs
  import opened Text
  import opened Calendar
  import opened Models
  import opened RoomBooking

  /** The check-in and check-out day of one room. */
  datatype DateRange = DateRange(checkIn: Day, checkOut: Day)

  /** The dates of the cart entry at index `i`: check-in moved by `i mod 2` days, check-out by `i mod 3`. */
  function StaggeredRange(i: nat, checkIn: Day, checkOut: Day): (range: DateRange)
    ensures checkIn <= range.checkIn <= checkIn + 1
    ensures checkOut <= range.checkOut <= checkOut + 2
    ensures i % 6 == 0 ==> range == DateRange(checkIn, checkOut)
  {
    DateRange(checkIn + i % 2, checkOut + i % 3)
  }

  /**
    The `roomDates` map built by walking the cart in order; a room that
    occurs again is put again, so the later entry overwrites the earlier.
   */
  function RoomDates(cart: seq<Room>, checkIn: Day, checkOut: Day): map<Room, DateRange>
  {
    if cart == [] then map[]
    else RoomDates(cart[..|cart| - 1], checkIn, checkOut)[cart[|cart| - 1] := StaggeredRange(|cart| - 1, checkIn, checkOut)]
  }

  /**
    A room has dates exactly when it is in the cart, and they are the dates
    of its last occurrence.
   */
  lemma {:induction false} RoomDatesLastOccurrence(cart: seq<Room>, checkIn: Day, checkOut: Day, r: Room)
    ensures r in RoomDates(cart, checkIn, checkOut) <==> r in cart
    ensures r in cart ==> RoomDates(cart, checkIn, checkOut)[r] == StaggeredRange(LastIndexOf(cart, r), checkIn, checkOut)
  {
    if cart != [] {
      var init := cart[..|cart| - 1];
      RoomDatesLastOccurrence(init, checkIn, checkOut, r);
      assert cart == init + [cart[|cart| - 1]];
    }
  }

  /** The loop of both constructors: entry `i` of the cart gets the `i`-th staggered dates. */
  method BuildRoomDates(cart: seq<Room>, checkIn: Day, checkOut: Day) returns (dates: map<Room, DateRange>)
    ensures dates == RoomDates(cart, checkIn, checkOut)
  {
    dates := map[];
    if cart != [] {
      var i := 0;
      while i < |cart|
        invariant 0 <= i <= |cart|
        invariant dates == RoomDates(cart[..i], checkIn, checkOut)
      {
        assert cart[..i + 1][..i] == cart[..i];
        dates := dates[cart[i] := StaggeredRange(i, checkIn, checkOut)];
        i := i + 1;
      }
      assert cart[..|cart|] == cart;
    }
  }

  /** The dates a receipt uses: the room's own entry when it has one, else the general dates. */
  datatype StayPlan = StayPlan(roomDates: map<Room, DateRange>, checkIn: Day, checkOut: Day)
  {
    function StayOf(room: Room): DateRange
    {
      if room in roomDates then roomDates[room] else DateRange(checkIn, checkOut)
    }

    /** What the stay in `room` costs on its dates. */
    function PriceOf(room: Room): int
    {
      CalculateTotalPrice(room, StayOf(room).checkIn, StayOf(room).checkOut)
    }
  }

  /**
    With the dates fixed from `cart`, a room of that cart stays on the dates
    of its last occurrence and any other room on the general dates.
   */
  lemma StayOfCartRoom(cart: seq<Room>, checkIn: Day, checkOut: Day, r: Room)
    ensures StayPlan(RoomDates(cart, checkIn, checkOut), checkIn, checkOut).StayOf(r)
            == if r in cart then StaggeredRange(LastIndexOf(cart, r), checkIn, checkOut) else DateRange(checkIn, checkOut)
  {
    RoomDatesLastOccurrence(cart, checkIn, checkOut, r);
  }

  /**
    One line of the receipt file. Dates are kept as days and amounts as
    numbers; `Render` gives a date line its text, and the `%.2f` text of an
    amount is not modelled.
   */
  datatype Line = Plain(text: string) | Dated(prefix: string, day: Day) | Money(prefix: string, value: int)

  /** The text of a line that holds no amount. */
  function Render(line: Line): string
    requires !line.Money?
  {
    match line
    case Plain(text) => text
    case Dated(prefix, day) => prefix + IsoDate(day)
  }

  /**
    For years 0 to 9999 every date line of a room block prints as its label
    followed by the ten characters `YYYY-MM-DD`, which read back as the day.
   */
  lemma RoomBlockDatesRender(room: Room, plan: StayPlan, k: int)
    requires 0 <= k < |RoomBlock(room, plan)| && RoomBlock(room, plan)[k].Dated?
    requires 0 <= CivilFromDays(RoomBlock(room, plan)[k].day).year <= 9999
    ensures var line := RoomBlock(room, plan)[k];
      && (k == 4 || k == 5)
      && line.prefix == (if k == 4 then "Check-in Date: " else "Check-out Date: ")
      && |Render(line)| == |line.prefix| + 10
      && ParseIsoDate(Render(line)[|line.prefix|..]) == Some(line.day)
  {
    var line := RoomBlock(room, plan)[k];
    IsoDateRoundTrip(line.day);
    assert Render(line)[|line.prefix|..] == IsoDate(line.day);
  }

  const Rule: string := "==============================="
  const PricePrefix: string := "Price: $"
  const TotalPrefix: string := "TOTAL PRICE: $"

  /**
    The customer block: only when there is a user, the Name line only when
    both real name and surname are set, and always the Email line.
   */
  function CustomerBlock(user: User?): (lines: seq<Line>)
    reads user
    ensures user == null <==> lines == []
    ensures user != null ==> |lines| == (if user.realName.Some? && user.surname.Some? then 5 else 4)
    ensures user != null ==> lines[..2] == [Plain("CUSTOMER INFORMATION:"), Plain(Rule)]
    ensures user != null && user.realName.Some? && user.surname.Some? ==>
      lines[2] == Plain("Name: " + user.realName.value + " " + user.surname.value)
    ensures user != null ==> lines[|lines| - 2] == Plain("Email: " + user.email)
  {
    if user == null then []
    else
      [Plain("CUSTOMER INFORMATION:"), Plain(Rule)]
      + (if user.realName.Some? && user.surname.Some?
         then [Plain("Name: " + user.realName.value + " " + user.surname.value)]
         else [])
      + [Plain("Email: " + user.email), Plain("")]
  }

  function BookingHeader(today: Day): seq<Line>
  {
    [Plain("BOOKING INFORMATION:"), Plain(Rule), Dated("Booking Date: ", today),
     Plain("BOOKING DETAILS:"), Plain(Rule), Plain("")]
  }

  /** The block written for one cart entry, priced on the room's own dates. */
  function RoomBlock(room: Room, plan: StayPlan): seq<Line>
  {
    var stay := plan.StayOf(room);
    [Plain("Hotel: " + room.hotel.name), Plain("City: " + room.hotel.city),
     Plain("Room Type: " + room.roomType), Plain("Description: " + room.description),
     Dated("Check-in Date: ", stay.checkIn), Dated("Check-out Date: ", stay.checkOut),
     Money(PricePrefix, plan.PriceOf(room)), Plain("")]
  }

  function RoomBlocks(cart: seq<Room>, plan: StayPlan): seq<Line>
  {
    if cart == [] then [] else RoomBlocks(cart[..|cart| - 1], plan) + RoomBlock(cart[|cart| - 1], plan)
  }

  /** The price of each cart entry, in cart order. */
  function StayPrices(cart: seq<Room>, plan: StayPlan): (prices: seq<int>)
    ensures |prices| == |cart|
    ensures forall i :: 0 <= i < |cart| ==> prices[i] == plan.PriceOf(cart[i])
  {
    if cart == [] then [] else StayPrices(cart[..|cart| - 1], plan) + [plan.PriceOf(cart[|cart| - 1])]
  }

  function Footer(total: int): seq<Line>
  {
    [Plain(Rule), Money(TotalPrefix, total)]
  }

  /** The whole receipt: customer block, booking header, one block per cart entry, total. */
  function Receipt(user: User?, today: Day, cart: seq<Room>, plan: StayPlan): (lines: seq<Line>)
    reads user
    ensures |lines| == |CustomerBlock(user)| + 6 + |RoomBlocks(cart, plan)| + 2
    ensures lines[..|CustomerBlock(user)|] == CustomerBlock(user)
    ensures lines[|CustomerBlock(user)| + 2] == Dated("Booking Date: ", today)
    ensures lines[|lines| - 1] == Money(TotalPrefix, Sum(StayPrices(cart, plan)))
  {
    CustomerBlock(user) + BookingHeader(today) + RoomBlocks(cart, plan) + Footer(Sum(StayPrices(cart, plan)))
  }

  /** The amounts of the per-room Price lines of a text, in order. */
  function PriceAmounts(lines: seq<Line>): seq<int>
  {
    if lines == [] then []
    else
      var last := lines[|lines| - 1];
      PriceAmounts(lines[..|lines| - 1]) + (if last.Money? && last.prefix == PricePrefix then [last.value] else [])
  }

  lemma {:induction false} PriceAmountsAppend(a: seq<Line>, b: seq<Line>)
    ensures PriceAmounts(a + b) == PriceAmounts(a) + PriceAmounts(b)
  {
    if b == [] {
      assert a + b == a;
    } else {
      assert (a + b)[..|a + b| - 1] == a + b[..|b| - 1];
      PriceAmountsAppend(a, b[..|b| - 1]);
    }
  }

  lemma {:induction false} PriceAmountsOfPlainText(lines: seq<Line>)
    requires forall i :: 0 <= i < |lines| ==> !lines[i].Money?
    ensures PriceAmounts(lines) == []
  {
    if lines != [] {
      PriceAmountsOfPlainText(lines[..|lines| - 1]);
    }
  }

  /** The Price lines of the room blocks are the cart entries' prices, in cart order. */
  lemma {:induction false} RoomBlocksPrices(cart: seq<Room>, plan: StayPlan)
    ensures PriceAmounts(RoomBlocks(cart, plan)) == StayPrices(cart, plan)
  {
    if cart != [] {
      var init := cart[..|cart| - 1];
      var room := cart[|cart| - 1];
      RoomBlocksPrices(init, plan);
      PriceAmountsAppend(RoomBlocks(init, plan), RoomBlock(room, plan));
      RoomBlockPrice(room, plan);
    }
  }

  /** A room block has exactly one Price line, carrying the room's price. */
  lemma RoomBlockPrice(room: Room, plan: StayPlan)
    ensures PriceAmounts(RoomBlock(room, plan)) == [plan.PriceOf(room)]
  {
    var block := RoomBlock(room, plan);
    assert block == block[..6] + [block[6]] + [block[7]];
    PriceAmountsAppend(block[..6] + [block[6]], [block[7]]);
    PriceAmountsAppend(block[..6], [block[6]]);
    PriceAmountsOfPlainText(block[..6]);
    PriceAmountsOfPlainText([block[7]]);
    assert PriceAmounts([block[6]]) == [plan.PriceOf(room)] by {
      assert [block[6]][..0] == [];
    }
  }

  /**
    The receipt ends with the TOTAL PRICE line, whose amount is the sum of
    the Price lines above it, one per cart entry.
   */
  lemma ReceiptTotalIsSumOfPrices(user: User?, today: Day, cart: seq<Room>, plan: StayPlan)
    ensures var lines := Receipt(user, today, cart, plan);
      && |PriceAmounts(lines)| == |cart|
      && lines[|lines| - 1] == Money(TotalPrefix, Sum(PriceAmounts(lines)))
  {
    var front, blocks := CustomerBlock(user) + BookingHeader(today), RoomBlocks(cart, plan);
    var footer := Footer(Sum(StayPrices(cart, plan)));
    FrontHasNoPriceLine(user, today);
    RoomBlocksPrices(cart, plan);
    FooterHasNoPriceLine(Sum(StayPrices(cart, plan)));
    PriceAmountsBetween(front, blocks, footer);
    assert Receipt(user, today, cart, plan) == front + blocks + footer;
  }

  /** Price lines only in the middle part: the whole text has exactly the middle part's. */
  lemma PriceAmountsBetween(front: seq<Line>, middle: seq<Line>, back: seq<Line>)
    requires PriceAmounts(front) == [] && PriceAmounts(back) == []
    ensures PriceAmounts(front + middle + back) == PriceAmounts(middle)
  {
    PriceAmountsAppend(front, middle);
    PriceAmountsAppend(front + middle, back);
    assert [] + PriceAmounts(middle) + [] == PriceAmounts(middle);
  }

  /** The customer block and the booking header hold no Price line. */
  lemma FrontHasNoPriceLine(user: User?, today: Day)
    ensures PriceAmounts(CustomerBlock(user) + BookingHeader(today)) == []
  {
    var customer, header := CustomerBlock(user), BookingHeader(today);
    PriceAmountsOfPlainText(customer);
    PriceAmountsOfPlainText(header);
    PriceAmountsAppend(customer, header);
  }

  lemma FooterHasNoPriceLine(total: int)
    ensures PriceAmounts(Footer(total)) == []
  {
    var footer := Footer(total);
    assert footer[..1] == [Plain(Rule)];
    PriceAmountsOfPlainText(footer[..1]);
    assert TotalPrefix != PricePrefix by {
      assert |TotalPrefix| != |PricePrefix|;
    }
  }

  /** The receipt file name: date, nickname and id joined by '_', with a `.txt` suffix. */
  function FileName(today: Day, nickname: string, id: nat): string
  {
    BasicDate(today) + "_" + nickname + "_" + DecimalDigits(id) + ".txt"
  }

  /**
    Every draw in [0, 90000) gives a five-digit id from 10000 to 99999, and
    the name's last nine characters are that id and the suffix.
   */
  lemma FileNameIdWidth(today: Day, nickname: string, draw: int)
    requires 0 <= draw < 90000
    ensures var name := FileName(today, nickname, 10000 + draw);
      && |DecimalDigits(10000 + draw)| == 5
      && |name| >= 9
      && name[|name| - 9..] == DecimalDigits(10000 + draw) + ".txt"
      && DigitsValue(name[|name| - 9..|name| - 4]) == 10000 + draw
  {
    FiveDigitWidth(10000 + draw);
    DecimalDigitsRoundTrip(10000 + draw);
    FileNameLayout(today, nickname, 10000 + draw);
    var name := FileName(today, nickname, 10000 + draw);
    assert name[|name| - 9..|name| - 4] == (DecimalDigits(10000 + draw) + ".txt")[..5];
  }

  /** The name a receipt is filed under: the user's nickname, or `user` when nobody is logged in. */
  function NickNameOrDefault(user: User?): (nickname: string)
    ensures user == null ==> nickname == "user"
    ensures user != null ==> nickname == user.userName
  {
    if user != null then user.userName else "user"
  }

  /** The date, the nickname and the id in that order, each closed by its separator. */
  lemma FileNameLayout(today: Day, nickname: string, id: nat)
    ensures var date, name := BasicDate(today) + "_", FileName(today, nickname, id);
      && |name| == |date| + |nickname| + 1 + |DecimalDigits(id)| + 4
      && name[..|date|] == date
      && name[|date|..|date| + |nickname| + 1] == nickname + "_"
      && name[|date| + |nickname| + 1..] == DecimalDigits(id) + ".txt"
  {
    FileNameParts(BasicDate(today) + "_", nickname, DecimalDigits(id));
  }

  /** Where the date, the nickname and the id sit in a file name. */
  lemma FileNameParts(date: string, nickname: string, id: string)
    ensures var name := date + nickname + "_" + id + ".txt";
      && |name| == |date| + |nickname| + 1 + |id| + 4
      && name[..|date|] == date
      && name[|date|..|date| + |nickname| + 1] == nickname + "_"
      && name[|date| + |nickname| + 1..] == id + ".txt"
  {
    var name := date + nickname + "_" + id + ".txt";
    assert name == date + (nickname + "_") + (id + ".txt");
  }

  /**
    `name` is `date`, `nickname` and the five-digit `id` in that order, the
    first two closed by '_' and the id by ".txt", and the id reads back.
   */
  predicate FileNameShape(name: string, date: string, nickname: string, id: nat)
  {
    && |name| == |date| + |nickname| + 11
    && name[..|date| + 1] == date + "_"
    && name[|date| + 1..|date| + |nickname| + 2] == nickname + "_"
    && name[|date| + |nickname| + 2..] == DecimalDigits(id) + ".txt"
    && DigitsValue(name[|name| - 9..|name| - 4]) == id
  }

  /** Every draw gives a name of that shape, with the `yyyyMMdd` date in front. */
  lemma FileNameHasShape(today: Day, nickname: string, draw: int)
    requires 0 <= draw < 90000
    ensures FileNameShape(FileName(today, nickname, 10000 + draw), BasicDate(today), nickname, 10000 + draw)
  {
    FileNameLayout(today, nickname, 10000 + draw);
    FileNameIdWidth(today, nickname, draw);
  }

  /** Two receipts written on the same day for the same user differ in name when their draws differ. */
  lemma FileNamesDifferByDraw(today: Day, nickname: string, draw: int, otherDraw: int)
    requires 0 <= draw < 90000 && 0 <= otherDraw < 90000 && draw != otherDraw
    ensures FileName(today, nickname, 10000 + draw) != FileName(today, nickname, 10000 + otherDraw)
  {
    FileNameIdWidth(today, nickname, draw);
    FileNameIdWidth(today, nickname, otherDraw);
  }

  /** The loop of `generateBookingFile`: one block per cart entry, and the running total. */
  method WriteRoomBlocks(cart: seq<Room>, plan: StayPlan) returns (blocks: seq<Line>, total: int)
    ensures blocks == RoomBlocks(cart, plan)
    ensures total == Sum(StayPrices(cart, plan))
  {
    blocks, total := [], 0;
    var i := 0;
    while i < |cart|
      invariant 0 <= i <= |cart|
      invariant blocks == RoomBlocks(cart[..i], plan)
      invariant total == Sum(StayPrices(cart[..i], plan))
    {
      var room := cart[i];
      assert cart[..i + 1][..i] == cart[..i];
      blocks := blocks + RoomBlock(room, plan);
      total := total + plan.PriceOf(room);
      i := i + 1;
    }
    assert cart[..|cart|] == cart;
  }

  /** The daily price of each cart entry, in cart order. */
  function PricesPerDay(cart: seq<Room>): (prices: seq<int>)
    ensures |prices| == |cart|
    ensures forall i :: 0 <= i < |cart| ==> prices[i] == cart[i].pricePerDay
  {
    if cart == [] then [] else PricesPerDay(cart[..|cart| - 1]) + [cart[|cart| - 1].pricePerDay]
  }

  /** `\d{4}-\d{4}-\d{4}-\d{4}`: four groups of four digits joined by dashes. */
  predicate GroupedCardNumber(s: string)
  {
    && |s| == 19 && s[4] == '-' && s[9] == '-' && s[14] == '-'
    && forall i :: 0 <= i < 19 && i != 4 && i != 9 && i != 14 ==> IsDigit(s[i])
  }

  /** `\d{16}`: sixteen digits. */
  predicate PlainCardNumber(s: string)
  {
    |s| == 16 && forall i :: 0 <= i < 16 ==> IsDigit(s[i])
  }

  predicate ValidCardNumber(s: string)
  {
    GroupedCardNumber(s) || PlainCardNumber(s)
  }

  function IsNotDash(c: char): bool
  {
    c != '-'
  }

  predicate AllDigits(s: string)
  {
    forall i :: 0 <= i < |s| ==> IsDigit(s[i])
  }

  /** Dropping the dashes of `front + "-" + group` keeps the digits of the group, in order. */
  lemma DropDashBeforeGroup(front: string, group: string)
    requires AllDigits(group)
    ensures Filter(IsNotDash, front + "-" + group) == Filter(IsNotDash, front) + group
  {
    FilterAll(IsNotDash, group);
    FilterAppend(IsNotDash, front + "-", group);
    DropTrailingDash(front);
  }

  lemma DropTrailingDash(front: string)
    ensures Filter(IsNotDash, front + "-") == Filter(IsNotDash, front)
  {
    FilterAppend(IsNotDash, front, "-");
    assert "-"[..0] == [];
  }

  /** A grouped card number is four digit groups joined by dashes. */
  lemma GroupsOfGroupedCard(s: string)
    requires GroupedCardNumber(s)
    ensures s == s[..4] + "-" + s[5..9] + "-" + s[10..14] + "-" + s[15..]
    ensures AllDigits(s[..4]) && AllDigits(s[5..9]) && AllDigits(s[10..14]) && AllDigits(s[15..])
  {
    assert forall i :: 0 <= i < 4 ==> s[5..9][i] == s[i + 5] && s[10..14][i] == s[i + 10] && s[15..][i] == s[i + 15];
  }

  /** Both accepted forms carry sixteen digits: without its dashes a card number is `\d{16}`. */
  lemma ValidCardHasSixteenDigits(s: string)
    requires ValidCardNumber(s)
    ensures PlainCardNumber(Filter(IsNotDash, s))
  {
    if PlainCardNumber(s) {
      FilterAll(IsNotDash, s);
    } else {
      GroupsOfGroupedCard(s);
      var a, b, c, d := s[..4], s[5..9], s[10..14], s[15..];
      var ab := a + "-" + b;
      var abc := ab + "-" + c;
      FilterAll(IsNotDash, a);
      DropDashBeforeGroup(a, b);
      DropDashBeforeGroup(ab, c);
      DropDashBeforeGroup(abc, d);
      SixteenDigits(a, b, c, d);
    }
  }

  lemma SixteenDigits(a: string, b: string, c: string, d: string)
    requires |a| == |b| == |c| == |d| == 4
    requires AllDigits(a) && AllDigits(b) && AllDigits(c) && AllDigits(d)
    ensures PlainCardNumber(a + b + c + d)
  {
    var digits := a + b + c + d;
    forall i | 0 <= i < 16 ensures IsDigit(digits[i]) {
      if i < 4 {
        assert digits[i] == a[i];
      } else if i < 8 {
        assert digits[i] == b[i - 4];
      } else if i < 12 {
        assert digits[i] == c[i - 8];
      } else {
        assert digits[i] == d[i - 12];
      }
    }
  }

  /** The outcome of the payment form, checked in the order the form checks. */
  datatype PaymentCheck =
    | NoUser
    | MissingFields
    | InvalidCard
    | Accepted(name: string, surname: string, cardNumber: string)
  {
    /** The message of a refusal: a console line for `NoUser`, an alert for the others. */
    function Message(): string
    {
      match this
      case NoUser => "Error: No user logged in"
      case MissingFields => "Please fill in all fields"
      case InvalidCard => "Please enter a valid card number (XXXX-XXXX-XXXX-XXXX)"
      case Accepted(_, _, _) => ""
    }
  }

  /**
    Each refusal has its own non-empty message, so the three reasons can be
    told apart: the console line when nobody is logged in, the form's alert
    for a missing field or a bad card number.
   */
  lemma RefusalMessagesDiffer(outcome: PaymentCheck, other: PaymentCheck)
    requires !outcome.Accepted? && !other.Accepted?
    ensures outcome.Message() != []
    ensures outcome.Message() == other.Message() <==> outcome == other
  {
    assert |NoUser.Message()| != |MissingFields.Message()|;
    assert |MissingFields.Message()| != |InvalidCard.Message()|;
    assert |NoUser.Message()| != |InvalidCard.Message()|;
  }

  /**
    The payment form: refused without a user, then when a trimmed field is
    empty, then when the trimmed card number has neither accepted form.
   */
  function CheckPayment(hasUser: bool, nameField: string, surnameField: string, cardField: string): (outcome: PaymentCheck)
    ensures outcome.Accepted? <==>
      hasUser && Trim(nameField) != [] && Trim(surnameField) != [] && Trim(cardField) != [] && ValidCardNumber(Trim(cardField))
    ensures outcome.Accepted? ==>
      outcome == Accepted(Trim(nameField), Trim(surnameField), Trim(cardField))
    ensures outcome == NoUser <==> !hasUser
    ensures outcome == MissingFields <==>
      hasUser && (Trim(nameField) == [] || Trim(surnameField) == [] || Trim(cardField) == [])
    ensures outcome == InvalidCard ==> Trim(cardField) != [] && !ValidCardNumber(Trim(cardField))
  {
    var name, surname, card := Trim(nameField), Trim(surnameField), Trim(cardField);
    if !hasUser then NoUser
    else if name == [] || surname == [] || card == [] then MissingFields
    else if !ValidCardNumber(card) then InvalidCard
    else Accepted(name, surname, card)
  }

  /** A card number that passes the form, once trimmed and stripped of dashes, is sixteen digits. */
  lemma AcceptedCardHasSixteenDigits(hasUser: bool, nameField: string, surnameField: string, cardField: string)
    requires CheckPayment(hasUser, nameField, surnameField, cardField).Accepted?
    ensures PlainCardNumber(Filter(IsNotDash, CheckPayment(hasUser, nameField, surnameField, cardField).cardNumber))
  {
    ValidCardHasSixteenDigits(Trim(cardField));
  }

  class CartController {
    const bookingController: RoomBookingController
    const checkInDate: Day
    const checkOutDate: Day
    const user: User?
    /** Fixed when the controller is built, from the cart as it is then. */
    const roomDates: map<Room, DateRange>

    /** The controller without a user. */
    constructor (bookingController: RoomBookingController, checkInDate: Day, checkOutDate: Day)
      ensures this.bookingController == bookingController && user == null
      ensures this.checkInDate == checkInDate && this.checkOutDate == checkOutDate
      ensures roomDates == RoomDates(bookingController.cart, checkInDate, checkOutDate)
    {
      var dates := BuildRoomDates(bookingController.cart, checkInDate, checkOutDate);
      this.bookingController := bookingController;
      this.checkInDate := checkInDate;
      this.checkOutDate := checkOutDate;
      this.user := null;
      roomDates := dates;
    }

    /** The controller for a (possibly absent) user; it fixes the same dates as the other one. */
    constructor WithUser(bookingController: RoomBookingController, checkInDate: Day, checkOutDate: Day, user: User?)
      ensures this.bookingController == bookingController && this.user == user
      ensures this.checkInDate == checkInDate && this.checkOutDate == checkOutDate
      ensures roomDates == RoomDates(bookingController.cart, checkInDate, checkOutDate)
    {
      var dates := BuildRoomDates(bookingController.cart, checkInDate, checkOutDate);
      this.bookingController := bookingController;
      this.checkInDate := checkInDate;
      this.checkOutDate := checkOutDate;
      this.user := user;
      roomDates := dates;
    }

    function Plan(): StayPlan
    {
      StayPlan(roomDates, checkInDate, checkOutDate)
    }

    /**
      `generateFileName` with the day and the random draw passed in: the
      `yyyyMMdd` date, the user's nickname or `user` when there is no user,
      and the five-digit id, joined by '_', with a `.txt` suffix.
     */
    function GenerateFileName(today: Day, draw: int): (name: string)
      requires 0 <= draw < 90000
      ensures user == null ==> FileNameShape(name, BasicDate(today), "user", 10000 + draw)
      ensures user != null ==> FileNameShape(name, BasicDate(today), user.userName, 10000 + draw)
    {
      FileNameHasShape(today, NickNameOrDefault(user), draw);
      FileName(today, NickNameOrDefault(user), 10000 + draw)
    }

    /**
      The total `displayCart` shows: every entry priced on the general
      dates, which comes to the nights times the sum of the daily prices.
     */
    method DisplayCartTotal() returns (total: int)
      ensures total == Nights(checkInDate, checkOutDate) * Sum(PricesPerDay(bookingController.cart))
    {
      var cart := bookingController.cart;
      var nights := Nights(checkInDate, checkOutDate);
      total := 0;
      var i := 0;
      while i < |cart|
        invariant 0 <= i <= |cart|
        invariant total == nights * Sum(PricesPerDay(cart[..i]))
      {
        var room := cart[i];
        assert cart[..i + 1][..i] == cart[..i];
        total := total + CalculateTotalPrice(room, checkInDate, checkOutDate);
        assert nights * Sum(PricesPerDay(cart[..i + 1])) == nights * Sum(PricesPerDay(cart[..i])) + nights * room.pricePerDay;
        i := i + 1;
      }
      assert cart[..|cart|] == cart;
    }

    /**
      `generateBookingFile` with the day and the random draw passed in: the
      file name, the lines written, and the total accumulated in the loop.
     */
    method GenerateBookingFile(today: Day, draw: int) returns (fileName: string, lines: seq<Line>, total: int)
      requires 0 <= draw < 90000
      ensures fileName == GenerateFileName(today, draw)
      ensures lines == Receipt(user, today, bookingController.cart, Plan())
      ensures total == Sum(StayPrices(bookingController.cart, Plan()))
    {
      fileName := GenerateFileName(today, draw);
      var blocks;
      blocks, total := WriteRoomBlocks(bookingController.cart, Plan());
      lines := CustomerBlock(user) + BookingHeader(today) + blocks + Footer(total);
    }

    /**
      `processPayment`'s form: a refused form changes nothing, an accepted
      one stores the trimmed name and surname on the user.
     */
    method ProcessPayment(nameField: string, surnameField: string, cardField: string) returns (outcome: PaymentCheck)
      modifies user
      ensures outcome == CheckPayment(user != null, nameField, surnameField, cardField)
      ensures !outcome.Accepted? && user != null ==> unchanged(user)
      ensures outcome.Accepted? ==> user != null && user.realName == Some(outcome.name) && user.surname == Some(outcome.surname)
      ensures outcome.Accepted? ==> user.cart == old(user.cart)
    {
      outcome := CheckPayment(user != null, nameField, surnameField, cardField);
      if outcome.Accepted? {
        user.SetRealName(outcome.name);
        user.SetSurname(outcome.surname);
      }
    }

    /**
      The confirmation's OK button: the receipt is written for the cart as
      it is, and only then is the cart cleared and its rooms handed back.
     */
    method ConfirmPayment(today: Day, draw: int) returns (fileName: string, receipt: seq<Line>)
      requires 0 <= draw < 90000
      modifies bookingController, bookingController.cartQuantities.Keys
      ensures fileName == GenerateFileName(today, draw)
      ensures receipt == Receipt(user, today, old(bookingController.cart), Plan())
      ensures bookingController.cart == [] && bookingController.cartQuantities == map[]
      ensures forall r :: r in old(bookingController.cartQuantities) ==>
                r.available == old(r.available) + old(bookingController.cartQuantities[r])
    {
      var total;
      fileName, receipt, total := GenerateBookingFile(today, draw);
      bookingController.ClearCart();
    }
  }

  lemma SumOfThree(x: int)
    ensures Sum([x, x, x]) == 3 * x
  {
    assert [x, x, x][..2] == [x, x];
    assert [x, x][..1] == [x];
    assert [x][..0] == [];
    assert Sum([x]) == x;
    assert Sum([x, x]) == 2 * x;
  }

  /**
    The receipt and the cart view can disagree: one room added three times
    is shown at the chosen nights per entry, but the receipt charges every
    entry on the dates of the third entry, which leave two days later.
   */
  lemma StaggeredReceiptExceedsDisplay(room: Room, checkIn: Day, checkOut: Day)
    requires checkIn < checkOut
    ensures var cart := [room, room, room];
      var plan := StayPlan(RoomDates(cart, checkIn, checkOut), checkIn, checkOut);
      && Nights(checkIn, checkOut) * Sum(PricesPerDay(cart)) == 3 * (room.pricePerDay * (checkOut - checkIn))
      && Sum(StayPrices(cart, plan)) == 3 * (room.pricePerDay * (checkOut - checkIn + 2))
  {
    var cart := [room, room, room];
    var plan := StayPlan(RoomDates(cart, checkIn, checkOut), checkIn, checkOut);
    StayOfCartRoom(cart, checkIn, checkOut, room);
    assert LastIndexOf(cart, room) == 2;
    var charged := room.pricePerDay * (checkOut - checkIn + 2);
    assert plan.PriceOf(room) == charged;
    assert StayPrices(cart, plan) == [charged, charged, charged];
    SumOfThree(charged);
    assert PricesPerDay(cart) == [room.pricePerDay, room.pricePerDay, room.pricePerDay];
    SumOfThree(room.pricePerDay);
  }

}
