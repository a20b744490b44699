/**
  The domain objects of the booking system: hotels, rooms, users and
  bookings. Hotels and rooms are compared by reference (neither class
  overrides `equals`), so both are classes here; a hotel never changes,
  a room changes only its availability, and a user gains a real name, a
  surname and one stored booking after construction.
 */
module Models {
  import opened Seqs
  import opened Text
  import opened Calendar

  /** A hotel: every attribute is fixed at construction. */
  class Hotel {
    const name: string
    const phoneNumber: string
    /** Documented as a 1-5 rating; nothing enforces it. */
    const stars: int
    const city: string
    const description: string

    constructor (name: string, phoneNumber: string, stars: int, city: string, description: string)
      ensures this.name == name && this.phoneNumber == phoneNumber && this.stars == stars
      ensures this.city == city && this.description == description
    {
      this.name := name;
      this.phoneNumber := phoneNumber;
      this.stars := stars;
      this.city := city;
      this.description := description;
    }
  }

  /**
    A room type of a hotel with its per-day price and the number of units
    still available. Only `available` changes after construction.
   */
  class Room {
    const hotel: Hotel
    const roomType: string
    const pricePerDay: int
    var available: int
    const description: string

    /** Stores its arguments unchecked: `available` may start out negative. */
    constructor (hotel: Hotel, roomType: string, pricePerDay: int, available: int, description: string)
      ensures this.hotel == hotel && this.roomType == roomType && this.pricePerDay == pricePerDay
      ensures this.available == available && this.description == description
    {
      this.hotel := hotel;
      this.roomType := roomType;
      this.pricePerDay := pricePerDay;
      this.available := available;
      this.description := description;
    }

    method SetAvailable(available: int)
      modifies this
      ensures this.available == available
    {
      this.available := available;
    }
  }

  /**
    `email.split("@")` has no pieces when the email is made of '@' only and
    is not empty (Java drops trailing empty pieces), and then `parts[0]`
    throws.
   */
  predicate SplitHasFirstPiece(email: string)
  {
    email == [] || exists i :: 0 <= i < |email| && email[i] != '@'
  }

  /** The text before the first `c`, or all of `s` when `c` does not occur. */
  function PrefixBefore(s: string, c: char): (r: string)
    ensures |r| <= |s| && r == s[..|r|]
    ensures c !in r
    ensures |r| < |s| ==> s[|r|] == c
  {
    if s == [] || s[0] == c then [] else [s[0]] + PrefixBefore(s[1..], c)
  }

  /** The nickname of `email.split("@")[0]`: the local part of the address. */
  function NickName(email: string): string
  {
    PrefixBefore(email, '@')
  }

  lemma NickNameOfAddress(email: string)
    ensures '@' !in email ==> NickName(email) == email
    ensures '@' in email ==> NickName(email) == email[..IndexOf(email, '@')]
  {
  }

  /**
    A logged-in user. The nickname is derived once from the email; the real
    name and surname are filled in at payment time, and `cart` holds at most
    one booking.
   */
  class User {
    const email: string
    const password: string
    const userName: string
    var realName: Option<string>
    var surname: Option<string>
    var cart: Option<Booking>

    constructor (email: string, password: string)
      requires SplitHasFirstPiece(email)
      ensures this.email == email && this.password == password
      ensures userName == NickName(email)
      ensures realName == None && surname == None && cart == None
    {
      this.email := email;
      this.password := password;
      this.userName := NickName(email);
      realName, surname, cart := None, None, None;
    }

    /** `getBookings`: the one booking stored, `None` (null) before any. */
    function GetBookings(): Option<Booking>
      reads this
    {
      cart
    }

    /** Replaces the stored booking: a user never holds more than one. */
    method AddBooking(booking: Booking)
      modifies this`cart
      ensures GetBookings() == Some(booking)
    {
      cart := Some(booking);
    }

    method SetRealName(name: string)
      modifies this`realName
      ensures realName == Some(name)
    {
      realName := Some(name);
    }

    method SetSurname(name: string)
      modifies this`surname
      ensures surname == Some(name)
    {
      surname := Some(name);
    }
  }

  /** A booking record; it has no setters. Its room is stored but never printed. */
  datatype Booking = Booking(id: string, user: User, hotel: Hotel, room: Room, checkIn: Day, checkOut: Day)
  {
    /**
      `outputBooking(booking)`: the receiver is not used, only the argument;
      the user is shown by nickname. The text opens with the id line and
      closes with the check-out line, with no newline after it.
     */
    function OutputBooking(booking: Booking): (text: string)
      ensures var head := "Booking ID: " + booking.id + "\n";
        |text| >= |head| && text[..|head|] == head
      ensures var tail := "\nCheck-out: " + IsoDate(booking.checkOut);
        |text| >= |tail| && text[|text| - |tail|..] == tail
    {
      LabelledJoinEnds(booking.id, booking.user.userName, booking.hotel.name, IsoDate(booking.checkIn), IsoDate(booking.checkOut));
      JoinLines(BookingLines(booking))
    }
  }

  function BookingLines(b: Booking): seq<string>
  {
    ["Booking ID: " + b.id,
     "User: " + b.user.userName,
     "Hotel: " + b.hotel.name,
     "Check-in: " + IsoDate(b.checkIn),
     "Check-out: " + IsoDate(b.checkOut)]
  }

  /**
    When no field holds a newline, the rendering is five lines, in the order
    id, user nickname, hotel, check-in, check-out, and no trailing newline.
   */
  lemma OutputBookingFiveLines(receiver: Booking, b: Booking)
    requires '\n' !in b.id && '\n' !in b.user.userName && '\n' !in b.hotel.name
    ensures var lines := SplitLines(receiver.OutputBooking(b));
      |lines| == 5
      && lines[0] == "Booking ID: " + b.id
      && lines[1] == "User: " + b.user.userName
      && lines[2] == "Hotel: " + b.hotel.name
      && lines[3] == "Check-in: " + IsoDate(b.checkIn)
      && lines[4] == "Check-out: " + IsoDate(b.checkOut)
  {
    BookingLinesHaveNoNewline(b);
    SplitJoinLines(BookingLines(b));
  }

  lemma BookingLinesHaveNoNewline(b: Booking)
    requires '\n' !in b.id && '\n' !in b.user.userName && '\n' !in b.hotel.name
    ensures forall k :: 0 <= k < |BookingLines(b)| ==> '\n' !in BookingLines(b)[k]
  {
    IsoDateHasNoNewline(b.checkIn);
    IsoDateHasNoNewline(b.checkOut);
    LabelledLinesHaveNoNewline(b.id, b.user.userName, b.hotel.name, IsoDate(b.checkIn), IsoDate(b.checkOut));
  }

  /** The joined labelled lines open with the id line and close with the check-out line. */
  lemma LabelledJoinEnds(id: string, user: string, hotel: string, checkIn: string, checkOut: string)
    ensures var text := JoinLines(["Booking ID: " + id, "User: " + user, "Hotel: " + hotel,
                                   "Check-in: " + checkIn, "Check-out: " + checkOut]);
      var head, tail := "Booking ID: " + id + "\n", "\nCheck-out: " + checkOut;
      && |text| >= |head| && text[..|head|] == head
      && |text| >= |tail| && text[|text| - |tail|..] == tail
  {
    var lines := ["Booking ID: " + id, "User: " + user, "Hotel: " + hotel, "Check-in: " + checkIn, "Check-out: " + checkOut];
    JoinLinesEnds(lines);
  }

  /** The five labels add no newline of their own. */
  lemma LabelledLinesHaveNoNewline(id: string, user: string, hotel: string, checkIn: string, checkOut: string)
    requires '\n' !in id && '\n' !in user && '\n' !in hotel && '\n' !in checkIn && '\n' !in checkOut
    ensures var lines := ["Booking ID: " + id, "User: " + user, "Hotel: " + hotel,
                          "Check-in: " + checkIn, "Check-out: " + checkOut];
      forall k :: 0 <= k < |lines| ==> '\n' !in lines[k]
  {
  }

  lemma IsoDateHasNoNewline(z: Day)
    ensures '\n' !in IsoDate(z)
  {
    var d := CivilFromDays(z);
    if d.year > 9999 {
      assert '\n' !in DecimalDigits(d.year);
    } else if d.year < 0 {
      assert '\n' !in ZeroPad(-d.year, 4);
    } else {
      assert '\n' !in ZeroPad(d.year, 4);
    }
    assert '\n' !in ZeroPad(d.month, 2);
    assert '\n' !in ZeroPad(d.day, 2);
  }
}
