# Hotel booking core

This project models the in-memory booking domain of a JavaFX hotel booking
application and proves properties of the model.

- **Models.** Hotels are immutable objects. Rooms change only their `available` count. A user's nickname comes from the email, and the user holds one stored booking. A booking prints as five lines.
- **RoomBooking.** The shared cart is a list of rooms plus a map from each room to its quantity. Adding to the cart takes a unit from the room's availability. Clearing the cart gives every unit back. A stay is charged `price * max(1, nights)`.
- **HotelFind.** The shared catalog is two append-only lists. Hotels are searched by city, ignoring case. Rooms are searched by their hotel, compared by reference. The search results show a stay length and a total.
- **Cart.** The cart controller gives each cart entry its own dates. The i-th entry's check-in moves by `i mod 2` days and its check-out by `i mod 3` days. The controller also:
  - shows the cart total on the general dates;
  - validates the payment form;
  - writes the receipt: its lines, its running total and a file name of the form `yyyyMMdd_nickname_id.txt`.
- **App.** The application window checks the login form and the dates and city. It keeps the logged-in user.

The Java static fields become one object each. `RoomBookingController` and `HotelFindController` hold the state that every Java instance shares, and all clients hold a reference to that object. Dates are day numbers counted from 1970-01-01. The `Calendar` module converts them to proleptic Gregorian dates and prints them in the ISO 8601 extended form `YYYY-MM-DD` and the basic form `YYYYMMDD` (ISO 8601:2004 section 5.2.1.1), the way `LocalDate` prints them. Supporting modules:

- `Seqs` has counts, an order-preserving filter and sums.
- `Text` covers the `java.lang.String` behaviour the core relies on: `trim`, `equalsIgnoreCase` and decimal digits. It also joins lines with '\n', as the booking rendering does. Splitting at '\n' is only the inverse of that join, used to state the shape of the rendering; no operation of the core splits text.

The source calls `getEmail`, `getRealName`, `getSurname`, `setRealName` and `setSurname` on `User` (src/main/java/Controllers/CartController.java:297-298, 385-388), but `User.java` does not define them. The model gives `User` a constant email and optional real name and surname fields instead.

## Model

| member | source | states |
|---|---|---|
| Models.Hotel.constructor | src/main/java/Models/Hotel.java:32-38 | every attribute is the constructor argument, unchecked (stars may be outside 1-5); all are constants afterwards |
| Models.Room.constructor | src/main/java/Models/Room.java:32-38 | hotel, type, price, availability and description are stored as given; a negative availability is accepted |
| Models.Room.SetAvailable | src/main/java/Models/Room.java:76-78 | the availability becomes the argument and nothing else in the room changes (the other attributes are constants) |
| Models.PrefixBefore | src/main/java/Models/User.java:11-12 | the nickname is a prefix of the email without '@', followed in the email by '@' unless it is the whole email |
| Models.NickNameOfAddress | src/main/java/Models/User.java:11-12 | without '@' the nickname is the whole email; otherwise it is the text before the first '@' |
| Models.User.constructor | src/main/java/Models/User.java:8-13 | email and password are stored unchanged, the nickname is the part before the first '@', no booking is stored; the constructor demands an email that `split("@")` does not empty |
| Models.User.GetBookings | src/main/java/Models/User.java:15-17 | returns the one stored booking, `None` (Java's null) before any; `Models.User.AddBooking` states its effect through it |
| Models.User.AddBooking | src/main/java/Models/User.java:15-20 | the stored booking is replaced, not appended: `GetBookings` returns the latest one |
| Models.User.SetRealName | src/main/java/Controllers/CartController.java:297 | the real name becomes the argument and nothing else in the user changes |
| Models.User.SetSurname | src/main/java/Controllers/CartController.java:298 | the surname becomes the argument and nothing else in the user changes |
| Models.Booking.OutputBooking | src/main/java/Models/Booking.java:22-28 | the text of the argument booking opens with its id line and a newline, and closes with its check-out line with no newline after it; `Models.OutputBookingFiveLines` gives the full five-line shape |
| Models.OutputBookingFiveLines | src/main/java/Models/Booking.java:22-28 | with newline-free fields, the rendering splits into exactly five lines, in the order id, user nickname, hotel, check-in, check-out, with no trailing newline, whatever the receiver |
| Models.BookingLinesHaveNoNewline | src/main/java/Models/Booking.java:23-27 | no rendered line holds a newline when the id, nickname and hotel name hold none |
| Models.IsoDateHasNoNewline | src/main/java/Models/Booking.java:26-27 | a printed date never holds a newline |
| Text.TrimEmptyIffBlank | src/main/java/App/Main.java:110-114 | `trim().isEmpty()` holds exactly when every character is at most U+0020 |
| Text.TrimIsSlice | src/main/java/App/Main.java:110-111 | the trimmed text is the slice from the end of the longest blank prefix (characters at most U+0020) to the start of the longest blank suffix of the rest; everything cut off is blank, and a non-empty result starts and ends with a character above U+0020 |
| Text.EqualsIgnoreCaseIffFold | src/main/java/Controllers/HotelFindController.java:72 | case-insensitive equality holds exactly when both texts lower-case to the same text |
| Text.EqualsIgnoreCaseTransitive | src/main/java/Controllers/HotelFindController.java:72 | case-insensitive equality is transitive |
| Text.DecimalDigits | src/main/java/Controllers/CartController.java:459 | a number prints as at least one digit, with no leading zero |
| Text.DecimalDigitsRoundTrip | src/main/java/Controllers/CartController.java:453-459 | reading the printed number back gives the number |
| Text.FiveDigitWidth | src/main/java/Controllers/CartController.java:453 | ids from 10000 to 99999 print as five characters |
| Text.SplitJoinLines | src/main/java/Models/Booking.java:23-27 | splitting newline-joined lines at '\n' gives the lines back when none holds a newline |
| Calendar.CivilFromDays | src/main/java/Controllers/CartController.java:419-420 | every day number is a valid calendar date that maps back to the same day number |
| Calendar.CivilRoundTrip | src/main/java/Controllers/CartController.java:419-420 | every valid date maps to a day number and back to itself |
| Calendar.IsoDateRoundTrip | src/main/java/Controllers/CartController.java:419-420 | for years 0 to 9999 the printed date is ten characters `YYYY-MM-DD` and parses back to the same day |
| Calendar.BasicDateDropsDashes | src/main/java/Controllers/CartController.java:448-449 | for years 1 to 9999 `yyyyMMdd` is eight characters: the ISO date without its dashes |
| RoomBooking.Nights | src/main/java/Controllers/RoomBookingController.java:123-124 | nights are at least one and at least the day difference, and equal one of the two |
| RoomBooking.CalculateTotalPrice | src/main/java/Controllers/RoomBookingController.java:121-128 | a forward range costs price times its length; an empty or reversed range costs one night |
| RoomBooking.TotalPriceMonotone | src/main/java/Controllers/RoomBookingController.java:123-127 | with a non-negative price, a later check-out never lowers the total |
| RoomBooking.TotalPriceAntitoneInCheckIn | src/main/java/Controllers/RoomBookingController.java:123-127 | with a non-negative price, an earlier check-in never lowers the total |
| RoomBooking.RoomBookingController.constructor | src/main/java/Controllers/RoomBookingController.java:21-24 | the shared cart and quantity map start empty, and the quantity invariant holds |
| RoomBooking.RoomBookingController.GetCart | src/main/java/Controllers/RoomBookingController.java:57-59 | under the invariant, each room in the cart occurs as many times as its quantity, at least once |
| RoomBooking.RoomBookingController.GetCartQuantity | src/main/java/Controllers/RoomBookingController.java:66-68 | under the invariant, the quantity is the room's number of occurrences in the cart, 0 for a room not in it |
| RoomBooking.RoomBookingController.CountsAreQuantities | src/main/java/Controllers/RoomBookingController.java:38-45 | under the invariant, every cart entry's count equals its recorded quantity |
| RoomBooking.RoomBookingController.AddToCart | src/main/java/Controllers/RoomBookingController.java:31-51 | refused with nothing changed when `available <= 0`; otherwise appends the room, raises its quantity by one (absent counts as 0), lowers `available` by one; keeps the invariant and `available + quantity` of every room |
| RoomBooking.RoomBookingController.ClearCart | src/main/java/Controllers/RoomBookingController.java:73-84 | every room in the map gets its quantity back, then cart and map are empty; `available + quantity` of every room is preserved |
| RoomBooking.AddThenClear | src/main/java/Controllers/RoomBookingController.java:73-84 | adding a room to an empty cart and clearing restores the room's original availability |
| HotelFind.HotelsInCityExact | src/main/java/Controllers/HotelFindController.java:70-74 | the city search returns each hotel whose city matches ignoring case as often as it is listed, and no other hotel |
| HotelFind.HotelsInCityAppend | src/main/java/Controllers/HotelFindController.java:70-74 | the search keeps list order: searching a concatenation concatenates the results |
| HotelFind.HotelsInCityIgnoresCase | src/main/java/Controllers/HotelFindController.java:70-74 | cities that differ only in letter case give the same result |
| HotelFind.RoomsOfHotelExact | src/main/java/Controllers/HotelFindController.java:157-161 | the room search returns each room whose hotel is the given object as often as it is listed, and no other room |
| HotelFind.RoomsOfHotelAppend | src/main/java/Controllers/HotelFindController.java:157-161 | the room search keeps list order |
| HotelFind.DisplayedDays | src/main/java/Controllers/HotelFindController.java:206-207 | the displayed stay is at least one day, and exactly the difference for a forward range |
| HotelFind.DisplayedTotalAgrees | src/main/java/Controllers/HotelFindController.java:229 | the displayed days and total equal the nights and price the cart charges |
| HotelFind.HotelFindController.constructor | src/main/java/Controllers/HotelFindController.java:26-47 | the object stands for the static hotel and room lists, which are empty when the class is loaded (lines 26-29), and the constructor binds the given shared cart (lines 45-47) |
| HotelFind.HotelFindController.AddHotel | src/main/java/Controllers/HotelFindController.java:53-55 | the hotel is appended, duplicates kept; every city search gains it at the end exactly when its city matches |
| HotelFind.HotelFindController.AddRoom | src/main/java/Controllers/HotelFindController.java:61-63 | the room is appended, duplicates kept; the search of its own hotel gains it at the end, other searches are unchanged |
| HotelFind.HotelFindController.FindHotelsByCity | src/main/java/Controllers/HotelFindController.java:70-74 | every hotel found is listed with a matching city, and every listed hotel with a matching city is found; reads the catalog without changing it |
| HotelFind.HotelFindController.FindRoomsByHotel | src/main/java/Controllers/HotelFindController.java:157-161 | every room found is listed and belongs to the hotel, and every listed room of the hotel is found; reads the catalog without changing it |
| Cart.StaggeredRange | src/main/java/Controllers/CartController.java:67-68 | an entry's check-in is 0 or 1 day late, its check-out 0 to 2 days late, and entries 0, 6, 12, ... keep the general dates |
| Cart.RoomDatesLastOccurrence | src/main/java/Controllers/CartController.java:65-70 | a room has dates exactly when it is in the cart, and they are the dates of its last occurrence |
| Cart.BuildRoomDates | src/main/java/Controllers/CartController.java:62-72 | the constructor loop gives entry i the i-th staggered dates, later entries overwriting earlier ones |
| Cart.StayOfCartRoom | src/main/java/Controllers/CartController.java:410-417 | the receipt uses the dates of a cart room's last occurrence, and the general dates for any other room |
| Cart.CustomerBlock | src/main/java/Controllers/CartController.java:382-389 | the customer block exists exactly when there is a user; it opens with the heading and the rule, its third line is `Name: <real name> <surname>` when both are set (and it is one line shorter otherwise), and its second to last line is the Email line |
| Cart.RoomBlockDatesRender | src/main/java/Controllers/CartController.java:419-420 | the only date lines of a room block are its check-in and check-out lines; for years 0 to 9999 each prints as its label plus ten characters `YYYY-MM-DD` that read back as the day |
| Cart.Receipt | src/main/java/Controllers/CartController.java:381-431 | the receipt has the customer block's length plus six header lines, the room blocks and two footer lines; it opens with the customer block, the line after the block's next two is the Booking Date line with today's date, and the last line is the TOTAL PRICE line carrying the sum of the entries' prices |
| Cart.StayPrices | src/main/java/Controllers/CartController.java:422-424 | one price per cart entry, each computed on that room's own dates |
| Cart.RoomBlocksPrices | src/main/java/Controllers/CartController.java:402-427 | the Price lines of the room blocks are the entries' prices, in cart order |
| Cart.ReceiptTotalIsSumOfPrices | src/main/java/Controllers/CartController.java:400-431 | the receipt has one Price line per cart entry and ends with the TOTAL PRICE line, whose amount is the sum of the Price lines |
| Cart.WriteRoomBlocks | src/main/java/Controllers/CartController.java:400-427 | the loop writes the blocks in cart order and accumulates the sum of the entries' prices |
| Cart.FileNameLayout | src/main/java/Controllers/CartController.java:448-459 | a file name is the `yyyyMMdd` date and '_', then the nickname and '_', then the id and `.txt`, at those positions |
| Cart.FileNameIdWidth | src/main/java/Controllers/CartController.java:451-459 | every draw gives a five-digit id from 10000 to 99999, which ends the name before `.txt` and reads back as the id |
| Cart.FileNamesDifferByDraw | src/main/java/Controllers/CartController.java:451-459 | on one day for one user, different draws give different file names |
| Cart.ValidCardHasSixteenDigits | src/main/java/Controllers/CartController.java:282 | both accepted card forms, with their dashes removed, are sixteen digits |
| Cart.CheckPayment | src/main/java/Controllers/CartController.java:262-294 | the form is accepted exactly when there is a user, the trimmed name, surname and card are non-empty and the card matches one of the two patterns; otherwise it is refused for no user exactly when there is no user, for missing fields exactly when there is a user and a trimmed name, surname or card is empty, and for an invalid card only when the trimmed card is non-empty and matches neither pattern, so every input has one outcome |
| Cart.AcceptedCardHasSixteenDigits | src/main/java/Controllers/CartController.java:282 | an accepted card number is sixteen digits once its dashes are dropped |
| Cart.StaggeredReceiptExceedsDisplay | src/main/java/Controllers/CartController.java:150-151 | a room added three times is displayed at three times its nights' price, but the receipt charges each entry two extra nights |
| Cart.CartController.constructor | src/main/java/Controllers/CartController.java:81-98 | without a user, the per-room dates are those of the cart at construction |
| Cart.CartController.WithUser | src/main/java/Controllers/CartController.java:55-73 | with a user, the per-room dates are the same as without one |
| Cart.CartController.GenerateFileName | src/main/java/Controllers/CartController.java:446-460 | the name is the `yyyyMMdd` date and '_', then the user's nickname, or `user` when there is no user, and '_', then the five-digit id `10000 + draw` and `.txt`, and the id reads back as `10000 + draw` |
| Cart.FileNameHasShape | src/main/java/Controllers/CartController.java:446-460 | every draw in [0, 90000) gives a name that is the date, the nickname and the five-digit id in that order, each closed by its separator, with the id reading back |
| Cart.CartController.DisplayCartTotal | src/main/java/Controllers/CartController.java:127-151 | the displayed total is the general nights times the sum of the daily prices |
| Cart.CartController.GenerateBookingFile | src/main/java/Controllers/CartController.java:369-440 | the receipt is customer block, booking header, one block per cart entry and the total; the total is the sum of the entries' prices |
| Cart.CartController.ProcessPayment | src/main/java/Controllers/CartController.java:208-298 | a refused form changes nothing; an accepted one stores the trimmed name and surname on the user |
| Cart.CartController.ConfirmPayment | src/main/java/Controllers/CartController.java:343-349 | the receipt is written for the cart as it was, and then the cart is emptied and every room gets its quantity back |
| App.CheckLogin | src/main/java/App/Main.java:110-123 | login is accepted exactly when the trimmed email and password are non-empty and the email contains '@' and '.'; an empty field gives "Please fill in all fields" |
| App.AcceptedEmailHasNickName | src/main/java/App/Main.java:120-126 | an accepted email can always build a user, and its nickname is the text before the first '@', shorter than the email |
| App.CheckDates | src/main/java/App/Main.java:393-412 | the dates pass exactly when both are chosen, check-in is not before today and check-out is after check-in; missing dates give the caller's message |
| App.CheckCartView | src/main/java/App/Main.java:391-412 | the cart opens exactly when both dates are chosen, check-in is not before today and check-out is after check-in; missing dates give "Please select dates before viewing cart." and a past check-in gives its own message |
| App.CheckSearch | src/main/java/App/Main.java:430-461 | the search passes exactly when the dates pass and the untrimmed city is non-empty |
| App.AcceptedRangeNights | src/main/java/App/Main.java:407-412 | every accepted range is at least one night and is charged for exactly its nights |
| App.Session.Login | src/main/java/App/Main.java:108-130 | a refused login shows its message and keeps the current user; an accepted one logs in a fresh user from the trimmed email and password, with its nickname and no booking |
| App.Session.Logout | src/main/java/App/Main.java:491-496 | the current user becomes null |

## Left out

- JavaFX presentation is not modelled. This covers window and label construction, the cart and listing views, `updateRoomUI`, the modal dialogs, and the console messages.
- The asynchronous `Task`/`Thread`/`Platform.runLater` around the searches is not modelled. The queries are modelled as synchronous functions.
- Writing the receipt file with `FileWriter` (and its `IOException`) is not modelled. The receipt is a sequence of lines, and its name is returned next to it.
- `LocalDate.now()` and `java.util.Random` are replaced by parameters: `today` and a draw in [0, 90000).
- `%.2f` amounts and `double` totals are not modelled. They depend on floating point and locale, and the model keeps amounts as integers.
- Receipt lines keep dates as day numbers. `Cart.Render` gives a date line its ISO text, and `Cart.RoomBlockDatesRender` states that text for years 0 to 9999.
- `LocalDate` range limits are not modelled. Day numbers are unbounded integers.
- Calendar.IsoDateRoundTrip: proved only for years 0 to 9999. Outside that range the printed year takes a sign and the text is not `YYYY-MM-DD`.
- RoomBooking.CalculateTotalPrice: does not model `long` overflow or the conversion to `double`. Prices and night counts are unbounded integers.
- RoomBooking.RoomBookingController.AddToCart: does not model 32-bit wrap-around of the quantity, because that would need 2^31 additions.
- Text.EqualsIgnoreCaseIffFold: covers ASCII case folding only, not Java's full Unicode `equalsIgnoreCase`.
- `getCart` returns the live list in Java, so a caller could change the cart through it. The model returns the value, and no caller in the core changes it.
- The default `HotelFindController()` constructor is not modelled separately. It builds a new `RoomBookingController`, which still shares the static cart, so it behaves like the modelled constructor given the shared cart object.
- The sample catalog data loaded at start-up is not part of this model.
- HotelFind.HotelFindController.constructor: the object stands for the static lists and is built once, empty. In the source `HotelFindController` is constructed on every login (src/main/java/App/Main.java:129, 165, 174), after the seed data is added again to the same static lists, so after a logout and a second login every seeded hotel and room is listed twice. Rebuilding on each login and the catalog growing with repeated seed data are not modelled.
- The empty launcher src/main/java/com/example/final_oop/Main.java is not part of this model.
- Cart.CartController.ProcessPayment: the payment confirmation dialog is not modelled. `ConfirmPayment` is the OK button of that dialog, run after an accepted form.
- The search's check that `LocalDate.toString()` is non-empty is not modelled. A printed date is never empty.
- Java null references are not modelled: every string, hotel, user and booking field is non-null. So the model leaves out these behaviours:
  - `findRoomsByHotel` throws on a listed room whose hotel is null (src/main/java/Controllers/HotelFindController.java:159).
  - `findHotelsByCity` throws on a listed hotel whose city is null (src/main/java/Controllers/HotelFindController.java:72).
  - `outputBooking` prints `null` for a null id (src/main/java/Models/Booking.java:23).
  - `addBooking(null)` empties the stored booking (src/main/java/Models/User.java:18-20).
- `generateBookingFile` reads `LocalDate.now()` twice: once for the Booking Date line and once in `generateFileName` (src/main/java/Controllers/CartController.java:394 and 448). The model passes one `today` to both, so a receipt written across midnight, whose name and Booking Date differ by a day, is not modelled.
- Models.User.constructor: requires an email that `split("@")` does not empty, leaving out the `ArrayIndexOutOfBoundsException` on a non-empty email made only of '@'. The only caller (src/main/java/App/Main.java:126) never passes such an email, as `App.AcceptedEmailHasNickName` proves.
