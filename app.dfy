/**
  The input checks of the application window: the login form, the dates
  the cart view and the search require, the city the search requires, and
  the logged-in user that login sets and logout clears.
 */
module App {
  import opened Seqs
  import opened Text
  import opened Calendar
  import opened Models
  import opened RoomBooking

  datatype LoginCheck = LoginRefused(message: string) | LoginAccepted(email: string, password: string)

  /**
    The login form: both trimmed fields must be non-empty, and the trimmed
    email must contain an '@' and a '.' somewhere, in either order.
   */
  function CheckLogin(emailField: string, passwordField: string): (outcome: LoginCheck)
    ensures outcome.LoginAccepted? <==>
      Trim(emailField) != [] && Trim(passwordField) != [] && '@' in Trim(emailField) && '.' in Trim(emailField)
    ensures outcome.LoginAccepted? ==> outcome.email == Trim(emailField) && outcome.password == Trim(passwordField)
    ensures Trim(emailField) == [] || Trim(passwordField) == [] ==> outcome == LoginRefused("Please fill in all fields")
  {
    var password, email := Trim(passwordField), Trim(emailField);
    if password == [] || email == [] then LoginRefused("Please fill in all fields")
    else if '@' !in email || '.' !in email then LoginRefused("Please enter a valid email address")
    else LoginAccepted(email, password)
  }

  /**
    An accepted email always splits into a first piece (its '.' is not an
    '@'), so building the user cannot fail, and its nickname is the text
    before the first '@', shorter than the email.
   */
  lemma AcceptedEmailHasNickName(emailField: string, passwordField: string)
    requires CheckLogin(emailField, passwordField).LoginAccepted?
    ensures var email := CheckLogin(emailField, passwordField).email;
      && SplitHasFirstPiece(email)
      && NickName(email) == email[..IndexOf(email, '@')]
      && |NickName(email)| < |email|
  {
  }

  /**
    The date checks shared by the cart view and the search, in their order:
    both dates chosen, check-in not before today, check-out after check-in.
   */
  function CheckDates(checkIn: Option<Day>, checkOut: Option<Day>, today: Day, missingMessage: string): (error: Option<string>)
    ensures error == None <==> checkIn.Some? && checkOut.Some? && today <= checkIn.value < checkOut.value
    ensures checkIn.None? || checkOut.None? ==> error == Some(missingMessage)
  {
    if checkIn.None? || checkOut.None? then Some(missingMessage)
    else if checkIn.value < today then Some("Check-in date cannot be before today.")
    else if checkOut.value <= checkIn.value then Some("Check-out date must be after check-in date.")
    else None
  }

  /**
    The cart button's checks: the cart opens exactly when both dates are
    chosen, check-in is not before today and check-out is after check-in,
    and the missing-dates refusal comes first.
   */
  function CheckCartView(checkIn: Option<Day>, checkOut: Option<Day>, today: Day): (error: Option<string>)
    ensures error == None <==> checkIn.Some? && checkOut.Some? && today <= checkIn.value < checkOut.value
    ensures checkIn.None? || checkOut.None? ==> error == Some("Please select dates before viewing cart.")
    ensures checkIn.Some? && checkOut.Some? && checkIn.value < today ==> error == Some("Check-in date cannot be before today.")
  {
    CheckDates(checkIn, checkOut, today, "Please select dates before viewing cart.")
  }

  /**
    The search button's checks: the dates first, then the city, which is
    not trimmed, so a city of blanks is searched for.
   */
  function CheckSearch(city: string, checkIn: Option<Day>, checkOut: Option<Day>, today: Day): (error: Option<string>)
    ensures error == None <==> CheckDates(checkIn, checkOut, today, "Please select dates.") == None && city != []
    ensures CheckDates(checkIn, checkOut, today, "Please select dates.") == None && city == [] ==> error == Some("Please fill in all fields.")
  {
    var dates := CheckDates(checkIn, checkOut, today, "Please select dates.");
    if dates.Some? then dates
    else if city == [] then Some("Please fill in all fields.")
    else None
  }

  /** Every accepted range is at least one night, and it is charged for exactly its nights. */
  lemma AcceptedRangeNights(checkIn: Option<Day>, checkOut: Option<Day>, today: Day, missingMessage: string)
    requires CheckDates(checkIn, checkOut, today, missingMessage) == None
    ensures checkIn.Some? && checkOut.Some?
    ensures Nights(checkIn.value, checkOut.value) == checkOut.value - checkIn.value >= 1
  {
  }

  /** The application window's login state. */
  class Session {
    var currentUser: User?

    constructor ()
      ensures currentUser == null
    {
      currentUser := null;
    }

    /**
      The login button: a refused form shows its message and leaves the
      user as it was; an accepted one logs in a new user built from the
      trimmed email and password.
     */
    method Login(emailField: string, passwordField: string) returns (message: Option<string>)
      modifies this
      ensures CheckLogin(emailField, passwordField).LoginRefused? ==>
        message == Some(CheckLogin(emailField, passwordField).message) && currentUser == old(currentUser)
      ensures CheckLogin(emailField, passwordField).LoginAccepted? ==>
        && message == None
        && currentUser != null && fresh(currentUser)
        && currentUser.email == Trim(emailField) && currentUser.password == Trim(passwordField)
        && currentUser.userName == NickName(Trim(emailField))
        && currentUser.GetBookings() == None
    {
      var outcome := CheckLogin(emailField, passwordField);
      if outcome.LoginRefused? {
        return Some(outcome.message);
      }
      AcceptedEmailHasNickName(emailField, passwordField);
      currentUser := new User(outcome.email, outcome.password);
      message := None;
    }

    /** The logout button. */
    method Logout()
      modifies this
      ensures currentUser == null
    {
      currentUser := null;
    }
  }
}
