/**
  The shared cart and room inventory. The Java controller keeps its cart
  list and its quantity map in static fields, so every controller instance
  sees the same cart; here one `RoomBookingController` object stands for
  that shared state and every client holds a reference to it.
 */
module RoomBooking {
  import opened Seqs
  import opened Calendar
  import opened Models

  /** Nights charged for a stay: the day difference, but never less than one. */
  function Nights(checkIn: Day, checkOut: Day): (n: int)
    ensures n >= 1 && n >= checkOut - checkIn
    ensures n == 1 || n == checkOut - checkIn
  {
    if checkOut - checkIn < 1 then 1 else checkOut - checkIn
  }

  /**
    `calculateTotalPrice`: the per-day price times the nights; an empty or
    reversed range is charged as one night.
   */
  function CalculateTotalPrice(room: Room, checkIn: Day, checkOut: Day): (price: int)
    ensures checkIn < checkOut ==> price == room.pricePerDay * (checkOut - checkIn)
    ensures checkOut <= checkIn ==> price == room.pricePerDay
  {
    room.pricePerDay * Nights(checkIn, checkOut)
  }

  /** With a non-negative price, a later check-out never makes the stay cheaper. */
  lemma TotalPriceMonotone(room: Room, checkIn: Day, checkOut: Day, laterCheckOut: Day)
    requires room.pricePerDay >= 0 && checkOut <= laterCheckOut
    ensures CalculateTotalPrice(room, checkIn, checkOut) <= CalculateTotalPrice(room, checkIn, laterCheckOut)
  {
  }

  /** With a non-negative price, an earlier check-in never makes the stay cheaper. */
  lemma TotalPriceAntitoneInCheckIn(room: Room, checkIn: Day, laterCheckIn: Day, checkOut: Day)
    requires room.pricePerDay >= 0 && checkIn <= laterCheckIn
    ensures CalculateTotalPrice(room, laterCheckIn, checkOut) <= CalculateTotalPrice(room, checkIn, checkOut)
  {
  }

  class RoomBookingController {
    /** The rooms added since the last clear, in the order they were added; a room may repeat. */
    var cart: seq<Room>
    /** How many times each room has been added since the last clear. */
    var cartQuantities: map<Room, int>

    /** The quantity map counts exactly the occurrences of each room in the cart. */
    ghost predicate Valid()
      reads this
    {
      && (forall r :: r in cartQuantities ==> r in cart && cartQuantities[r] == Count(cart, r))
      && (forall i :: 0 <= i < |cart| ==> cart[i] in cartQuantities)
    }

    /** The empty cart the static fields start with. */
    constructor ()
      ensures cart == [] && cartQuantities == map[]
      ensures Valid()
    {
      cart := [];
      cartQuantities := map[];
    }

    /** `getCart`: every room's multiplicity in it is its cart quantity. */
    function GetCart(): (rooms: seq<Room>)
      reads this
      ensures Valid() ==> forall i :: 0 <= i < |rooms| ==> 0 < Count(rooms, rooms[i]) == GetCartQuantity(rooms[i])
    {
      CountsAreQuantities();
      cart
    }

    /** `getCartQuantity`: 0 for a room that is not in the cart. */
    function GetCartQuantity(room: Room): (quantity: int)
      reads this
      ensures Valid() ==> quantity == Count(cart, room)
      ensures Valid() && room !in cart ==> quantity == 0
    {
      CountPositiveIffIn(cart, room);
      if room in cartQuantities then cartQuantities[room] else 0
    }

    lemma CountsAreQuantities()
      ensures Valid() ==> forall i :: 0 <= i < |cart| ==> 0 < Count(cart, cart[i]) == GetCartQuantity(cart[i])
    {
      if Valid() {
        forall i | 0 <= i < |cart| ensures 0 < Count(cart, cart[i]) {
          CountPositiveIffIn(cart, cart[i]);
        }
      }
    }

    /**
      `addToCart`: refused, with nothing changed, when the room has no unit
      left; otherwise the room goes to the end of the cart, its quantity
      rises by one and one unit is taken from its availability.
     */
    method AddToCart(room: Room) returns (added: bool)
      modifies this, room
      ensures added <==> old(room.available) > 0
      ensures !added ==> cart == old(cart) && cartQuantities == old(cartQuantities)
      ensures added ==> cart == old(cart) + [room]
      ensures added ==> cartQuantities == old(cartQuantities)[room := old(GetCartQuantity(room)) + 1]
      ensures room.available == old(room.available) - (if added then 1 else 0)
      ensures old(Valid()) ==> Valid()
      ensures forall r: Room :: old(allocated(r)) ==> r.available + GetCartQuantity(r) == old(r.available + GetCartQuantity(r))
    {
      if room.available <= 0 {
        return false;
      }
      cart := cart + [room];
      if room in cartQuantities {
        cartQuantities := cartQuantities[room := cartQuantities[room] + 1];
      } else {
        cartQuantities := cartQuantities[room := 1];
      }
      room.SetAvailable(room.available - 1);
      added := true;
      if old(Valid()) {
        forall r | r in cartQuantities ensures r in cart && cartQuantities[r] == Count(cart, r) {
          CountAppend(old(cart), room, r);
          CountPositiveIffIn(old(cart), r);
        }
      }
    }

    /**
      `clearCart`: gives every room in the quantity map its quantity back,
      then empties the cart and the map.
     */
    method ClearCart()
      modifies this, cartQuantities.Keys
      ensures cart == [] && cartQuantities == map[]
      ensures Valid()
      ensures forall r: Room :: r in old(cartQuantities) ==> r.available == old(r.available) + old(cartQuantities[r])
      ensures forall r: Room :: old(allocated(r)) ==> r.available + GetCartQuantity(r) == old(r.available + GetCartQuantity(r))
    {
      var quantities := cartQuantities;
      var pending := quantities.Keys;
      while pending != {}
        invariant pending <= quantities.Keys
        invariant cart == old(cart) && cartQuantities == quantities
        invariant forall r: Room :: r in quantities && r !in pending ==> r.available == old(r.available) + quantities[r]
        invariant forall r: Room :: r in pending ==> r.available == old(r.available)
        decreases pending
      {
        var room :| room in pending;
        room.SetAvailable(room.available + quantities[room]);
        pending := pending - {room};
      }
      cart := [];
      cartQuantities := map[];
    }
  }

  /**
    Adding a room and then clearing the cart hands every room back the
    units that were in the cart: a room added once from an empty cart
    ends with its original availability.
   */
  method AddThenClear(controller: RoomBookingController, room: Room) returns (added: bool)
    requires controller.cart == [] && controller.cartQuantities == map[]
    modifies controller, room
    ensures controller.cart == [] && controller.cartQuantities == map[]
    ensures room.available == old(room.available)
    ensures added <==> old(room.available) > 0
  {
    added := controller.AddToCart(room);
    controller.ClearCart();
  }
}
