/**
  The hotel catalog. Its hotel and room lists are static in the Java
  controller and only ever grow; one `HotelFindController` object stands
  for them here. The two queries are order-preserving filters.
 */
module HotelFind {
  import opened Seqs
  import opened Text
  import opened Calendar
  import opened Models
  import opened RoomBooking

  /** Hotels whose city equals `city` ignoring case, in list order. */
  function HotelsInCity(hotels: seq<Hotel>, city: string): (found: seq<Hotel>)
  {
    Filter((h: Hotel) => EqualsIgnoreCase(h.city, city), hotels)
  }

  /** Rooms whose hotel is `hotel` itself (hotels are compared by reference), in list order. */
  function RoomsOfHotel(rooms: seq<Room>, hotel: Hotel): (found: seq<Room>)
  {
    Filter((r: Room) => r.hotel == hotel, rooms)
  }

  /**
    Every hotel of the city is found as often as it is listed, and no
    other hotel is found.
   */
  lemma HotelsInCityExact(hotels: seq<Hotel>, city: string, h: Hotel)
    ensures Count(HotelsInCity(hotels, city), h) == if EqualsIgnoreCase(h.city, city) then Count(hotels, h) else 0
  {
    FilterCount((h: Hotel) => EqualsIgnoreCase(h.city, city), hotels, h);
  }

  /** The search keeps list order: results for a longer list extend those for its prefix. */
  lemma HotelsInCityAppend(hotels: seq<Hotel>, more: seq<Hotel>, city: string)
    ensures HotelsInCity(hotels + more, city) == HotelsInCity(hotels, city) + HotelsInCity(more, city)
  {
    FilterAppend((h: Hotel) => EqualsIgnoreCase(h.city, city), hotels, more);
  }

  /** Searching for "paris", "Paris" or "PARIS" gives the same hotels in the same order. */
  lemma HotelsInCityIgnoresCase(hotels: seq<Hotel>, city: string, otherCity: string)
    requires EqualsIgnoreCase(city, otherCity)
    ensures HotelsInCity(hotels, city) == HotelsInCity(hotels, otherCity)
  {
    forall i | 0 <= i < |hotels|
      ensures EqualsIgnoreCase(hotels[i].city, city) == EqualsIgnoreCase(hotels[i].city, otherCity)
    {
      EqualsIgnoreCaseIffFold(hotels[i].city, city);
      EqualsIgnoreCaseIffFold(hotels[i].city, otherCity);
      EqualsIgnoreCaseIffFold(city, otherCity);
    }
    FilterCongruent((h: Hotel) => EqualsIgnoreCase(h.city, city), (h: Hotel) => EqualsIgnoreCase(h.city, otherCity), hotels);
  }

  /** Every room of the hotel is found as often as it is listed, and no other room is found. */
  lemma RoomsOfHotelExact(rooms: seq<Room>, hotel: Hotel, r: Room)
    ensures Count(RoomsOfHotel(rooms, hotel), r) == if r.hotel == hotel then Count(rooms, r) else 0
  {
    FilterCount((r: Room) => r.hotel == hotel, rooms, r);
  }

  /** The room query keeps list order. */
  lemma RoomsOfHotelAppend(rooms: seq<Room>, more: seq<Room>, hotel: Hotel)
    ensures RoomsOfHotel(rooms + more, hotel) == RoomsOfHotel(rooms, hotel) + RoomsOfHotel(more, hotel)
  {
    FilterAppend((r: Room) => r.hotel == hotel, rooms, more);
  }

  /** The stay length shown next to each room: the day difference, at least one. */
  function DisplayedDays(checkIn: Day, checkOut: Day): (days: int)
    ensures days >= 1
    ensures checkIn < checkOut ==> days == checkOut - checkIn
  {
    if checkOut - checkIn < 1 then 1 else checkOut - checkIn
  }

  /** The total shown next to each room: its per-day price times the shown days. */
  function DisplayedTotal(room: Room, checkIn: Day, checkOut: Day): int
  {
    room.pricePerDay * DisplayedDays(checkIn, checkOut)
  }

  /** The listing shows the same stay length and total that the cart charges. */
  lemma DisplayedTotalAgrees(room: Room, checkIn: Day, checkOut: Day)
    ensures DisplayedDays(checkIn, checkOut) == Nights(checkIn, checkOut)
    ensures DisplayedTotal(room, checkIn, checkOut) == CalculateTotalPrice(room, checkIn, checkOut)
  {
  }

  class HotelFindController {
    var hotels: seq<Hotel>
    var rooms: seq<Room>
    /** The cart the listing's "Add to Cart" buttons feed. */
    const bookingController: RoomBookingController

    /**
      One object stands for the static hotel and room lists, which are empty
      when the class is loaded; the constructor binds the shared cart.
     */
    constructor (bookingController: RoomBookingController)
      ensures hotels == [] && rooms == []
      ensures this.bookingController == bookingController
    {
      hotels := [];
      rooms := [];
      this.bookingController := bookingController;
    }

    /** `addHotel`: appended at the end, duplicates kept. */
    method AddHotel(hotel: Hotel)
      modifies this`hotels
      ensures hotels == old(hotels) + [hotel]
      ensures forall city :: FindHotelsByCity(city) == old(FindHotelsByCity(city))
                                + (if EqualsIgnoreCase(hotel.city, city) then [hotel] else [])
    {
      hotels := hotels + [hotel];
      forall city {
        HotelsInCityAppend(old(hotels), [hotel], city);
      }
    }

    /** `addRoom`: appended at the end, duplicates kept. */
    method AddRoom(room: Room)
      modifies this`rooms
      ensures rooms == old(rooms) + [room]
      ensures forall hotel :: old(allocated(hotel)) ==>
                FindRoomsByHotel(hotel) == old(FindRoomsByHotel(hotel)) + (if room.hotel == hotel then [room] else [])
    {
      rooms := rooms + [room];
      forall hotel: Hotel | old(allocated(hotel)) {
        RoomsOfHotelAppend(old(rooms), [room], hotel);
      }
    }

    /** `findHotelsByCity`: exactly the listed hotels of that city, in list order. */
    function FindHotelsByCity(city: string): (found: seq<Hotel>)
      reads this
      ensures forall i :: 0 <= i < |found| ==> found[i] in hotels && EqualsIgnoreCase(found[i].city, city)
      ensures forall i :: 0 <= i < |hotels| && EqualsIgnoreCase(hotels[i].city, city) ==> hotels[i] in found
    {
      HotelsInCity(hotels, city)
    }

    /** `findRoomsByHotel`: exactly the listed rooms of that hotel, in list order. */
    function FindRoomsByHotel(hotel: Hotel): (found: seq<Room>)
      reads this
      ensures forall i :: 0 <= i < |found| ==> found[i] in rooms && found[i].hotel == hotel
      ensures forall i :: 0 <= i < |rooms| && rooms[i].hotel == hotel ==> rooms[i] in found
    {
      RoomsOfHotel(rooms, hotel)
    }
  }
}
