/**
 * The record shapes shared by every screen (src/types/index.ts).
 * Identifiers, names, dates and times are strings; the reservation status is
 * the three-valued union of the source; review ratings and party sizes are
 * integers.
 */
module Types {

  datatype Restaurant = Restaurant(
    id: string,
    name: string,
    image: string,
    address: string,
    rating: real,
    cuisine: string,
    phone: string,
    hours: string,
    description: string,
    lat: real,
    lng: real)

  datatype Status = Pending | Confirmed | Cancelled

  datatype Reservation = Reservation(
    id: string,
    restaurantId: string,
    restaurantName: string,
    restaurantImage: string,
    date: string,
    time: string,
    guests: int,
    status: Status)

  datatype Review = Review(
    id: string,
    restaurantId: string,
    userName: string,
    userAvatar: string,
    rating: int,
    comment: string,
    date: string)

  datatype User = User(
    name: string,
    email: string,
    phone: string,
    avatar: string)
}
