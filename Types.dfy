/** The records the site passes between its components (types.ts). */
module Types {

  /** The screens App can show. BOOKING_SUCCESS is declared but never entered. */
  datatype ViewState = HOME | ADMIN | BOOKING_SUCCESS

  /** A tour in the catalogue. Prices are whole currency units. */
  datatype TourPackage = TourPackage(
    id: string,
    title: string,
    destination: string,
    duration: string,
    price: int,
    description: string,
    image: string,
    highlights: seq<string>)

  datatype Status = PENDING | CONFIRMED | CANCELLED

  /** A booking request; `createdAt` is an ISO timestamp handed in by the caller. */
  datatype Booking = Booking(
    id: string,
    packageId: string,
    packageTitle: string,
    customerName: string,
    email: string,
    phone: string,
    travelDate: string,
    status: Status,
    createdAt: string)

  datatype Role = User | Model

  /** One line of the chat transcript. */
  datatype ChatMessage = ChatMessage(role: Role, text: string)

  datatype Option<T> = None | Some(value: T)
}
