/** The records of the LondonHome customer app: catalog services, bookings,
    wallet transactions and the user profile. Money is an exact `real`
    (pounds); optional fields of the records are `Option`s. */
module Types {

  datatype Option<+T> = None | Some(value: T)

  datatype ServiceCategory =
    | Cleaning | Handyman | Beauty | Laundry | Maintenance | Pets
    | Wellness | CarCare | Childcare | Tutoring | Concierge

  /** What a service's price is quoted per. */
  datatype PriceUnit = Hour | Fixed | Item | Day

  /** An immutable catalog entry. */
  datatype Service = Service(
    id: string,
    name: string,
    category: ServiceCategory,
    description: string,
    price: real,
    unit: PriceUnit,
    image: string,
    isRecurring: Option<bool>,
    requiresVetting: Option<bool>)

  datatype BookingStatus = Pending | Accepted | InProgress | Completed | Cancelled

  datatype Booking = Booking(
    id: string,
    serviceId: string,
    serviceName: string,
    date: string,
    time: string,
    status: BookingStatus,
    totalPrice: real,
    address: string,
    providerId: Option<string>,
    providerName: Option<string>,
    providerAvatar: Option<string>,
    eta: Option<string>,
    isRecurring: Option<bool>)

  datatype TransactionType = Credit | Debit

  /** A wallet history entry; `amount` is a magnitude, `kind` gives its direction. */
  datatype Transaction = Transaction(
    id: string,
    kind: TransactionType,
    amount: real,
    description: string,
    date: string)

  datatype Membership = Basic | Gold

  /** The signed-in customer: tier, wallet balance, loyalty points and the
      transaction history, newest first. */
  datatype UserProfile = UserProfile(
    name: string,
    membership: Membership,
    walletBalance: real,
    points: int,
    transactions: seq<Transaction>)

  /** The tabs of the customer app's bottom navigation. */
  datatype CustomerTab = Discover | Wallet | Tasks | Profile
}
