/**
 * The documents of every collection, with the validators their schemas
 * declare. Fields whose schema gives an enum are kept as the strings the
 * database stores, because updates that bypass validation can store any
 * string there; each enum is a constant list. A string field that the
 * handlers only test for truthiness uses "" for "absent"; a reference or a
 * field whose absence changes a query is an `Option`.
 */
module Schema {
  import opened Wrappers

  /** A document id (an ObjectId). */
  type Id = nat

  /** A required string is present and non-empty. */
  predicate Given(s: Option<string>) { s.Some? && s.value != "" }

  /** A number from a request body passes `!x` only when present and not 0. */
  predicate Truthy(x: Option<int>) { x.Some? && x.value != 0 }

  /**
   * A field as a loaded document reports it: never set (`undefined`), set
   * to `null`, or holding a value. The two empty states compare unequal.
   */
  datatype Field<T> = Unset | Null | Set(value: T)

  /**
   * What a save or an update writes for a body field, given what the field
   * holds when the body leaves it undefined (the schema's default, or the
   * stored value): a JSON null is written as null, a value as itself.
   */
  function Written<T>(f: Field<T>, otherwise: Option<T>): (r: Option<T>)
    ensures f.Unset? ==> r == otherwise
    ensures f.Null? ==> r.None?
    ensures f.Set? ==> r == Some(f.value)
  {
    match f
    case Unset => otherwise
    case Null => None
    case Set(v) => Some(v)
  }

  // ---- models/User.model.js

  const UserRoles: seq<string> := ["user", "directBuilder", "admin", "superAdmin", "broker"]

  datatype User = User(
    name: string,
    email: string,
    username: string,
    password: Option<string>,
    role: string,
    phone: Option<string>,
    socialId: Option<string>,
    likedUnits: seq<Id>,
    isActive: bool,
    isVerified: bool,
    emailVerified: bool,
    otp: Field<string>,
    otpExpires: Field<int>,
    resetToken: Option<string>,
    resetTokenExpiry: Option<int>)

  /** The fields `save` requires of a user: email and username. */
  predicate UserRequired(u: User) { u.email != "" && u.username != "" }

  /**
   * What `save` checks of a user: the required fields and the role enum.
   * A loaded document's fields are validated again on every save, so a role
   * stored earlier by an unvalidated update makes a later save fail.
   */
  predicate UserValid(u: User) { UserRequired(u) && u.role in UserRoles }

  // ---- models/Property/BuilderProfile.model.js and the media sub-documents

  datatype Media = Media(url: string, kind: string, title: string)

  /** Every media item has a url and a type. */
  predicate MediaValid(items: seq<Media>) {
    forall i :: 0 <= i < |items| ==> items[i].url != "" && items[i].kind != ""
  }

  datatype BuilderProfile = BuilderProfile(
    user: Option<Id>,
    companyName: string,
    city: string,
    coverPhotos: seq<Media>,
    gallery: seq<Media>,
    createdAt: int)

  predicate ProfileValid(b: BuilderProfile) {
    b.user.Some? && b.companyName != "" && MediaValid(b.coverPhotos) && MediaValid(b.gallery)
  }

  // ---- models/Property/Project.model.js, Building, Floor, Unit

  const PropertyTypes: seq<string> := ["Plot", "Apartment", "Villa", "Commercial"]

  datatype Project = Project(
    builder: Option<Id>,
    projectName: Option<string>,
    city: string,
    area: string,
    propertyType: string,
    price: Option<int>,
    possessionDate: Option<string>,
    description: string,
    media: seq<Media>)

  predicate ProjectValid(p: Project) {
    p.builder.Some? && Given(p.projectName) && p.propertyType in PropertyTypes
    && p.possessionDate.Some? && p.description != "" && MediaValid(p.media)
  }

  datatype Building = Building(project: Option<Id>, buildingName: Option<string>)

  predicate BuildingValid(b: Building) { b.project.Some? && Given(b.buildingName) }

  datatype Floor = Floor(building: Option<Id>, floorNumber: Option<int>)

  predicate FloorValid(f: Floor) { f.building.Some? }

  const Availabilities: seq<string> := ["available", "booked", "sold"]

  datatype Unit = Unit(
    floor: Option<Id>,
    unitNumber: Option<string>,
    availability: string,
    totalPrice: Option<int>,
    media: seq<Media>)

  predicate UnitValid(u: Unit) { u.floor.Some? && u.availability in Availabilities && MediaValid(u.media) }

  // ---- models/Booking.model.js

  const BookingStatuses: seq<string> := ["pending", "confirmed", "cancelled", "completed"]

  datatype Booking = Booking(
    user: Option<Id>,
    unit: Option<Id>,
    builder: Option<Id>,
    savedForLater: Option<bool>,  // None: stored as null
    status: string,
    bookedAt: int)

  // ---- models/Transaction.model.js (amounts in rupees)

  const PaymentMethods: seq<string> := ["credit_card", "debit_card", "net_banking", "upi", "cash", "other"]
  const TransactionStatuses: seq<string> := ["created", "pending", "completed", "failed", "refunded"]

  datatype Transaction = Transaction(
    user: Option<Id>,
    builder: Option<Id>,
    property: Option<Id>,
    amount: int,
    paymentMethod: string,
    status: string,
    remarks: string,
    orderId: Option<string>,
    paymentId: Option<string>,
    createdAt: int)

  predicate TransactionValid(t: Transaction) {
    t.user.Some? && t.paymentMethod in PaymentMethods && t.status in TransactionStatuses
  }

  // ---- models/Lead.model.js

  const LeadSources: seq<string> := ["website", "referral", "phone", "email", "walk-in", "advertisement", "other"]
  const LeadStatuses: seq<string> := ["new", "contacted", "interested", "not interested", "converted", "lost"]

  datatype Note = Note(text: string, date: int, addedBy: Option<Id>)

  datatype Lead = Lead(
    user: Option<Id>,
    userName: string,
    userEmail: string,
    userPhone: string,
    builder: Option<Id>,
    project: Option<Id>,
    unit: Option<Id>,
    source: string,
    status: string,
    assignedTo: Option<Id>,
    notes: seq<Note>,
    initialPaymentDone: bool,
    bookingPageVisited: bool,
    createdAt: int)

  /** The fields `save` requires of a lead: its user and a user name. */
  predicate LeadRequired(l: Lead) { l.user.Some? && l.userName != "" }

  /** What `save` checks of a lead, loaded fields included: the required fields and both enums. */
  predicate LeadValid(l: Lead) { LeadRequired(l) && l.source in LeadSources && l.status in LeadStatuses }

  // ---- models/Inquiry.model.js

  const InquiryStatuses: seq<string> := ["new", "in-progress", "closed"]

  datatype Inquiry = Inquiry(
    user: Option<Id>,
    builder: Option<Id>,
    project: Option<Id>,
    message: string,
    contactEmail: string,
    contactPhone: string,
    status: string,
    createdAt: int,
    respondedAt: Option<int>)

  predicate InquiryRequired(q: Inquiry) { q.user.Some? && q.builder.Some? && q.message != "" }

  /** What `save` checks of an inquiry: the required fields and the status enum. */
  predicate InquiryValid(q: Inquiry) { InquiryRequired(q) && q.status in InquiryStatuses }

  // ---- models/Review.model.js and models/Feedback.model.js

  const ModerationStatuses: seq<string> := ["pending", "approved", "rejected"]

  datatype Review = Review(
    user: Option<Id>,
    builder: Option<Id>,
    project: Option<Id>,
    rating: int,
    title: string,
    comment: string,
    status: string,
    createdAt: int)

  predicate ReviewValid(r: Review) {
    r.user.Some? && r.builder.Some? && 1 <= r.rating <= 5 && r.status in ModerationStatuses
  }

  datatype Feedback = Feedback(
    user: Option<Id>,
    builder: Option<Id>,
    project: Option<Id>,
    rating: int,
    comment: string,
    status: string,
    createdAt: int)

  predicate FeedbackValid(f: Feedback) {
    f.user.Some? && 1 <= f.rating <= 5 && f.status in ModerationStatuses
  }

  // ---- models/Complaint.model.js

  const ComplaintStatuses: seq<string> := ["open", "in-progress", "resolved", "closed"]

  datatype Complaint = Complaint(
    user: Option<Id>,
    subject: string,
    description: string,
    relatedProperty: Option<Id>,
    relatedBuilder: Option<Id>,
    status: string,
    response: string,
    createdAt: int,
    updatedAt: Option<int>)

  /** The fields `save` requires of a complaint; the subject is stored trimmed. */
  predicate ComplaintRequired(c: Complaint) { c.user.Some? && c.subject != "" && c.description != "" }

  /** What `save` checks of a complaint: the required fields and the status enum. */
  predicate ComplaintValid(c: Complaint) { ComplaintRequired(c) && c.status in ComplaintStatuses }

  // ---- Notification (the routes' fields; its model is not part of this model)

  datatype Notification = Notification(
    user: Option<Id>,
    title: string,
    message: string,
    link: string,
    isRead: bool,
    createdAt: int)

  // ---- models/Ads.model.js

  const AdPositions: seq<string> := ["homepage", "sidebar", "footer", "popup"]

  datatype Ad = Ad(
    title: string,
    image: string,
    redirectUrl: string,
    isActive: Option<bool>,  // None: stored as null
    position: string,
    createdBy: Option<Id>,
    createdAt: int)

  predicate AdValid(a: Ad) {
    a.title != "" && a.image != "" && a.redirectUrl != "" && a.position in AdPositions
  }

  // ---- models/NewsLetter.model.js

  datatype Subscriber = Subscriber(email: string, subscribedAt: int)

  // ---- models/SavedProperties.model.js

  datatype SavedProperty = SavedProperty(user: Option<Id>, unit: Option<Id>, savedAt: int)

  // ---- models/BookingForm.model.js

  datatype BookingForm = BookingForm(
    firstName: string,
    lastName: string,
    country: string,
    address: string,
    city: string,
    zipCode: string,
    email: string,
    phone: string,
    note: string,
    createdAt: int)

  /** All the contact fields the form requires are filled in. */
  predicate FormComplete(f: BookingForm) {
    f.firstName != "" && f.lastName != "" && f.country != "" && f.address != ""
    && f.city != "" && f.email != "" && f.phone != ""
  }

  // ---- models/Appointment.model.js

  const AppointmentStatuses: seq<string> := ["pending", "confirmed", "cancelled", "completed"]

  datatype Appointment = Appointment(
    user: Option<Id>,
    builder: Option<Id>,
    property: Option<Id>,
    appointmentDate: Option<int>,
    status: string,
    remarks: string,
    createdAt: int)

  predicate AppointmentRequired(a: Appointment) { a.user.Some? && a.builder.Some? && a.appointmentDate.Some? }

  // ---- Calendar event (the routes' fields; its model is not part of this model)

  datatype CalendarEvent = CalendarEvent(
    userId: Option<Id>,
    createdBy: Option<Id>,
    title: string,
    startDate: int,
    endDate: int,
    isPublic: bool,
    link: string)

  // ---- models/Broker.model.js

  const BrokerTypes: seq<string> := ["Internal", "Broker", "Agent"]

  datatype Broker = Broker(
    user: Option<Id>,
    companyName: string,
    selectType: string,
    activeListings: int,
    closedDeals: int,
    commissionRate: Option<int>,
    properties: seq<Id>)

  predicate BrokerValid(b: Broker) {
    b.user.Some? && b.selectType in BrokerTypes && b.commissionRate.Some?
  }
}
