# Real-estate CRM backend, modelled in Dafny

The system is an Express and Mongoose backend for a real-estate sales CRM. Builders describe their stock as a hierarchy:
builder profile, project, building, floor, unit. Buyers browse that hierarchy, save and like units, book them and pay
for them through a payment gateway. Staff work leads, and every party files inquiries, complaints, reviews,
appointments, feedback, notifications and calendar events. Accounts go through signup, a mailed one-time code, login
and password reset. A static location directory of states, districts and places is numbered once at start-up.

The model keeps the database as one map per collection, from a document id to its record (`Store.Tables`), held by
a class `Store.Db` whose `NewId` hands out fresh ids. `Store.Tables.Valid` is the set of facts the database itself
enforces: every id in use is below the next fresh id, plus the unique indexes of the schemas. Every state-changing
route handler is a method on a `Db`. It requires and ensures `Valid()`, and its `ensures` gives the whole new state
in terms of the old one, so "nothing else changes" is part of each contract. Read-only routes, the access gate and
the schema rules are functions over the maps. A query is an ascending scan of ids below the fresh id (`Store.Find`,
`Store.First`), which is insertion order; a `sort` is a sorted permutation of those ids (`Store.SortBy`), and the order it gives to equal keys is one the model picks, since a database sort fixes none. A refusal is a
`Wrappers.Status`: 400 `BadRequest`, 401 `Unauthorized`, 403 `Forbidden`, 404 `NotFound`, 409 `Conflict`, and
`ServerError` for a handler's catch-all 500. Foreign primitives are parameters of the members that use them: JWT
verification, bcrypt hashing and comparison, HMAC-SHA256, the gateway's order call, the clock, the one-time code and
the reset token.

Each module follows one source file or one group of routes: `Access` (the middleware), `Accounts` (sign-up, codes,
login, reset), `Users`, `Property` (hierarchy writes), `Hierarchy` (hierarchy views, the landing filter and the walk
from a unit up to its builder), `Bookings`, `Payments` (the mounted transaction router), `Payments1` (the second
transaction router), `Leads`, `Brokers`, `Saved`, `Inquiries`, `Complaints`, `Reviews`, `Appointments`,
`FeedbackRoutes`, `Notifications`, `Calendar`, `Newsletter`, `Ads`, `BookingForms`, `Location`. `Schema` holds the
record types and the validators of the models, `Text` the string functions the routes call (`split`, `trim`,
`toLowerCase`), and `Wrappers` the result types.

## Model

| member | source | states |
|---|---|---|
| Access.BearerTokenAfterPrefix | middleware/auth.js:9-12 | After the "Bearer " prefix the header splits into at least two pieces, and the token (the second piece) is the text after the prefix up to the next space |
| Access.Authenticate | middleware/auth.js:6-26 | Every refusal is a 401. The gate succeeds exactly when the header starts with "Bearer ", the token verifies to the id of a stored user and that user is active, and then the caller is that user |
| Access.RefusedBeforeLookup | middleware/auth.js:9-11 | A header without the "Bearer " prefix is a 401 whatever users are stored |
| Access.AuthorizeRoles | middleware/auth.js:29-36 | Passes exactly when a caller is attached and their role is among the listed ones, handing on that caller; otherwise a 403 |
| Access.AuthorizeRolesMonotone | middleware/auth.js:29-36 | Listing more roles never locks out a caller who was let through |
| Access.NoRolesRefusesAll | middleware/auth.js:29-36 | A gate listing no roles refuses everyone with a 403 |
| Access.BuilderGateRefusesDeclaredRoles | routes/Booking.router.js:126 | The gate listing only "builder", a role the User schema does not declare, refuses every caller with a declared role |
| Accounts.Scan | routes/Auth.router.js:16 | The one-pass reading of a password consumes every character |
| Accounts.ScanFlags | routes/Auth.router.js:16 | Each flag of the pass is set exactly when some character of its class occurs (lowercase, uppercase, digit, special, and a character outside the allowed set) |
| Accounts.ScanAgreesWithPolicy | routes/Auth.router.js:16 | The one-pass automaton accepts exactly the passwords the policy expression accepts (four lookaheads and 6 to 30 allowed characters) |
| Accounts.NewAccount | routes/Auth.router.js:48-64 | The new user is a verified-pending, active `user` with the hashed password, the request's email, username and phone, and a code that expires ten minutes later; a complete request gives a user the schema accepts |
| Accounts.Signup | routes/Auth.router.js:35-77 | A missing field, or an email, username or phone already in use, is a 400 with no change; otherwise exactly one user is added, under a fresh id, and the unique indexes still hold |
| Accounts.WithOtp | routes/Auth.router.js:90-91 | Only the code and its expiry (ten minutes from now) change |
| Accounts.ResendOtp | routes/Auth.router.js:79-100 | An unknown user is a 404 and a verified one a 400, both with no change; a user the save's validation refuses (a missing email or username, or a role outside the enum) is a 500 with no change; otherwise only that user's code and expiry are replaced |
| Accounts.OtpCheck | routes/Auth.router.js:107-118 | The code verifies exactly when the email is not yet verified, the submitted code (left out, null or a string) is strictly equal to the stored one, and the expiry is not past, where an unset expiry is never past and a null one is past after the epoch; the result is the user verified with null stored in both code fields; any refusal is a 400 |
| Accounts.ClearedOtpNeverVerifies | routes/Auth.router.js:111-117 | A user whose code was cleared by an earlier verification never verifies again, even when the email was marked unverified since: a left-out code differs from the stored null, and a null code meets a null expiry, which is past |
| Accounts.VerifyOtpOnce | routes/Auth.router.js:111-117 | Once a code has verified, any further check with any code at any time is refused |
| Accounts.FreshOtpVerifiesUntilExpiry | routes/Auth.router.js:52 | A freshly sent code verifies exactly up to ten minutes after it was sent |
| Accounts.VerifyOtp | routes/Auth.router.js:103-137 | An unknown user is a 404 and a failed check a 400, with no change; a user the save's validation refuses (required fields or the role enum) is a 500 with no change; otherwise only that user is replaced by the checked one |
| Accounts.Login | routes/Auth.router.js:142-179 | The checks in order: a missing field is a 400 (exactly then), no matching or an inactive user a 404, an unverified email a 403, a wrong password a 401; a success names an active, verified user whose email or username is the identifier and whose password matches |
| Accounts.UnverifiedCannotLogIn | routes/Auth.router.js:146-161 | A user whose email is not verified cannot log in with their email, whatever the password |
| Accounts.GoogleSignIn | routes/Auth.router.js:182-249 | A missing code is a 400; any other request fails (the client the route calls is never defined) |
| Accounts.WithResetToken | routes/Auth.router.js:258-262 | Only the reset token and its expiry, one hour from now, change |
| Accounts.ForgotPassword | routes/Auth.router.js:251-290 | No user with the email is a 404 with no change; a user the save's validation refuses (required fields or the role enum) is a 500 with no change; otherwise only the first such user gets the token and expiry |
| Accounts.AfterReset | routes/Auth.router.js:310-315 | The reset user has the new hash and no token, and keeps every field the unique indexes look at |
| Accounts.ResetTokenSingleUse | routes/Auth.router.js:304-315 | A user who was reset matches no token afterwards |
| Accounts.ResetTokenExpires | routes/Auth.router.js:258 | An issued token matches exactly while the time is earlier than one hour after issue |
| Accounts.ResetPassword | routes/Auth.router.js:293-322 | A password failing the policy is a 400 with no change, and so is a token no user holds unexpired; a user the save's validation refuses (required fields or the role enum) is a 500 with no change; otherwise only the first matching user is reset with the hash of the new password |
| Accounts.MissingPasswordRefused | routes/Auth.router.js:298-302 | An absent password (tested as the text "undefined") always fails the policy |
| Ads.NewAd | routes/Ads.router.js:7-15 | The new ad carries the body's title, image and link; its flag is true when the body leaves it undefined, null when the body sends null, and the body's value otherwise, so it is listed exactly when the flag is undefined or true; it is placed on the homepage unless a position is given, and names the caller as creator whatever the body says |
| Ads.CreateAd | routes/Ads.router.js:7-15 | Non-administrators get a 403 and an ad the schema refuses a 500, with no change; otherwise exactly the new ad is added under a fresh id |
| Ads.ActiveAds | routes/Ads.router.js:18-25 | Lists exactly the ads whose flag is true (not false, not null), each once, newest first |
| Ads.AllAds | routes/Ads.router.js:28-35 | Refused exactly for non-administrators; otherwise lists every ad |
| Ads.Patched | routes/Ads.router.js:38-46 | Every field the body gives replaces the stored one, a null flag included, which is written as null; every other field is kept, and the creation time never changes |
| Ads.UpdateSkipsValidation | models/Ads.model.js:3-29 | The update can store an ad whose position is outside the schema's list, which the schema would refuse |
| Ads.UpdateAd | routes/Ads.router.js:38-46 | Non-administrators get a 403 and an unknown ad a 404, with no change; otherwise only that ad is patched |
| Ads.ActivationControlsListing | routes/Ads.router.js:18-46 | After an update that gives the active flag, the ad is on the public listing exactly when the flag is true; false and null both take it off |
| Ads.DeleteAd | routes/Ads.router.js:49-57 | Non-administrators get a 403 and an unknown ad a 404, with no change; otherwise only that ad is removed |
| Appointments.NewAppointment | routes/Appointment.router.js:14-22 | The appointment is the caller's, `pending`, with the body's builder, property and date; it has the schema's required fields exactly when builder and date are given |
| Appointments.CreateAppointment | routes/Appointment.router.js:7-27 | Callers other than users get a 403 and a missing builder or date a 400, with no change; a date of 0, which is falsy, is also a 400; otherwise exactly the new appointment is added under a fresh id |
| Appointments.MyAppointments | routes/Appointment.router.js:30-39 | Refused exactly for non-users; otherwise lists exactly the caller's appointments |
| Appointments.AllAppointments | routes/Appointment.router.js:54-64 | Refused exactly for non-administrators; otherwise lists every appointment |
| Appointments.BuilderAppointments | routes/Appointment.router.js:42-51 | As written: refused exactly for callers who are not directBuilders; otherwise the listing holds every appointment matching an absent filter |
| Appointments.BuilderListingShowsEveryAppointment | routes/Appointment.router.js:42-51 | As written, any directBuilder's listing holds every stored appointment |
| Appointments.OwnAppointments | routes/Appointment.router.js:42-51 | As intended: a directBuilder without a builder profile is refused, and otherwise gets exactly the appointments with their profile |
| Appointments.OwnAppointmentsAreOwn | routes/Appointment.router.js:42-51 | With one profile per user, the corrected listing holds exactly the appointments whose builder profile the caller owns |
| Appointments.SetAppointmentStatus | routes/Appointment.router.js:67-89 | Callers outside the gate get a 403 and a status outside the four a 400, both before any lookup; an unknown appointment is a 404; a directBuilder is always refused (403, or 500 for an appointment without a builder); otherwise only the status changes; every refusal leaves the store unchanged |
| Appointments.DeleteAppointment | routes/Appointment.router.js:92-110 | An unknown appointment is a 404; an administrator or the creator removes it and nothing else; anyone else gets a 403 (a 500 when it has no creator), with no change |
| BookingForms.NewForm | routes/BookingForm.router.js:19-35 | The stored form holds exactly the submitted contact fields and the submission time |
| BookingForms.CompleteBodySaves | models/BookingForm.model.js:3-14 | The route's presence check holds exactly when the stored form has every field the schema requires |
| BookingForms.SubmitForm | routes/BookingForm.router.js:5-40 | A missing required field is a 400 with no change; otherwise exactly the new form is added under a fresh id |
| BookingForms.AllForms | routes/BookingForm.router.js:42-49 | Lists every form, each once, newest first |
| BookingForms.GetForm | routes/BookingForm.router.js:51-59 | Returns the stored form exactly when the id is known, and a 404 otherwise |
| BookingForms.SubmitThenGet | routes/BookingForm.router.js:5-59 | A submitted form reads back under its new id with the submitted email, phone and note |
| BookingForms.DeleteForm | routes/BookingForm.router.js:62-70 | An unknown form is a 404 with no change; otherwise only that form is removed |
| Bookings.BookedBuilder | routes/Booking.router.js:11-35 | Names a builder exactly when the walk up from the unit reaches a stored builder profile, and that builder's units include the unit |
| Bookings.NewBooking | routes/Booking.router.js:10-90 | The booking is the caller's, for the unit and its builder, and `pending`; its flag is false when the body leaves it undefined, null when the body sends null, and the body's value otherwise, so it holds its unit exactly when the flag is undefined or false |
| Bookings.Reserve | routes/Booking.router.js:8-97 | Callers outside the gate get a 403 and an unknown unit a 404; a unit some booking already holds (one whose flag is stored as false, never one stored as null) is a 409 on POST / and a 400 on POST /book; a broken hierarchy link is a 500; every refusal leaves the store unchanged; otherwise exactly the new booking is added, and at most one booking holds each unit before and after |
| Bookings.InsertKeepsOneActive | routes/Booking.router.js:26-34 | Adding a booking for a unit no booking holds keeps at most one holder per unit |
| Bookings.NullFlagHoldsNothing | routes/Booking.router.js:26-79 | A booking whose flag is stored as null takes no unit: the units some booking holds are the same before and after it is inserted, so a later request for its unit is not refused as taken |
| Bookings.AllBookings | routes/Booking.router.js:101-111 | Refused (403) exactly for non-admins; otherwise lists every booking |
| Bookings.MyBookings | routes/Booking.router.js:114-123 | Refused (403) exactly for callers outside the gate; otherwise lists exactly the caller's bookings |
| Bookings.BuilderBookings | routes/Booking.router.js:126-135 | Refused (403) exactly when the caller's role is not "builder"; otherwise lists the bookings whose builder is the caller's user id |
| Bookings.BuilderBookingsAlwaysForbidden | routes/Booking.router.js:126-135 | Every caller with a role the User schema declares is refused |
| Bookings.SetBookingStatus | routes/Booking.router.js:138-147 | Callers outside the gate get a 403 and an unknown booking a 404, with no change; otherwise only the status is overwritten with whatever is given, and one holder per unit is kept |
| Bookings.CancelBooking | routes/Booking.router.js:150-158 | Only a booking of the caller's own is removed; anything else is a 404 with no change; one holder per unit is kept |
| Brokers.NewBroker | routes/Broker.router.js:26-29 | The profile is for the resolved user whatever the body says; the body's company name, type, commission rate, counters and unit list are stored as given, and when omitted the name and type are empty, the counters 0 and the unit list empty; the schema accepts it exactly when a listed type and a commission rate are given |
| Brokers.ProfileOwner | routes/Broker.router.js:11-20 | An administrator must name a user (else a 400) and gets that one; anyone else gets themself |
| Brokers.CreateBroker | routes/Broker.router.js:8-37 | Callers outside the gate get a 403; no owner, an owner who already has a profile, or a body the schema refuses is a 400; every refusal leaves the store unchanged; otherwise exactly the new profile is added, for the resolved owner |
| Brokers.AllBrokers | routes/Broker.router.js:40-50 | Refused, with a 403, exactly for non-administrators; otherwise lists every profile |
| Brokers.MyBroker | routes/Broker.router.js:53-64 | Callers outside the gate get a 403; otherwise the caller's own profile, or a 404 exactly when they have none |
| Brokers.AssignProperties | routes/Broker.router.js:67-82 | Non-administrators get a 403, an unknown profile a 404, a missing list or an invalid profile a 400, with no change; otherwise only the unit list and `activeListings`, its length, change |
| Brokers.Assigned | routes/Broker.router.js:95-99 | `Object.assign`: every field the body gives (owner, company name, type, closed deals, commission rate, unit list) replaces the stored one and every field it omits is kept; a given unit list also sets the count to its length, and a count given without a list is stored as given |
| Brokers.AssignedIdempotent | routes/Broker.router.js:95-99 | Applying the same body twice gives the same profile as applying it once |
| Brokers.AssignKeepsCount | routes/Broker.router.js:95-99 | A body that gives no count keeps a profile whose count matches its units matching |
| Brokers.UpdateBroker | routes/Broker.router.js:84-104 | Callers outside the gate get a 403 and an unknown profile a 404; a profile without an owner is a 400; anyone but the owner or an administrator gets a 403; a result the schema or the one-profile-per-user index refuses is a 400; every refusal leaves the store unchanged; otherwise only that profile is replaced |
| Brokers.BrokersOfUnit | routes/Broker.router.js:107-123 | Lists exactly the brokers assigned the unit, and is a 404 exactly when there are none |
| Brokers.DeleteBroker | routes/Broker.router.js:125-136 | An unknown profile is a 404 with no change; otherwise only that profile is removed |
| Calendar.NewEvent | routes/Calender.router.js:98-108 | The event belongs to the named target user, or to the caller when none is named, is created by the caller, carries the body's title and dates, and is public only when the body says true |
| Calendar.CreateEvent | routes/Calender.router.js:90-115 | A missing title, start or end is a 400 with no change, and so is a start or end of 0, which is falsy; otherwise exactly the new event is added under a fresh id |
| Calendar.MyEvents | routes/Calender.router.js:118-133 | Lists exactly the events the caller owns or created, earliest start first |
| Calendar.CreatedVisibleToBoth | routes/Calender.router.js:90-133 | An event put on another user's calendar is listed both for that user and for its creator |
| Calendar.GetEvent | routes/Calender.router.js:137-146 | Returns the event exactly when it exists and the caller owns it; otherwise a 404, even for its creator |
| Calendar.Assigned | routes/Calender.router.js:159-160 | Every field the body gives replaces the stored one, and every other is kept |
| Calendar.AssignIdempotent | routes/Calender.router.js:159-160 | An empty body changes nothing, and assigning the same body twice is assigning it once |
| Calendar.CreatorCheck | routes/Calender.router.js:149-158 | Passes exactly for the creator of a stored event; an unknown event is a 404, one without a creator a 500, anyone else a 403 |
| Calendar.UpdateEvent | routes/Calender.router.js:149-166 | A failed creator check is that refusal with no change; otherwise only that event has the body assigned onto it |
| Calendar.UpdateCanHandOver | routes/Calender.router.js:149-166 | After an update by the creator, they pass the creator check again exactly when the body left the creator alone or named them |
| Calendar.DeleteEvent | routes/Calender.router.js:169-184 | A failed creator check is that refusal with no change; otherwise only that event is removed |
| Complaints.NewComplaint | routes/Complaint.router.js:7-29 | The complaint is the caller's, `open`, its subject trimmed, stamped with the save time; it has the schema's required fields exactly when the trimmed subject and the description are non-empty |
| Complaints.CreateComplaint | routes/Complaint.router.js:7-29 | Callers outside the gate get a 403 and a missing subject or description a 400; a subject of only whitespace passes the route but fails the save (a 500); every refusal leaves the store unchanged; otherwise exactly the new complaint is added under a fresh id |
| Complaints.MyComplaints | routes/Complaint.router.js:32-41 | Refused exactly for callers outside the gate; otherwise lists exactly the caller's complaints |
| Complaints.AllComplaints | routes/Complaint.router.js:56-66 | Refused exactly for non-administrators; otherwise lists every complaint |
| Complaints.BuilderComplaints | routes/Complaint.router.js:44-53 | As written: refused exactly for callers who are not directBuilders; otherwise the listing holds every complaint matching an absent filter |
| Complaints.BuilderListingShowsEveryComplaint | routes/Complaint.router.js:44-53 | As written, any directBuilder's listing holds every stored complaint |
| Complaints.OwnComplaints | routes/Complaint.router.js:44-53 | As intended: a directBuilder without a builder profile is refused, and otherwise gets exactly the complaints about their profile |
| Complaints.OwnComplaintsAreOwn | routes/Complaint.router.js:44-53 | With one profile per user, the corrected listing holds exactly the complaints about a builder profile the caller owns |
| Complaints.Revised | routes/Complaint.router.js:81-92 | A given non-empty status and response replace the old ones, absent or empty ones keep them, the update time is stamped, and nothing else changes |
| Complaints.UpdateComplaint | routes/Complaint.router.js:69-97 | Callers outside the gate get a 403 and an unknown complaint a 404; a directBuilder is always refused (403, or 500 without a builder); a given status outside the list is a 400; a revision the re-validating save refuses (required fields or the status enum) is a 500; every refusal leaves the store unchanged; otherwise only that complaint is revised, and its status is a listed one or the old one |
| Complaints.DeleteComplaint | routes/Complaint.router.js:100-118 | An unknown complaint is a 404; an administrator or the creator removes it and nothing else; anyone else gets a 403 (a 500 when it has no creator), with no change |
| FeedbackRoutes.NewFeedback | routes/Feedback.router.js:15-22 | The feedback is the caller's, for the body's builder and project, with the rating, the comment trimmed, `pending`, and satisfies the schema |
| FeedbackRoutes.SubmitFeedback | routes/Feedback.router.js:7-29 | Callers outside the gate get a 403 and a missing or out-of-range rating a 400, with no change; otherwise exactly the new feedback is added; every stored feedback stays valid |
| FeedbackRoutes.InsertKeepsValid | routes/Feedback.router.js:15-24 | Storing a valid feedback keeps every stored feedback valid |
| FeedbackRoutes.RatingAcceptedRange | routes/Feedback.router.js:11-13 | The route accepts exactly the ratings 1 to 5 |
| FeedbackRoutes.AdminFeedback | routes/Feedback.router.js:32-46 | Refused exactly for non-admins; otherwise every feedback, or exactly those with the status when one is given |
| FeedbackRoutes.SetFeedbackStatus | routes/Feedback.router.js:49-63 | Non-admins get a 403, a status outside the three a 400 before any lookup, an unknown feedback a 404, with no change; otherwise only the status changes, and every stored feedback stays valid |
| FeedbackRoutes.BuilderFilter | routes/Feedback.router.js:68-70 | A directBuilder filters by their own user id, anyone else by the query's builder |
| FeedbackRoutes.BuilderFeedback | routes/Feedback.router.js:66-80 | Refused exactly for callers outside the gate; a directBuilder gets exactly the feedback whose builder is their user id, an admin every feedback or exactly those for the builder given |
| FeedbackRoutes.MyFeedback | routes/Feedback.router.js:83-92 | Refused exactly for non-users; otherwise lists exactly the caller's feedback |
| Hierarchy.Children | routes/PropertyGet.router.js:59-71 | `find({ parent })`: lists, in insertion order and once each, exactly the stored documents whose parent reference is the given id |
| Hierarchy.FloorViewOf | routes/PropertyGet.router.js:130-133 | A floor's view is that floor with exactly its units |
| Hierarchy.FloorViews | routes/PropertyGet.router.js:127-134 | The views keep the floors in order, each exact down to its units |
| Hierarchy.BuildingViewOf | routes/PropertyGet.router.js:100-111 | A building's view is that building with exactly its floors, each exact |
| Hierarchy.BuildingViews | routes/PropertyGet.router.js:97-112 | The views keep the buildings in order, each exact down to its units |
| Hierarchy.ProjectViewOf | routes/PropertyGet.router.js:62-81 | A project's view is that project with exactly its buildings, each exact |
| Hierarchy.ProjectsOf | routes/PropertyGet.router.js:59-82 | Exactly the projects naming the builder, in insertion order, each exact down to its units |
| Hierarchy.BuilderViewOf | routes/PropertyGet.router.js:59-84 | A builder's view is that profile with exactly its projects, each exact |
| Hierarchy.FullDetailsOf | routes/Property.router.js:69-114 | Full details carry the given builder id and exactly the projects naming it, each exact down to its units |
| Hierarchy.AllBuilders | routes/PropertyGet.router.js:12-51 | Every builder profile appears, once, in id order, each with its exact nested projects |
| Hierarchy.BuilderDetails | routes/PropertyGet.router.js:54-88 | A 404 exactly for an unknown profile; otherwise its exact nested view |
| Hierarchy.ProjectDetails | routes/PropertyGet.router.js:92-118 | A 404 exactly for an unknown project; otherwise its exact nested view |
| Hierarchy.BuildingDetails | routes/PropertyGet.router.js:122-140 | A 404 exactly for an unknown building; otherwise its exact nested view |
| Hierarchy.FloorDetails | routes/PropertyGet.router.js:144-155 | A 404 exactly for an unknown floor; otherwise the floor with its units |
| Hierarchy.FullDetailsMatchBuilderView | routes/Property.router.js:69-114 | For a stored profile, full details list the same projects as the builder view |
| Hierarchy.FullDetailsOfDeletedProfile | routes/Property.router.js:69-114 | After a profile is gone, the builder view is a 404 but full details still list every project that names it |
| Hierarchy.MatchesOf | routes/PropertyGet.router.js:162-169 | Lists exactly the stored projects of the builder that pass the match stage |
| Hierarchy.LandingFilter | routes/PropertyGet.router.js:158-201 | Each group is a stored profile with a non-empty list of matching projects of that builder; every matching project whose builder profile exists is in some group; the groups, which the pipeline leaves unordered, come here in builder-id order, one order the model picks |
| Hierarchy.ResolveOwner | routes/Transaction.router.js:146-159 | The walk from a unit up to a builder id fails only with a 404, and succeeds only for a stored unit |
| Hierarchy.OwnerIffReachable | routes/Transaction.router.js:286-310 | Walking up from a unit reaches a builder exactly when the builder listing's four queries, walking down from that builder, reach the unit |
| Inquiries.NewInquiry | routes/Inquiry.router.js:32-40 | The inquiry is the caller's, for the body's builder and project, with the body's message, contact email and contact phone, `new`, not yet answered, created now; it has the schema's required fields exactly when builder and message are given |
| Inquiries.CreateInquiry | routes/Inquiry.router.js:14-47 | Callers outside the gate get a 403, a missing builder or message a 400, an unknown builder or a given but unknown project a 404, all with no change; otherwise exactly the new inquiry is added under a fresh id |
| Inquiries.MyInquiries | routes/Inquiry.router.js:50-62 | Refused exactly for non-users; otherwise exactly the caller's inquiries, newest first |
| Inquiries.BuilderInquiries | routes/Inquiry.router.js:69-85 | Non-directBuilders get a 403; a caller without a builder profile is refused; otherwise exactly the inquiries to their profile, newest first |
| Inquiries.AllInquiries | routes/Inquiry.router.js:119-131 | Refused exactly for non-administrators; otherwise every inquiry, newest first |
| Inquiries.WithStatus | routes/Inquiry.router.js:103-105 | The status is replaced; closing stamps the answer time, any other status keeps it; nothing else changes |
| Inquiries.ReopenKeepsAnswerTime | routes/Inquiry.router.js:103-105 | Reopening a closed inquiry keeps the time it was closed |
| Inquiries.SetStatusAsBuilder | routes/Inquiry.router.js:88-112 | Non-directBuilders get a 403 and a status outside the list a 400 before any lookup; no profile, an unknown inquiry or one to another profile is a 404; a save the status enum or required fields refuse is a 500; every refusal leaves the store unchanged; otherwise only that inquiry's status (and answer time on closing) changes |
| Inquiries.SetStatusAsAdmin | routes/Inquiry.router.js:134-155 | Non-administrators get a 403, a status outside the list a 400, an unknown inquiry a 404, a save the validation refuses a 500, all with no change; otherwise only that inquiry's status (and answer time on closing) changes |
| Inquiries.DeleteInquiry | routes/Inquiry.router.js:158-168 | Non-administrators get a 403 and an unknown inquiry a 404, with no change; otherwise only that inquiry is removed |
| Leads.CheckExistsKeepsReferencesLive | routes/Lead.router.js:14-19 | `checkExists` passes a reference exactly when it is well formed and what it stores is nothing or the id of a stored document; a passing reference is stored as nothing exactly when it was absent or empty |
| Leads.AcceptedLeadReferencesLive | routes/Lead.router.js:64-88 | A lead POST / accepts references only stored documents: its builder, project, unit, assignee and every note's author are absent or present in their collections |
| Leads.AutoLead | routes/Lead.router.js:36-49 | The lead is the caller's, with their name, email and phone, for the unit only (no builder, no project), unassigned, with no notes, created now, `new`, from the website, unpaid and marked as a booking-page visit; the schema accepts it exactly when the caller has a name |
| Leads.CreateAutoLead | routes/Lead.router.js:22-56 | A missing, empty or malformed unit id is a 400, an unknown unit a 404, a caller without a name a 500, all with no change; otherwise exactly the new lead is added under a fresh id |
| Leads.StoredNote | routes/Lead.router.js:90 | A stored note keeps its text and its author's id, and its date is the given one or else the save time |
| Leads.StoredNotes | routes/Lead.router.js:90 | One stored note per submitted note, in order |
| Leads.ManualLead | routes/Lead.router.js:90 | The lead holds the body's user, name, email, phone, references and each of its notes as stored; a given status, source, payment flag or page-visited flag is kept and an absent one takes the schema default (`new`, `website`, false, false); it is stamped with the save time |
| Leads.ManualRefusal | routes/Lead.router.js:14-98 | Every refusal is a 400, and there is none exactly when every reference and note author passes the existence check, the caller exists, a phone is given, no reference is the empty string (which passes the check but fails the save's cast) and the schema accepts the lead |
| Leads.CreateLead | routes/Lead.router.js:60-98 | A refused body is a 400 with no change, in particular one with an empty-string builder, project, unit, assignee or note author; otherwise exactly the new lead is added under a fresh id |
| Leads.LeadById | routes/Lead.router.js:102-124 | Returns the stored lead exactly when the id is well formed and known; a malformed id is a 400, an unknown one a 404 |
| Leads.AllLeads | routes/Lead.router.js:128-139 | Refused (403) exactly for non-administrators; otherwise every lead |
| Leads.AssignedLeads | routes/Lead.router.js:144-162 | A malformed agent id is a 400 (exactly then); otherwise exactly the leads assigned to that user |
| Leads.UpdateLead | routes/Lead.router.js:179-197 | Callers outside the gate get a 403 and an unknown lead a 404; a directBuilder gets a 403 for a lead not assigned to them; every refusal leaves the store unchanged; otherwise only that lead is patched |
| Leads.DeleteLead | routes/Lead.router.js:200-209 | Callers outside the gate get a 403 and an unknown lead a 404, with no change; otherwise only that lead is removed |
| Leads.MarkedPayment | routes/Lead.router.js:227-228 | The payment flag is set, the status becomes `converted` when paid and `new` otherwise, both listed statuses, and nothing else changes |
| Leads.MarkPaymentIdempotent | routes/Lead.router.js:227-228 | Marking twice with the same flag is marking once |
| Leads.MarkPayment | routes/Lead.router.js:212-236 | Callers outside the gate get a 403, a non-boolean flag a 400, an unknown lead a 404, a directBuilder's unassigned lead a 403, a marked lead the save's validation refuses (a missing required field, or a source outside the enum) a 400, all with no change; otherwise only that lead is marked |
| Leads.Unpaid | routes/Lead.router.js:242 | Exactly the leads whose payment is not done |
| Leads.ReminderCount | routes/Lead.router.js:239-254 | Refused (403) exactly for non-administrators; otherwise the number of leads whose payment is not done |
| Leads.Elems | routes/Lead.router.js:242-250 | The set of ids a sequence holds |
| Leads.CountDistinct | routes/Lead.router.js:242-250 | A strictly increasing sequence of ids has as many elements as distinct ids |
| Leads.SameElements | routes/Lead.router.js:242-250 | A sequence and a set with the same members give the same set of ids |
| Leads.Agents | routes/Lead.router.js:310 | Exactly the users whose role is admin or directBuilder |
| Leads.ColdLeads | routes/Lead.router.js:309 | Exactly the leads that are unpaid and not converted, in ascending id order |
| Leads.ReassignStep | routes/Lead.router.js:317-319 | Handing the next cold lead to an agent extends the reassigned prefix by one |
| Leads.SameLeadIdsKeepValid | routes/Lead.router.js:317-319 | Replacing the leads by a map with the same ids keeps the store valid |
| Leads.Reassign | routes/Lead.router.js:305-326 | Only the leads change; the first `done` cold leads each get an agent and keep every other field, every other lead is unchanged; with no agent nothing is done; a sweep that stops early stopped at a lead the save's validation refuses (a missing required field, or a source or status outside its enum) |
| Location.NumberedAt | routes/Location.router.js:10-28 | Numbering rows gives exactly the ids 1 to the number of rows, each naming the row in that position |
| Location.NumberedSnoc | routes/Location.router.js:16-17 | Numbering one more row gives it the next id and keeps the others |
| Location.StateRows | routes/Location.router.js:17 | One state row per state of the package, in order, with its name |
| Location.DistrictRows | routes/Location.router.js:21 | One district row per district of a state, in order, each recording that state's id |
| Location.PlaceRows | routes/Location.router.js:25 | One place row per place of a district, in order, each recording that district's id |
| Location.Build | routes/Location.router.js:10-28 | The three nested loops with their three counters build exactly the directory that numbers states, districts (in walk order) and places (in walk order) from 1 |
| Location.AddDistricts | routes/Location.router.js:19-27 | The districts loop of one state extends the district and place tables by exactly that state's districts and their places, and advances both counters by as many |
| Location.AddPlaces | routes/Location.router.js:23-26 | The places loop of one district extends the place table by exactly its places, numbered on from the counter |
| Location.StateStep | routes/Location.router.js:15-17 | One more state adds one state row at the end |
| Location.DistrictStep | routes/Location.router.js:19-26 | One more district adds its row, and its places, at the end of the walk so far |
| Location.PlaceStep | routes/Location.router.js:23-26 | One more place adds its row at the end and under the next id |
| Location.WalkStep | routes/Location.router.js:15-28 | One more state adds its districts and their places at the end of the walk so far |
| Location.DistrictsMatch | routes/Location.router.js:19-21 | The district rows are the package's districts, state after state, in the same positions |
| Location.DistrictInBlock | routes/Location.router.js:16-21 | Each district row records a state id within the states, falls inside that state's run of ids, and is that state's district in the matching position |
| Location.DistrictPlacesAppend | routes/Location.router.js:19-26 | The places of a run of districts split where the run splits, the second part numbered on from the first |
| Location.PlacesFlat | routes/Location.router.js:15-28 | The walk numbers places as one run over all the districts of the package |
| Location.PlaceInBlock | routes/Location.router.js:20-25 | Each place row records a district within the run and is that district's place in the matching position |
| Location.DistrictsKnowTheirState | routes/Location.router.js:16-21 | In the built directory every district names a stored state, within the states, and is that state's district in the position its id gives |
| Location.PlacesKnowTheirDistrict | routes/Location.router.js:20-25 | In the built directory every place names a stored district and is one of that district's places |
| Location.IdsAreConsecutive | routes/Location.router.js:10-28 | The ids of states, districts and places are exactly 1 up to their number, none skipped |
| Location.Ascending | routes/Location.router.js:32 | `Object.values` of an integer-keyed table, filtered: exactly the kept keys within range, strictly ascending |
| Location.Entries | routes/Location.router.js:42 | One id and name pair per listed id, in order, and exactly those |
| Location.AllStates | routes/Location.router.js:31-34 | Exactly the stored states, as id and name, in ascending id order |
| Location.DistrictsOfState | routes/Location.router.js:37-43 | A 404 exactly when no district records the parsed state id; otherwise exactly those districts, as id and name, in ascending id order |
| Location.PlacesOfDistrict | routes/Location.router.js:46-52 | A 404 exactly when no place records the parsed district id; otherwise exactly those places, as id and name, in ascending id order |
| Location.PlaceById | routes/Location.router.js:57-61 | A 404 exactly for an unknown id; otherwise that place's id and name |
| Location.EveryStateListed | routes/Location.router.js:15-34 | Every state of the package is listed by GET / under its position plus one |
| Location.DistrictIdOf | routes/Location.router.js:19-21 | The district of state i in position j has the id that follows every district of the earlier states, and records state i + 1 |
| Location.DistrictAt | routes/Location.router.js:19-21 | The district of state i in position j sits in the walk right after the districts of the earlier states |
| Newsletter.TakeUntilPrefix | models/NewsLetter.model.js:12 | The text before the first occurrence of a character the prefix lacks is that prefix |
| Newsletter.EmailFromParts | models/NewsLetter.model.js:12 | A non-empty local part of `[\w-.]` characters, an `@` and an accepted domain make an accepted email |
| Newsletter.DomainWithTld | models/NewsLetter.model.js:12 | A label, a dot and a last label of 2 to 4 characters make an accepted domain |
| Newsletter.DomainAddLabel | models/NewsLetter.model.js:12 | One more label in front of an accepted domain keeps it accepted |
| Newsletter.NoAtRejected | models/NewsLetter.model.js:12 | Text without an `@` is never accepted |
| Newsletter.ScanDomain | models/NewsLetter.model.js:12 | Scanning the rest of a domain agrees with reading its dot-separated pieces as labels |
| Newsletter.DotStep | models/NewsLetter.model.js:12 | A dot ends a non-empty label and the rest must read as labels after it |
| Newsletter.LabelCharsCons | models/NewsLetter.model.js:12 | A label is made of label characters exactly when its first character and the rest are |
| Newsletter.LabelStep | models/NewsLetter.model.js:12 | A label character extends the current label by one |
| Newsletter.ScanLocal | models/NewsLetter.model.js:12 | Scanning the local part accepts exactly when some non-empty run of `[\w-.]` characters ends at the first `@` and the rest scans as a domain |
| Newsletter.ScanAgreesWithFormat | models/NewsLetter.model.js:10-14 | The one-pass scan accepts exactly the emails of the validator's expression |
| Newsletter.Normalised | models/NewsLetter.model.js:8-9 | The stored form of an email has no upper-case letter and nothing to trim |
| Newsletter.NormalFixed | models/NewsLetter.model.js:8-9 | Normalising an email already in stored form changes nothing, so normalising is idempotent |
| Newsletter.SaveSubscriber | models/NewsLetter.model.js:4-20 | A malformed email fails validation and a stored one the unique index, both a 500 with no change; otherwise exactly one subscriber is added, and every stored email stays normalised |
| Newsletter.Subscribe | routes/NewsLetter.router.js:6-25 | An empty email is a 400 and one stored in its normalised form a 409, both with no change; a malformed one is a 500; otherwise exactly the normalised subscriber is added, and every stored email stays normalised |
| Newsletter.SameNormalFormConflicts | routes/NewsLetter.router.js:13-16 | Once an address is stored, every variant of it in letter case or surrounding whitespace finds it as a duplicate |
| Newsletter.Subscribers | routes/NewsLetter.router.js:28-35 | Every subscriber, each once, newest subscription first |
| Notifications.NewNotification | routes/Notification.router.js:42-43 | The notification carries the body's recipient, title, message and link, and is unread |
| Notifications.MyNotifications | routes/Notification.router.js:8-17 | Exactly the caller's notifications, newest first |
| Notifications.MarkedRead | routes/Notification.router.js:22-26 | The notification becomes read and keeps everything else |
| Notifications.MarkRead | routes/Notification.router.js:20-33 | A notification that is not the caller's, or unknown, is a 404 with no change; otherwise only that notification becomes read |
| Notifications.MarkReadIdempotent | routes/Notification.router.js:20-33 | Marking a notification read a second time changes nothing |
| Notifications.CreateNotification | routes/Notification.router.js:36-49 | Non-administrators get a 403 and a missing recipient, title or message a 400, with no change; otherwise exactly the new notification is added under a fresh id |
| Notifications.CreatedIsListed | routes/Notification.router.js:8-49 | A new notification is listed, unread, for its recipient |
| Notifications.DeleteNotification | routes/Notification.router.js:52-61 | Non-administrators get a 403 and an unknown notification a 404, with no change; otherwise only that notification is removed |
| Payments.PlanOrder | routes/Transaction.router.js:119-159 | A 400 exactly when the amount is missing or not positive or the unit is missing; a 409 exactly when it is not a 400 and the unit already has a completed transaction; otherwise it succeeds exactly when the walk up from the unit reaches a builder, and names that builder; every refusal is a 400, 409 or 404 |
| Payments.SoldUnitRefusedWhateverItsOwner | routes/Transaction.router.js:134-144 | A unit with a completed sale is a 409 whatever the hierarchy holds, before its ownership is looked at |
| Payments.NewOrder | routes/Transaction.router.js:173-180 | The stored transaction is valid, `created`, the caller's, for the resolved builder and the unit, with the requested amount, payment method `other`, the gateway's order id, no payment id, created now |
| Payments.CreateOrder | routes/Transaction.router.js:117-187 | A refused plan is that refusal and a failed gateway call a 500, both with no change; otherwise exactly the new order is added under a fresh id |
| Payments.ByOrderId | routes/Transaction.router.js:204-208 | Finds a transaction matching the order id (any one when the id is absent), and finds none exactly when none matches |
| Payments.VerifyPayment | routes/Transaction.router.js:191-218 | A signature other than the HMAC of "orderId\|paymentId" is a 400 and no transaction with the order id a 404, both with no change; otherwise only the first such transaction becomes completed with the payment id |
| Payments.RecordCapture | routes/Transaction.router.js:237-262 | With no transaction holding the order id it inserts a valid completed one with that id; with a first holder not yet completed it completes it with the payment's id and method and nothing else; the inserted one carries the payment's id, amount, method, user, builder, unit and the time; it changes nothing exactly when the first holder is completed; it is a 500 exactly when the insert fails validation or the completion names a method outside the enum |
| Payments.ApplyCapture | routes/Transaction.router.js:242-260 | An insert takes the fresh id, a completion replaces its transaction, and an unchanged capture leaves the transactions alone |
| Payments.ByOrderIdAfterUpdate | routes/Transaction.router.js:242-260 | Rewriting the first transaction with an order id, keeping the id, keeps it first |
| Payments.ByOrderIdAfterInsert | routes/Transaction.router.js:242-254 | A transaction inserted when none had the order id is then the first with it |
| Payments.CaptureIdempotent | routes/Transaction.router.js:237-262 | Delivering the same captured payment a second time changes nothing |
| Payments.Webhook | routes/Transaction.router.js:221-271 | A signature other than the HMAC of the body is a 400 and other events change nothing; a captured payment applies exactly the recorded capture, or its 500 with no change |
| Payments.MyTransactions | routes/Transaction.router.js:275-284 | Exactly the caller's transactions |
| Payments.BuilderTransactions | routes/Transaction.router.js:286-310 | Refused (403) exactly for callers outside the gate; otherwise exactly the transactions on units the four queries reach from the builder |
| Payments.BuilderTransactionsAreOwned | routes/Transaction.router.js:286-310 | The builder listing holds exactly the transactions whose unit walks up to that builder, the walk POST / uses |
| Payments1.PendingOrder | routes/Transaction1.router.js:42-53 | The transaction is `pending`, the caller's, with the order id, the amount, builder and property of the body, no payment id, and the payment method given or `other`; it is valid exactly when that method is listed |
| Payments1.CreatePending | routes/Transaction1.router.js:19-65 | A missing, non-positive or too large amount is a 400, a failed gateway call or an unlisted payment method a 500, all with no change; otherwise exactly the pending order is added under a fresh id |
| Payments1.Captured | routes/Transaction1.router.js:87-99 | The recorded transaction is completed and carries the payment's order id, payment id, amount, method, user, builder and unit and the time; it passes validation exactly when a user is named and the method is in the enum |
| Payments1.CaptureAlways | routes/Transaction1.router.js:67-109 | A signature other than the HMAC of the body is a 400 and other events change nothing; every captured payment adds a transaction under the fresh id, or is a 500 with no change |
| Payments1.WithOrderId | routes/Transaction1.router.js:87-99 | Exactly the transactions carrying the order id |
| Payments1.RedeliveryDuplicates | routes/Transaction1.router.js:82-99 | Delivering the same captured payment twice adds two transactions with its order id |
| Payments1.ById | routes/Transaction1.router.js:127-131 | A given id reaches its transaction exactly when it is stored; a missing id is dropped from the filter and reaches the first stored transaction, and nothing exactly when there is none |
| Payments1.VerifyById | routes/Transaction1.router.js:113-139 | A signature other than the HMAC of "orderId\|paymentId" is a 400 with no change; otherwise the transaction `ById` reaches becomes completed and nothing else changes, so a missing id completes the first stored transaction; a 404 with no change exactly when none is reached |
| Payments1.AllTransactions | routes/Transaction1.router.js:142-154 | Refused (403) exactly for callers outside the gate; otherwise every transaction |
| Payments1.SetStatus | routes/Transaction1.router.js:169-190 | Callers outside the gate get a 403, a status outside the manual ones a 400, an unknown transaction a 404, all with no change; otherwise only its status changes, and never to `created` |
| Property.InsertKeepsSiblingKeysUnique | routes/Property.router.js:145-152 | An insert the duplicate query on (parent, key) let through keeps keys unique among siblings, for any level of the hierarchy |
| Property.CreateBuilderProfile | routes/Property.router.js:13-35 | Callers outside the gate get a 403; a stored profile matching the body's user (any profile when the body names none) is answered unchanged with 200; otherwise a valid profile is added under a fresh id and an invalid one is a 400; nothing changes unless a profile is created |
| Property.ProfileOfUser | routes/Property.router.js:55-67 | A 404 exactly when no profile belongs to the user; otherwise a profile whose user is that user |
| Property.UpdateBuilderProfile | routes/Property.router.js:116-123 | Callers outside the gate get a 403, an unknown id a null answer with no change; otherwise the patch is applied to that profile alone, unless it would give a user two profiles (400, no change) |
| Property.DeleteBuilderProfile | routes/Property.router.js:125-132 | Only admins may delete; the profile alone is removed and its projects keep their reference |
| Property.ProjectRefusal | routes/Property.router.js:135-157 | A project is accepted exactly when the caller is in the gate, its builder profile exists, no project of that builder has the same name and it passes validation; 403 exactly for a caller outside the gate, 404 exactly for a missing builder (checked before the duplicate), 409 only for a taken name, 400 only for an invalid body |
| Property.AcceptedProjectKeepsNamesUnique | routes/Property.router.js:145-152 | Storing an accepted project keeps project names unique per builder |
| Property.CreateProject | routes/Property.router.js:135-157 | Fails exactly when the project is refused, with the refusal's status and no change; otherwise exactly that project is added under a fresh id |
| Property.UpdateProject | routes/Property.router.js:178-185 | Callers outside the gate get a 403, an unknown id a null answer, both with no change; otherwise only that project is patched |
| Property.DeleteProject | routes/Property.router.js:187-194 | Callers outside the gate get a 403; otherwise the project alone is removed and its buildings keep their reference |
| Property.BuildingRefusal | routes/Property.router.js:198-219 | A building is accepted exactly when its project exists, no building of that project has the same name and it passes validation; 404 exactly for a missing project; no role is ever demanded |
| Property.AcceptedBuildingKeepsNamesUnique | routes/Property.router.js:208-214 | Storing an accepted building keeps building names unique per project |
| Property.CreateBuilding | routes/Property.router.js:198-219 | Fails exactly when the building is refused, with the refusal's status and no change; otherwise exactly that building is added under a fresh id |
| Property.UpdateBuilding | routes/Property.router.js:243-250 | Open to anyone: an unknown id is a null answer with no change, otherwise only that building is patched |
| Property.DeleteBuilding | routes/Property.router.js:252-259 | Callers outside the gate get a 403; otherwise the building alone is removed and its floors keep their reference |
| Property.FloorRefusal | routes/Property.router.js:262-282 | A floor is accepted exactly when the caller is in the gate, its building exists and no floor of that building has the same number; 403 exactly outside the gate, 404 exactly for a missing building, 409 only for a taken number; every accepted floor is valid |
| Property.AcceptedFloorKeepsNumbersUnique | routes/Property.router.js:271-278 | Storing an accepted floor keeps floor numbers unique per building |
| Property.CreateFloor | routes/Property.router.js:262-282 | Fails exactly when the floor is refused, with the refusal's status and no change; otherwise exactly that floor is added under a fresh id |
| Property.UpdateFloor | routes/Property.router.js:304-311 | Callers outside the gate get a 403, an unknown id a null answer, both with no change; otherwise only that floor is patched |
| Property.DeleteFloor | routes/Property.router.js:313-320 | Callers outside the gate get a 403; otherwise the floor alone is removed and its units keep their reference |
| Property.UnitRefusal | routes/Property.router.js:323-343 | A unit is accepted exactly when the caller is in the gate, its floor exists, no unit of that floor has the same number and it passes validation; 403 exactly outside the gate, 404 exactly for a missing floor, 409 only for a taken number, 400 only for an invalid body |
| Property.AcceptedUnitKeepsNumbersUnique | routes/Property.router.js:332-339 | Storing an accepted unit keeps unit numbers unique per floor |
| Property.CreateUnit | routes/Property.router.js:323-343 | Fails exactly when the unit is refused, with the refusal's status and no change; otherwise exactly that unit is added under a fresh id |
| Property.UpdateUnit | routes/Property.router.js:392-399 | Callers outside the gate get a 403, an unknown id a null answer, both with no change; otherwise only that unit is patched |
| Property.DeleteUnit | routes/Property.router.js:401-408 | Callers outside the gate get a 403; otherwise the unit alone is removed |
| Property.UnitById | routes/Property.router.js:361-380 | The stored unit when the id is known, a 404 exactly when it is not |
| Reviews.NewReview | routes/Review.router.js:20-28 | The review belongs to the caller, names the body's builder and project, carries its rating, starts `pending` and is valid exactly when the rating lies in 1..5 |
| Reviews.CreateReview | routes/Review.router.js:13-36 | Only plain users may review (403); a body without a builder or with a missing or zero rating is a 400; a rating outside 1..5 fails validation (500); all with no change; otherwise exactly the pending review is added under a fresh id; stored reviews stay valid |
| Reviews.StoredRatingInRange | models/Review.model.js:7 | Every stored review's rating lies between 1 and 5 |
| Reviews.MyReviews | routes/Review.router.js:39-50 | Refused exactly for callers other than plain users; otherwise exactly the caller's reviews, newest first |
| Reviews.BuilderReviews | routes/Review.router.js:57-73 | Refused (403) outside the directBuilder role and a 404 when the caller has no builder profile; otherwise exactly the approved reviews of the caller's profile, newest first |
| Reviews.UnapprovedHidden | routes/Review.router.js:66-69 | A review that is not approved never appears in the builder's listing |
| Reviews.AllReviews | routes/Review.router.js:80-92 | Refused exactly for non-admins; otherwise every review, newest first |
| Reviews.SetReviewStatus | routes/Review.router.js:95-115 | Non-admins get a 403, a status outside approved/rejected/pending a 400, an unknown review a 404, all with no change; otherwise only that review's status changes; stored reviews stay valid |
| Reviews.ModerationKeepsValid | models/Review.model.js:10 | Setting a status from the whitelist keeps a valid review valid |
| Reviews.DeleteReview | routes/Review.router.js:118-133 | Non-admins get a 403 and an unknown review a 404, with no change; otherwise that review alone is removed |
| Saved.SaveUnit | routes/SavedProperty.router.js:9-32 | A missing or unknown unit is a 404 and a unit the user already saved a 400, with no change; otherwise exactly one save of that unit by that user is added, which was not there before |
| Saved.MySaved | routes/SavedProperty.router.js:35-59 | Exactly the caller's saves |
| Saved.RemoveSaved | routes/SavedProperty.router.js:62-76 | A save is removed exactly when it exists and belongs to the caller; otherwise a 404 and no change |
| Saved.RemoveThenSaveAgain | models/SavedProperties.model.js:10 | With (user, unit) unique, removing a user's save of a unit leaves no save of it by that user, so saving it again is accepted |
| Store.Find | routes/Review.router.js:41 | A `find` answers exactly the stored documents below the id counter that match the filter, in insertion order |
| Store.First | routes/NewsLetter.router.js:13 | A `findOne` answers the earliest inserted matching document, and nothing exactly when no stored document matches |
| Store.InsertBy | routes/Review.router.js:44 | Inserting into a sorted list keeps it sorted and adds exactly the one id |
| Store.InsertAfterHead | routes/Review.router.js:44 | A sorted tail whose elements all rank at or after a smaller head stays sorted behind that head |
| Store.SortBy | routes/Review.router.js:44 | `sort` answers a sorted permutation of its input |
| Store.NewestFirst | routes/Review.router.js:41-44 | `sort({ createdAt: -1 })` answers the same ids, newest first |
| Store.EarliestFirst | routes/Calender.router.js:127 | `sort({ startDate: 1 })` answers the same ids, earliest first |
| Store.RewriteKeepsUsersUnique | models/User.model.js:6-7 | Rewriting a user without changing its email, username, phone or social id keeps the unique indexes satisfied |
| Store.InsertKeepsUsersUnique | models/User.model.js:6-24 | Inserting a user whose email, username, phone and social id are all unclaimed keeps the unique indexes satisfied |
| Store.ProfileOf | routes/Review.router.js:59-62 | The builder profile whose user is the caller, and nothing exactly when the caller has none |
| Store.Tables.Snapshot | routes/PropertyGet.router.js:14-47 | The property collections read by the nested views reference only ids below the counter |
| Store.Db.NewId | routes/Review.router.js:31 | A save draws the counter's id and advances the counter by one, changing nothing else |
| Text.Split | middleware/auth.js:12 | `split` answers at least one part and no part holds the separator |
| Text.TakeUntil | middleware/auth.js:12 | The longest prefix free of the stop character, followed in the input by that character when it is shorter |
| Text.SplitNone | middleware/auth.js:12 | A string without the separator splits into itself alone |
| Text.SplitHead | middleware/auth.js:12 | The first part of a split is the prefix up to the first separator |
| Text.SplitAfter | middleware/auth.js:12 | Splitting `p + sep + t`, where `p` holds no separator, gives `p` followed by the parts of `t` |
| Text.LowerChar | routes/NewsLetter.router.js:13 | Lowercasing a character leaves no upper-case letter and keeps every other character |
| Text.ToLower | routes/NewsLetter.router.js:13 | `toLowerCase` keeps the length and lowercases each character in place |
| Text.ToLowerIdempotent | models/NewsLetter.model.js:8 | Lowercasing twice equals lowercasing once |
| Text.TrimStart | models/NewsLetter.model.js:9 | Drops exactly the leading run of white space |
| Text.TrimEnd | models/NewsLetter.model.js:9 | Drops exactly the trailing run of white space |
| Text.TrimWithin | models/NewsLetter.model.js:9 | Every character of a trimmed string comes from the input |
| Text.TrimEnds | models/NewsLetter.model.js:9 | A non-empty trimmed string neither starts nor ends with white space |
| Text.TrimUnpadded | models/NewsLetter.model.js:9 | A string with no white space at either end is its own trim |
| Text.TrimIdempotent | models/NewsLetter.model.js:9 | Trimming twice equals trimming once |
| Text.TrimLowerCommute | models/NewsLetter.model.js:8-9 | Lowercasing and trimming commute, so the two setters give the same value in either order |
| Text.TrimStartLower | models/NewsLetter.model.js:8-9 | Lowercasing commutes with dropping the leading white space |
| Text.TrimEndLower | models/NewsLetter.model.js:8-9 | Lowercasing commutes with dropping the trailing white space |
| Text.TrimBlank | models/NewsLetter.model.js:6-9 | A string trims to empty exactly when every character is white space |
| Text.HasChar | routes/Auth.router.js:16 | True exactly when some character belongs to the class, as each lookahead of the password pattern demands |
| Users.Redact | routes/User.router.js:10 | `select('-password')` drops the password and keeps every other field |
| Users.ListUsers | routes/User.router.js:8-15 | Refused (403) exactly outside admin, superAdmin and directBuilder; otherwise every user, each without its password |
| Users.GetUser | routes/User.router.js:18-26 | A 404 exactly for an unknown id; otherwise that user without its password |
| Users.Patched | routes/User.router.js:29-41 | As written: the update succeeds exactly for the user themself or an admin, on a known id, when the unique indexes survive, and answers the patched user, whatever role the patch sets |
| Users.SelfPromotion | routes/User.router.js:29-41 | As written, a plain user may make themself superAdmin through their own profile update |
| Users.GuardedPatch | routes/User.router.js:29-41 | The corrected update: as above, but a caller who is not an admin cannot change the role |
| Users.NoSelfPromotion | routes/User.router.js:29-41 | Under the corrected update, a non-admin's patch that changes a role is refused |
| Users.GuardedPatchAgrees | routes/User.router.js:29-41 | The corrected update differs from the written one only by refusing a non-admin's role change; for admins the two coincide |
| Users.UpdateUser | routes/User.router.js:29-41 | As written: stores exactly what `Patched` answers for that user, role included, or answers its refusal (403 outside self-or-admin, 404 for an unknown id, 500 for a unique-index clash) with no change |
| Users.AdminUpdateUser | routes/User.router.js:55-64 | Non-admins get a 403; otherwise any patch, role included, is applied to that user alone unless the id is unknown or a unique index breaks |
| Users.DeleteUser | routes/User.router.js:44-52 | Non-admins get a 403 and an unknown id a 404, with no change; otherwise that user alone is removed |
| Users.SetRole | routes/User.router.js:67-82 | Non-admins get a 403, a missing role or one outside user, directBuilder, admin and superAdmin a 400, an unknown id a 404, all with no change; otherwise only that user's role changes, and never to broker |
| Users.Present | routes/User.router.js:88 | `populate` keeps exactly the liked ids whose unit still exists |
| Users.PresentOne | routes/User.router.js:88 | A single liked id is kept exactly when its unit exists |
| Users.PresentDistributes | routes/User.router.js:88 | `populate` works piecewise over the list, so the kept ids stay in their liked order |
| Users.PresentKeepsLiveList | routes/User.router.js:88 | When every liked unit exists, the answer is the liked list itself, in order |
| Users.LikedUnits | routes/User.router.js:86-95 | A 404 exactly for an unknown user; otherwise exactly the liked units that still exist |
| Users.Liked | routes/User.router.js:108-111 | Liking appends the unit only when absent: the old list is a prefix, the new set of members is the old one plus the unit, and no duplicates appear |
| Users.LikeIdempotent | routes/User.router.js:108-111 | Liking twice equals liking once |
| Users.Unliked | routes/User.router.js:130 | Unliking keeps exactly the entries other than the unit |
| Users.UnlikeDistributes | routes/User.router.js:130 | Unliking works entry by entry, so it keeps the order of the remaining entries |
| Users.UnlikeAbsent | routes/User.router.js:130 | Unliking a unit that is not liked changes nothing |
| Users.UnlikeUndoesLike | routes/User.router.js:108-111 | Unliking a freshly liked unit gives back the original list |
| Users.UnlikeKeepsNoDuplicates | routes/User.router.js:130 | A list without duplicates stays without duplicates |
| Users.Like | routes/User.router.js:98-117 | Callers other than the user or an admin get a 403 and an unknown user a 404; an already liked unit leaves the user as it is; a user the save's validation refuses (required fields or the role enum) is a 500 with no change; otherwise the unit is appended to that user's list alone |
| Users.Unlike | routes/User.router.js:120-137 | Callers other than the user or an admin get a 403 and an unknown user a 404; a user the save's validation refuses (required fields or the role enum) is a 500 with no change; otherwise every occurrence of the unit leaves that user's list, in order |

## Left out

- JWT signing and verification, bcrypt, HMAC-SHA256, the payment gateway's order call, the clock, the one-time code and the reset token are parameters of the members that use them; their own behaviour is not modelled.
- Sending mail (the one-time code, the reset link, lead reminders) is not modelled; only the store changes around it are.
- `populate`, `select` projections other than the password, and `aggregate` pipelines are modelled only by their effect on which ids are answered; the joined fields are not.
- A malformed ObjectId in a path, which makes Mongoose throw a cast error, is not modelled except where a handler checks `isValid` itself (GET /:id and GET /assigned/:id of routes/Lead.router.js). A malformed id in a body is not modelled either, apart from the lead reference checks; it meets the same catch. The catch turns the error into a different status per handler:
  - a 400 in PUT /:id and PUT /:id/mark-payment of routes/Lead.router.js (lines 194-195, 233-234), in PUT /:id/assign-properties and PUT /:id of routes/Broker.router.js (lines 79-80, 101-102), and in the handlers of routes/Property.router.js that take an id (lines 116-130, 169-192, 232-257, 295-318, 361-406);
  - a 404 in GET /builder-profile/:id of routes/Property.router.js (lines 50-51);
  - a 500 in every other handler that takes an id.
- The handlers' catch-all 500 for database failures is not modelled; `ServerError` stands only for the validation and unique-index failures the model can decide.
- Concurrency: every handler runs alone, so two requests interleaving between a duplicate check and its insert are not modelled.
- POST /logout (routes/Auth.router.js:327-329) only answers a message and changes nothing.
- Ads.NewAd: only the active flag can be a JSON null in the model; a JSON null for the position, whose handling by the schema's enum check the model does not decide, has no representation.
- Ads.Patched: a JSON null for the title, image, link or position, which the update writes as null, has no representation; only the flag and the creator can be null.
- Accounts.OtpCheck: the submitted code is left out, null or a string; a code sent as a JSON number, which never equals the stored string and so is always a 400, has no representation.
- Accounts.GoogleSignIn: the Google client is never defined in the file, so the model states only that the route fails; the token exchange and the user it would create are not modelled.
- The Notification and Calendar event schemas are not part of this model; their fields are taken from the routes.
- Trimming knows the ASCII white space, the no-break space and the byte-order mark, not the other Unicode space separators and line terminators that JavaScript's `trim` also removes; lowercasing maps only ASCII letters, not the rest of Unicode as `toLowerCase` does.
- Query filter values pass through the schema's `lowercase` and `trim` setters, as in Mongoose 5 and later; earlier versions, which leave them raw, are not modelled.
- Amounts are whole rupees, as the transactions store them. The conversion to paise for the order call happens inside that call, which is a parameter. A webhook amount in paise that is not a multiple of 100, which the routes would store as a fractional number of rupees, is not modelled.
- routes/Report.router.js and routes/Dashboard.router.js are not part of this model: they only aggregate counts for display.
- GET / of routes/Transaction.router.js:538-547 is the same role-gated full listing as Payments1.AllTransactions, and is not repeated.
- GET /:id of routes/Transaction.router.js:553 is shadowed by GET /:builderId at line 286, and GET /my-leads and GET /dashboard of routes/Lead.router.js:165, 257 are shadowed by GET /:id at line 102, so none of them is reachable.
- routes/Transaction1.router.js is not mounted by the application; it is modelled as `Payments1` on the same store, and its GET /my (lines 157-166) is the same query as Payments.MyTransactions.
- The plain list and by-id reads of routes/Property.router.js (lines 37-53, 159-176, 222-241, 285-302, 345-359, 383-390) answer a `find` or `findById` with `populate` and carry no decision.
- Lead manual create: the `createdBy` the handler sets is not a schema field, so strict mode drops it and the stored lead has none.
- Location.PlaceById: takes the place id as an integer, whereas the route indexes the place table with the raw path text. So a key such as "05", which is not the canonical decimal form, is a 404 there but names place 5 here, and a key inherited by every JavaScript object ("constructor", "__proto__", "toString") answers 200 there with that member's fields. Neither behaviour is modelled.
- FeedbackRoutes.SubmitFeedback and FeedbackRoutes.RatingAcceptedRange: ratings are integers here; the route's range check also lets through a fractional number such as 2.5, which is not modelled.
- Reviews.CreateReview and Reviews.StoredRatingInRange: ratings are integers here; the schema's `min`/`max` also accept a fractional number such as 2.5, which is not modelled.
- Leads.ManualLead: a `createdAt` sent in the body would be stored as given; the model always stamps the save time.
- Location.Build works on maps from id to row rather than on JavaScript objects keyed by strings; the packaged place data is a parameter, and `parseInt` on the path is an `Option<int>` parameter.
- Hierarchy.LandingFilter: the price bounds are `Option<int>`, so a bound that `parseInt` reads as NaN (a query such as `minPrice=abc`) cannot be written; how the database compares prices with NaN is not modelled.
- Hierarchy.ResolveOwner states only the failure status and that success needs a stored unit; which builder it reaches is stated by Hierarchy.OwnerIffReachable.
- `document.remove()` in the complaint and appointment deletes (routes/Complaint.router.js:113, routes/Appointment.router.js:105) is modelled as deleting that document, as Mongoose did before version 7 dropped the method.

## Findings

| source | as written | input that shows it | evidently intended | confidence | as-written member | corrected member |
|---|---|---|---|---|---|---|
| routes/User.router.js:29-41 | The self-or-admin update applies the whole request body, role included | A plain user sends PUT /users/<own id> with `{ "role": "superAdmin" }` | Only administrators change roles, through PATCH /:id/role with its whitelist | not executed | Users.SelfPromotion | Users.NoSelfPromotion |
| routes/Complaint.router.js:44-53 | The builder listing filters on `req.user.builderProfileId`, which the User schema does not declare, so the filter is empty | Any directBuilder calls GET /complaints/builder while complaints about other builders are stored | A directBuilder sees only the complaints about their own builder profile | not executed | Complaints.BuilderListingShowsEveryComplaint | Complaints.OwnComplaintsAreOwn |
| routes/Appointment.router.js:42-51 | The builder listing filters on `req.user.builderProfileId`, which the User schema does not declare, so the filter is empty | Any directBuilder calls GET /appointments/builder while appointments with other builders are stored | A directBuilder sees only the appointments with their own builder profile | not executed | Appointments.BuilderListingShowsEveryAppointment | Appointments.OwnAppointmentsAreOwn |
