# Barber booking API: a verified model of its services

This project models the service layer of a barber-shop booking backend. The backend is a Node.js HTTP API. It keeps users, site parameters, barbers and gallery pictures in a relational store, and caches answers in Redis. It delegates team members, the service catalogue and bookings to the Square platform. The model covers these parts:

- **Identity.** Registration of customers and administrators, one-time codes sent by SMS, verification, login by e-mail or phone with a password, profile and password updates (`Auth`, over the user table of `Users`).
- **Phone numbers and one-time codes.** Australian phone normalisation, and code delivery and checking, either through the SMS provider or against a fixed mock code (`Phone`).
- **Tokens.** Access and refresh tokens: what they carry, how they are verified and refreshed, and how a request is authenticated against the stored user (`Tokens`).
- **Role gates.** Route admission for administrators, customers or any signed-in user (`Rbac`).
- **Customers.** The customer profile, the booking search request sent to Square, booking lists and booking statistics (`Customers`).
- **Site parameters.** Typed key/value settings: validation by type, paginated filtered listing, the cached public view, create, update and delete, and cache invalidation (`Parameters`).
- **Barbers and gallery.** Administrator-ordered lists of barbers and gallery pictures, each carrying an inline base64 image. The image checks live in `Images`, and the shared table operations in `Catalog` (`Barbers`, `Gallery`).
- **Cache administration.** Flushing everything, one key or a glob pattern, and statistics per key family (`Cache`).
- **Square service.** Mapping Square's team-member, catalogue and booking replies to the API's shapes, and building booking requests (`Square`).
- **Square handlers.** The read-through cache in front of Square, the reshaping of catalogue services for the booking front end, and the owner check on bookings (`SquareHandlers`, with `SquareCodec` for the JSON the cache stores).

Everything outside the process is a parameter of the model:

- the Square replies;
- the SMS provider's answers;
- the phone-number library's verdict;
- the URL parser;
- the identifier generator;
- the current time.

A Square call is therefore modelled by the reply it returns (`Result<Option<…>, RemoteError>`: a transport or API failure, or a payload that may lack the expected member).

**How the model is written.**

- **Stateful services.** Each service that writes a store is a class: `AuthService`, `ParameterService`, `BarberService`, `GalleryService`, `CacheService` and `Handlers`. Each holds the store objects it writes, as the source's services hold the Prisma and Redis clients.
  - Each method is proved equal to a pure step function of the old state (`(r, table.users) == RegisterStep(old(table.users), …)`).
  - The step functions carry the properties; the lemmas relate several steps.
- **Stores.** Relational tables are `map`s (users) or `seq`s of rows in insertion order. The Redis store is a `map<string, Json>`; a missing Redis client is `None`.
- **JavaScript values.**
  - Truthiness of an optional string is `Common.Truthy`.
  - `||` defaults are written out.
  - `JSON.stringify`/`JSON.parse` of cached values is the `Json` datatype, with encoders and decoders in `SquareCodec`.

**The handler classes run the code as written**, including the two defects listed under "## Findings". `Handlers.GetBarberDetails` uses `Square.BarberDetailsAsWritten`, and `Handlers.GetServices` uses `ServicesKeyAsWritten`. The corrected lookup (`Square.BarberDetails`) and the corrected key (`ServicesKey`) are separate members, with their properties proved beside the as-written ones. Three more behaviours of the code are worth knowing:

- Registration does not catch a failing Square customer creation. The error propagates, and no user row is written.
- The one-time code is sent after the user row is inserted. A failed send therefore leaves an unverified user behind.
- A barber id of `all` would share the cache key `barbers:all` with the barber list (`SquareHandlers.BarberKeys` states exactly when two keys meet).

## Model

| member | source | states |
|---|---|---|
| Phone.FormatPhoneNumber | src/modules/auth/utils/twilio.js:19-51 | A missing or blank number fails with "Please enter your phone number". The result is Ok exactly when the library parses the number as valid, and then it is the E.164 form. A number the library rejects without throwing gets the reason judged on the raw input, checked in order: too short, too long, bad characters, not Australian. An exception's own message passes only if it addresses the user; otherwise the generic message replaces it. Every error contains "Please". |
| Phone.MessagesAddressTheUser | src/modules/auth/utils/twilio.js:22-49 | Every message that formatting can produce contains "Please", so the catch block's pass-through test keeps each of them. |
| Phone.ModeFrom | src/modules/auth/utils/twilio.js:6-12 | Mock mode is on exactly when `MOCK_OTP` is set and non-empty, and its code is that value. |
| Phone.SendOtp | src/modules/auth/utils/twilio.js:58-88 | A bad number fails before any send. Mock mode succeeds without the provider. Live mode returns the provider's status or maps its failure to the send error. |
| Phone.VerifyOtp | src/modules/auth/utils/twilio.js:96-127 | A bad number fails first. In mock mode the code is valid exactly when it equals the mock code. In live mode a provider failure is an error, and a provider answer is returned as its status, its number and a verdict that is valid exactly when the provider reports `valid` true. |
| Phone.MockIgnoresProvider | src/modules/auth/utils/twilio.js:62-68 | In mock mode the provider's answer cannot change the outcome of sending or verifying. |
| Users.RoleName | src/modules/auth/service.js:68 | The two roles are spelled `CUSTOMER` and `ADMIN`, and each spelling names exactly one role. |
| Users.HashMatchesOnlyItsPassword | src/modules/auth/service.js:248 | A stored digest matches exactly the password it was made from. |
| Users.FindByPhone | src/modules/auth/service.js:24-27 | Finds a row exactly when some row has that phone number, and the row found is the stored row with that number. |
| Users.FindByEmail | src/modules/auth/service.js:34-37 | Finds a row exactly when some row has that e-mail, and the row found is the stored row with that e-mail. |
| Users.FitsKeepsUnique | src/modules/auth/service.js:357-366 | Writing a row that clashes with no other row's phone or e-mail keeps both columns unique. |
| Users.EvolvesTransitive | src/modules/auth/service.js:263-317 | Across any chain of writes, no row disappears, no role changes and a verified user stays verified. |
| Users.UserTable.Create | src/modules/auth/service.js:61-74 | The insert succeeds exactly when the id is new and the row breaks no uniqueness constraint. On success the table gains exactly that row; otherwise it is unchanged with a uniqueness error. |
| Users.UserTable.Update | src/modules/auth/service.js:357-366 | The update succeeds exactly when the row exists and the new values break no constraint. On success that row is replaced; otherwise nothing changes, with "record missing" exactly when the id is unknown. |
| Auth.RegisterStep | src/modules/auth/service.js:20-82 | A bad phone fails with the formatter's message, and a taken phone or e-mail fails before any write. With both free, a Square failure leaves the table unchanged, and an id already stored is a uniqueness error. Otherwise the table gains exactly the new unverified customer under the new id, and the answer is the registration message when the code send succeeds and the send error when it fails. The table stays unique and only evolves. |
| Auth.RegisterAdminStep | src/modules/auth/service.js:89-131 | A bad phone or a taken phone/e-mail fails with the table unchanged, and the table changes exactly when the call succeeds. Success adds a verified administrator with the hashed password. |
| Auth.RequestOtp | src/modules/auth/service.js:139-181 | A bad phone fails. For a signed-in caller, a phone that belongs to another user is "in use", and any other phone is sent a code, the answer being "OTP sent to new phone number" or the send error. Without a caller, an unknown phone is "user not found" and a non-customer's phone is refused, and a customer's phone is sent a code, the answer being "OTP sent successfully" or the send error. |
| Auth.ForgotPassword | src/modules/auth/service.js:188-214 | A bad phone fails, an unknown phone is "user not found", and a non-customer is refused. A customer's phone is sent a code: the answer is "OTP sent for account recovery" when the send succeeds and the send error when it fails. |
| Auth.LoginLookup | src/modules/auth/service.js:224-236 | An identifier containing `@` is looked up as an e-mail. Any other identifier is formatted as a phone (a formatting failure is reported) and looked up by number. |
| Auth.Login | src/modules/auth/service.js:222-255 | A failing lookup (a phone that does not format) is that failure, and no matching user is "invalid credentials". A user without a password is told to use OTP login, and a wrong password is "invalid credentials". Success returns the stored user whose digest matches the given password, whether or not they are verified. |
| Auth.GetUser | src/modules/auth/service.js:324-334 | Succeeds exactly when the id is stored, with that row; otherwise "user not found". |
| Auth.NewCustomer | src/modules/auth/service.js:60-72 | The inserted customer has the given id and number, is unverified, keeps the new Square customer id, has an e-mail exactly when a truthy one was given, and its digest matches exactly the given password. |
| Auth.NewAdmin | src/modules/auth/service.js:113-125 | The inserted administrator has the given id, number and e-mail, is verified, has no Square customer, and its digest matches exactly the given password. |
| Auth.VerifyOtpStep | src/modules/auth/service.js:263-317 | A bad phone or a checker failure is that error, and a code the checker rejects is "invalid code", each with the table unchanged. With a valid code and no caller, an unknown number is "user not found" and a known one answers its owner marked verified. With a valid code and a caller, a number another user holds is "phone in use"; otherwise the call succeeds exactly when the caller is stored, moving the caller to the new number and marking them verified, and an unknown caller is "record missing". The table stays unique and only evolves. |
| Auth.UpdateProfileStep | src/modules/auth/service.js:342-382 | An e-mail held by another user is refused. Success happens exactly when the user exists and the e-mail is free, and it rewrites only the truthy fields of that row. |
| Auth.UpdatePasswordStep | src/modules/auth/service.js:390-408 | Succeeds exactly when the user exists, replacing only that user's digest by the new password's. |
| Auth.InvalidCodeIgnoresTable | src/modules/auth/service.js:267-274 | A code the checker rejects gives "invalid code" and leaves any table untouched. |
| Auth.VerifyLoginIdempotent | src/modules/auth/service.js:297-314 | Verifying a number twice without a caller gives the same user and the same table as verifying once. |
| Auth.PhoneChangeConflict | src/modules/auth/service.js:281-287 | A signed-in caller asking for a number another user holds gets "phone in use" and the table is unchanged. |
| Auth.RegisterThenVerify | src/modules/auth/service.js:20-82 | After a successful registration, verifying the same number with a valid code marks exactly the new user verified. |
| Auth.AuthService.Register | src/modules/auth/service.js:20-82 | The service's table ends in the state `RegisterStep` describes, and the answer is the same. |
| Auth.AuthService.RegisterAdmin | src/modules/auth/service.js:89-131 | The table ends as `RegisterAdminStep` describes. |
| Auth.AuthService.VerifyOTP | src/modules/auth/service.js:263-317 | The table ends as `VerifyOtpStep` describes. |
| Auth.AuthService.UpdateProfile | src/modules/auth/service.js:342-382 | The table ends as `UpdateProfileStep` describes. |
| Auth.AuthService.UpdatePassword | src/modules/auth/service.js:390-408 | The table ends as `UpdatePasswordStep` describes. |
| Tokens.ConfigFrom | src/plugins/jwt.js:8-46 | Each unset or empty setting takes its default. A given lifetime is used as given, and the lifetimes otherwise default to one day for access and ninety days for refresh. With no secrets configured, the access and refresh keys differ. |
| Tokens.Sign | src/plugins/jwt.js:28-50 | A signed token carries the key, the claims, the issue time, expiry at issue time plus lifetime, and the configured issuer and audience. |
| Tokens.Verify | src/plugins/jwt.js:63-66 | A token verifies exactly when it was signed with this key, has not expired, and names this issuer and audience; verification then yields its claims. The result is "expired" exactly for a correctly signed token past its expiry, and "bad signature" exactly for a token signed otherwise. |
| Tokens.AccessClaims | src/plugins/jwt.js:28-36 | The access token carries exactly the id as `sub`, the role, phone, e-mail (null when absent), names and verification flag. |
| Tokens.RefreshClaims | src/plugins/jwt.js:39-43 | The refresh token carries exactly `sub` and `type: "refresh"`. |
| Tokens.Subject | src/plugins/jwt.js:75 | The subject is present exactly when the claims carry a string `sub`, and it is that string. |
| Tokens.GenerateTokens | src/plugins/jwt.js:26-58 | The pair is an access token under the access key and a refresh token under the refresh key, each with its lifetime, reported as "Bearer" with 86400 seconds. |
| Tokens.DefaultLifetimeReported | src/plugins/jwt.js:26-58 | With the default access lifetime, the reported `expiresIn` equals the access token's real lifetime. |
| Tokens.RefreshAccessToken | src/plugins/jwt.js:60-104 | "Expired" is reported exactly when the refresh token is past its expiry. Success requires a valid refresh-typed token whose subject is still a stored user; the new access token is then issued from that user's current row. Every other failure is "invalid refresh token". |
| Tokens.RefreshUsesCurrentRecord | src/plugins/jwt.js:74-97 | A refresh before expiry issues an access token built from the user's stored row, not from what the refresh token was issued for. |
| Tokens.ExpiredRefreshReported | src/plugins/jwt.js:98-102 | A refresh token used after its lifetime is reported as expired. |
| Tokens.AccessTokenIsNotARefreshToken | src/plugins/jwt.js:63-71 | An access token never refreshes. |
| Tokens.RefreshTokenDoesNotAuthenticate | src/plugins/jwt.js:106-127 | With distinct access and refresh secrets, a refresh token never authenticates a request: it fails with "bad signature". |
| Tokens.SharedSecretRefreshAuthenticates | src/plugins/jwt.js:106-127 | With one secret for both keys, a refresh token issued for a stored user authenticates throughout its lifetime, since authentication never reads the `type` claim. |
| Tokens.Payload | src/plugins/jwt.js:108 | A verified payload holds the token's own claims plus `iat`, `exp`, `iss` and `aud`. |
| Tokens.UserRecord | src/plugins/jwt.js:111-113 | The stored row as the request sees it: id, role name and verification flag taken from the row. |
| Tokens.Merge | src/plugins/jwt.js:120-123 | The request user is the payload overlaid with the stored row: role and id come from the row, and `sub` from the payload. |
| Tokens.Authenticated | src/plugins/jwt.js:106-127 | No header means "no token" and a failed verification is that failure. Success happens exactly for a valid access token whose subject is stored, and the user is then the payload merged with the current row. For a vanished user the failure is "user not found". |
| Tokens.IssuedTokenAuthenticates | src/plugins/jwt.js:106-127 | An access token issued for a stored user authenticates before expiry, and the resulting role is the stored role. |
| Tokens.Request.Authenticate | src/plugins/jwt.js:106-127 | The request's user is set exactly as `Authenticated` says, and is left alone on failures other than a vanished user. |
| Rbac.RoleOf | src/plugins/rbac.js:13 | The role is present exactly when the user has a string `role` field. |
| Rbac.CheckRole | src/plugins/rbac.js:6-23 | An authentication failure is passed on. Admission happens exactly for an authenticated user whose role is among the required ones. Any other authenticated user is refused with "This action requires one of these roles: " followed by the roles joined by ", ". |
| Rbac.AdminOnly | src/plugins/rbac.js:26 | Admits exactly authenticated users with role `ADMIN`. |
| Rbac.CustomerOnly | src/plugins/rbac.js:27 | Admits exactly authenticated users with role `CUSTOMER`. |
| Rbac.AuthenticatedOnly | src/plugins/rbac.js:28 | Admits exactly authenticated users and never forbids. |
| Rbac.AdminGateUsesStoredRole | src/plugins/jwt.js:111-123 | Through authentication, the admin gate opens exactly when the token is valid and the stored row's role is ADMIN. |
| Rbac.CustomerGateUsesStoredRole | src/plugins/jwt.js:111-123 | The customer gate opens exactly when the stored role is CUSTOMER. |
| Rbac.StaleAdminClaimRefused | src/plugins/rbac.js:13 | A token claiming ADMIN does not pass the admin gate once the stored role is CUSTOMER. |
| Customers.ProfileOf | src/modules/customers/service.js:32-41 | The profile copies the id, phone, e-mail, names and verification flag of the row. |
| Customers.GetProfile | src/modules/customers/service.js:17-42 | An unknown id is "customer not found" and a non-customer is refused. Success happens exactly for a stored customer, with that customer's profile. |
| Customers.UpdateThenGetProfile | src/modules/customers/service.js:50-99 | After a successful update of a customer, reading the profile returns the updated values. |
| Customers.BuildBookingSearch | src/modules/customers/service.js:109-138 | The search names exactly this customer and location. A start-time range is present exactly when a start or end date is given, and a status filter exactly when a status is given. |
| Customers.BookingOf | src/modules/customers/service.js:142-154 | Each booking keeps its id, status, start time and segments. |
| Customers.ListBookings | src/modules/customers/service.js:107-159 | A Square failure is "failed to fetch bookings", a missing list is empty, and otherwise each remote booking is mapped in order. |
| Customers.CountsPartition | src/modules/customers/service.js:181-197 | Each booking is exactly one of cancelled, upcoming or past. |
| Customers.IsCancelled | src/modules/customers/service.js:184 | A booking is cancelled when its status is `CANCELLED` (partnered by `CountsPartition`). |
| Customers.IsUpcoming | src/modules/customers/service.js:186 | A booking is upcoming when it is not cancelled and starts after now (partnered by `CountsPartition`). |
| Customers.IsPast | src/modules/customers/service.js:191-192 | A booking is past when it is neither cancelled nor upcoming (partnered by `CountsPartition`). |
| Customers.EarliestIsMinimum | src/modules/customers/service.js:186-190 | The next booking date is absent exactly when nothing is upcoming, and is otherwise the start of an upcoming booking no later than any other. |
| Customers.LatestIsMaximum | src/modules/customers/service.js:191-195 | The last booking date is absent exactly when nothing is past, and is otherwise the start of a past booking no earlier than any other. |
| Customers.Statistics | src/modules/customers/service.js:166-204 | The counts are the cancelled, upcoming and past counts, and they sum to the total. The next and last dates are the earliest upcoming and latest past starts. |
| Customers.GetStatistics | src/modules/customers/service.js:166-204 | A failure to fetch the bookings is "failed to calculate statistics"; otherwise the statistics of the fetched bookings. |
| Customers.CustomerService.UpdateProfile | src/modules/customers/service.js:50-99 | The table changes as the shared profile update describes, and the answer is the updated profile or the mapped error. |
| Parameters.ValidateValueType | src/modules/parameters/service.js:273-321 | For each declared type, the value is accepted exactly when it has that JavaScript type: a string, a number, a boolean, a 3- or 6-digit `#` hex colour, a non-null object, or a string the URL parser accepts. An unknown type is refused. |
| Parameters.ColorExamples | src/modules/parameters/service.js:293-297 | `#fff` and `#A1b2C3` are colours; `#ffff`, `fff` and `#ggg` are not. |
| Parameters.QueryOf | src/modules/parameters/service.js:19-54 | Page 1, 20 per page, order by key ascending by default. Skip is page minus one times the page size. Only truthy filters apply, and `isActive` is true exactly for the text "true". |
| Parameters.BuildListQuery | src/modules/parameters/service.js:19-54 | The query built field by field is the one `QueryOf` describes. |
| Parameters.Satisfies | src/modules/parameters/service.js:31-50 | A row passes the listing filter when it has the given category, type and activity, and its key or description contains the search text ignoring case; each absent filter passes every row. |
| Parameters.RunList | src/modules/parameters/service.js:56-72 | The total counts the matching rows. The page is the window of the matching rows, sorted by the chosen field and direction, that starts `skip` rows in and holds at most `take` rows: element i of the page is element skip + i of the sorted matches, and the page is full whenever enough rows remain. |
| Parameters.Ordered | src/modules/parameters/service.js:60-65 | The rows a query selects, in its order: the same rows, with multiplicity, as the matching rows, sorted by the chosen field and direction. |
| Parameters.PageIsWindow | src/modules/parameters/service.js:60-65 | The page is the `skip`/`take` window of the ordered matching rows. |
| Parameters.AdjacentWindows | src/modules/parameters/service.js:53-63 | Two windows of the same size that meet are one window twice as long. |
| Parameters.ConsecutivePages | src/modules/parameters/service.js:53-65 | The page after this one continues exactly where this one ends: together they are the window of twice the size at the same start. |
| Parameters.CacheKey | src/modules/parameters/service.js:115 | The public parameters' key is `parameters:public`, suffixed with `:category` when a category is given. |
| Parameters.PublicRows | src/modules/parameters/service.js:130-140 | Exactly the active rows of the category, ordered by key. |
| Parameters.RowsJson | src/modules/parameters/service.js:145 | The cached text is one entry per row, in order. |
| Parameters.PrefixIsPlain | src/modules/parameters/service.js:4-5 | The cache prefix has no glob metacharacters, so the invalidation pattern matches exactly the keys with that prefix. |
| Parameters.InvalidationForcesFreshReads | src/modules/parameters/service.js:327-343 | After invalidation no public-parameter key, for any category, survives in the cache. |
| Parameters.Locate | src/modules/parameters/service.js:80-107 | Finds the first row the selector (id or key) picks, or reports that none does. |
| Parameters.CreateStep | src/modules/parameters/service.js:160-191 | A taken key is refused, then an ill-typed value. Success appends exactly the new row, with the given fields and the current time, and keys and ids stay unique. |
| Parameters.ApplyPatch | src/modules/parameters/service.js:199-219 | Given fields replace the old ones. Id, key and creation time are kept, and the update time becomes now. |
| Parameters.UpdateStep | src/modules/parameters/service.js:199-247 | An unknown row is "not found". A new value is checked against the resulting type. Success replaces only that row by the patched row. |
| Parameters.DeleteStep | src/modules/parameters/service.js:254-265 | An unknown id is "not found"; otherwise exactly that row is removed. |
| Parameters.DeleteKeepsUnique | src/modules/parameters/service.js:254-265 | Removing a row keeps keys and ids unique. |
| Parameters.ParameterService.InvalidateCache | src/modules/parameters/service.js:327-343 | Deletes exactly the cache keys with the parameters prefix and leaves the others. |
| Parameters.ParameterService.ListParameters | src/modules/parameters/service.js:18-73 | The page is `RunList` over the stored rows for the query the options describe. |
| Parameters.ParameterService.GetPublicParameters | src/modules/parameters/service.js:114-153 | A cached entry is returned as stored. Otherwise the public rows are read and cached under the key. |
| Parameters.ParameterService.CreateParameter | src/modules/parameters/service.js:160-191 | The store changes as `CreateStep` describes, and a successful write drops the public-parameter cache. |
| Parameters.ParameterService.UpdateParameter | src/modules/parameters/service.js:199-247 | The store changes as `UpdateStep` describes, and the cache is invalidated after a success only. |
| Parameters.ParameterService.DeleteParameter | src/modules/parameters/service.js:254-265 | The store changes as `DeleteStep` describes, and the cache is invalidated after a success only. |
| Images.CheckImage | src/modules/barbers/service.js:179-206 | No PNG/JPEG/WebP data-URL head is "bad format". An empty payload after the first comma is "no payload". When asked, a payload outside the base64 alphabet is "bad encoding", checked before the size. A payload that decodes to more than 2 MB is "too large". An image is accepted exactly when none of these applies. |
| Images.LongestPayload | src/modules/barbers/service.js:201-205 | The size check refuses exactly the payloads longer than 2796202 characters. |
| Images.WellFormedAccepted | src/modules/barbers/service.js:179-206 | A head followed by a short enough base64 payload is accepted. |
| Images.TrailingFieldsIgnored | src/modules/barbers/service.js:189-192 | Text after a second comma does not change the verdict. |
| Images.SamePayloadSameVerdict | src/modules/barbers/service.js:179-206 | Two images with the same head status and payload get the same verdict. |
| Images.AlphabetOnlyNarrows | src/modules/barbers/service.js:195-198 | The alphabet check can only refuse more images. |
| Images.AlphabetMatters | src/modules/gallery-management/service.js:129-155 | `data:image/png;base64,!!!!` passes the gallery's check and fails the barbers' check. |
| Catalog.Find | src/modules/barbers/service.js:93-99 | Finds a row with the id exactly when one exists. |
| Catalog.FindUnique | src/modules/barbers/service.js:93-99 | With unique ids, the row found is the only one with that id. |
| Catalog.NextSortOrder | src/modules/barbers/service.js:63-68 | The new position is 0 for an empty table and otherwise one past the largest; it exceeds every existing position. |
| Catalog.MaxSortOrder | src/modules/barbers/service.js:63-66 | The largest position of a non-empty table: no row exceeds it and some row holds it. |
| Catalog.ListRows | src/modules/barbers/service.js:21-31 | Lists exactly the rows with the requested activity, sorted by position then creation time. |
| Catalog.RemoveAt | src/modules/barbers/service.js:137-139 | Removes exactly the row at that index, keeping ids unique. |
| Catalog.LastOrder | src/modules/barbers/service.js:164-171 | The row's new position is given by an update naming it; it is absent exactly when no update names it. |
| Catalog.ApplyOrders | src/modules/barbers/service.js:164-171 | Applying the transaction's updates in order keeps the number of rows. |
| Catalog.ApplyOrdersLastWins | src/modules/barbers/service.js:164-171 | Each row takes the position of the last update naming it, and keeps its own otherwise. |
| Catalog.ApplyOrdersKeepsIds | src/modules/barbers/service.js:164-171 | Reordering keeps each row's id and keeps ids unique. |
| Catalog.FoundCountMatches | src/modules/barbers/service.js:153-161 | The number of distinct named ids found equals the number of updates exactly when the ids are distinct and all exist. |
| Catalog.Table.ApplyBatch | src/modules/barbers/service.js:164-171 | The rows become `ApplyOrders` of the batch. |
| Barbers.ValidateImage | src/modules/barbers/service.js:179-206 | Accepted exactly when `CheckImage` with the alphabet check accepts it, and each rejection has its own message. |
| Barbers.CreateStep | src/modules/barbers/service.js:58-83 | A bad image is refused with its message. Otherwise the barber is appended after every existing one, active unless told otherwise, and ids stay unique. |
| Barbers.ApplyPatch | src/modules/barbers/service.js:91-120 | Given fields replace the old ones; id, position and creation time are kept. |
| Barbers.EmptyPatchIsIdentity | src/modules/barbers/service.js:106-117 | An update with no fields changes nothing. |
| Barbers.UpdateStep | src/modules/barbers/service.js:91-120 | An unknown id is "barber not found", and a given image is checked. Success replaces only that row. |
| Barbers.DeleteStep | src/modules/barbers/service.js:127-140 | An unknown id is "barber not found"; otherwise exactly that row goes. |
| Barbers.ReorderStep | src/modules/barbers/service.js:147-172 | An empty batch is refused. A batch naming an unknown or repeated id is "some barbers not found". Otherwise each named row takes its position and the others keep theirs. |
| Barbers.Listing | src/modules/barbers/service.js:17-34 | Exactly the rows with the requested activity, by position, ties oldest first. |
| Barbers.BarberService.ListBarbers | src/modules/barbers/service.js:17-34 | Returns `Listing` of the stored rows. |
| Barbers.BarberService.CreateBarber | src/modules/barbers/service.js:58-83 | The rows change as `CreateStep` describes, the per-table clock advances exactly on success, and the table stays valid. |
| Barbers.BarberService.UpdateBarber | src/modules/barbers/service.js:91-120 | The rows change as `UpdateStep` describes, and the table stays valid. |
| Barbers.BarberService.DeleteBarber | src/modules/barbers/service.js:127-140 | The rows change as `DeleteStep` describes, and the table stays valid. |
| Barbers.BarberService.ReorderBarbers | src/modules/barbers/service.js:147-172 | The checks run before the batch, and the rows change as `ReorderStep` describes. |
| Gallery.ValidateImage | src/modules/gallery-management/service.js:129-155 | Accepted exactly when `CheckImage` without the alphabet check accepts it, and each rejection has its own message. |
| Gallery.CreateStep | src/modules/gallery-management/service.js:53-73 | A bad image is refused. Otherwise the item is appended after every existing one, with the column default for activity, and ids stay unique. |
| Gallery.ApplyPatch | src/modules/gallery-management/service.js:78-93 | Given fields replace the old ones; id, position and creation time are kept. |
| Gallery.UpdateStep | src/modules/gallery-management/service.js:78-93 | An unknown id is "gallery item not found", and a non-empty image is checked. Success replaces only that row. |
| Gallery.DeleteStep | src/modules/gallery-management/service.js:98-107 | An unknown id is "gallery item not found"; otherwise exactly that row goes. |
| Gallery.ReorderStep | src/modules/gallery-management/service.js:112-124 | The transaction succeeds exactly when every update names a row; then the last update per row wins. An empty batch succeeds and changes nothing. |
| Gallery.Listing | src/modules/gallery-management/service.js:16-33 | Exactly the rows with the requested activity, by position, ties newest first. |
| Gallery.GalleryService.ListGalleryItems | src/modules/gallery-management/service.js:16-33 | Returns `Listing` of the stored rows. |
| Cache.PrefixPattern | src/modules/parameters/service.js:334 | A pattern made of a plain prefix and `*` matches exactly the keys starting with that prefix. |
| Cache.Glob | src/modules/cache/service.js:55-58 | Redis glob matching: `*` matches any run, `?` any one character, `[...]` a class of characters and ranges (negated by `^`), and `\` makes the next character literal; any other character matches itself. |
| Cache.KeysMatch | src/modules/cache/service.js:19 | The keys `KEYS` lists for a pattern: every key for `*`, otherwise the keys the glob matches. |
| Cache.PlainPrefixGlob | src/modules/parameters/service.js:334 | A plain prefix followed by `*` matches exactly the texts starting with that prefix. |
| Cache.ClassMembers | src/modules/cache/service.js:58 | `barbers:[ab]*` matches `barbers:a1` but not `barbers:c1` nor the literal `barbers:[ab]1`. |
| Cache.NegatedRange | src/modules/cache/service.js:58 | `[^a-c]` matches `d` and not `b`. |
| Cache.EscapedStar | src/modules/cache/service.js:58 | `\*` matches a literal `*` and not `a`. |
| Cache.RedisStore.Get | src/modules/square/handlers.js:12 | A key is read back exactly when it is stored, with its stored value. |
| Cache.RedisStore.SetEx | src/modules/square/handlers.js:31 | Writes exactly that key. |
| Cache.RedisStore.Keys | src/modules/cache/service.js:58 | Lists each stored key that the Redis glob pattern matches exactly once, and no other key. |
| Cache.RedisStore.Del | src/modules/cache/service.js:42-43 | Removes exactly the named keys and counts those that were present. |
| Cache.BucketOf | src/modules/cache/service.js:95-105 | A key is counted under the first of `barbers:`, `services:` or `availability:` it starts with, else under "other". |
| Cache.BucketsPartition | src/modules/cache/service.js:88-105 | The four counts sum to the number of keys. |
| Cache.CountIsGroupSize | src/modules/cache/service.js:95-105 | Over distinct keys, each count is the size of that family. |
| Cache.MemoryUsage | src/modules/cache/service.js:108-110 | The value is a non-empty run of non-space characters, and is "unknown" whenever the report lacks `used_memory_human:` (the exact value is stated by `MemoryUsageMatches`). |
| Cache.MemoryUsageOfLeadingLine | src/modules/cache/service.js:109-110 | A report starting with the marker yields the value written after it. |
| Cache.MemoryUsageAfter | src/modules/cache/service.js:109-110 | When the marker first occurs after any text, the value is the non-space run written right after it. |
| Cache.MemoryUsageMatches | src/modules/cache/service.js:109-110 | The value is what `/used_memory_human:(\S+)/` captures: "unknown" when no marker is followed by a non-space character, and otherwise the non-space run after the leftmost marker that is. |
| Cache.CountBuckets | src/modules/cache/service.js:95-105 | The loop's counts are the bucket counts. |
| Cache.CacheService.InvalidateAll | src/modules/cache/service.js:16-33 | Empties the store and reports how many keys there were. |
| Cache.CacheService.InvalidateByKey | src/modules/cache/service.js:40-48 | Removes that key and reports whether it existed. |
| Cache.CacheService.InvalidateByPattern | src/modules/cache/service.js:55-75 | Removes exactly the keys the Redis glob pattern matches, reports them and their number, and keeps the other keys with their values. |
| Cache.CacheService.GetStats | src/modules/cache/service.js:81-122 | Total and per-family counts that sum to the total, the memory line, and at most 100 distinct stored keys. |
| Cache.NewCacheService | src/modules/cache/service.js:5-10 | Refuses a missing client with "Redis client not initialized". |
| Square.DisplayNameJoins | src/modules/square/service.js:33 | Given and family names that are already tidy are joined with one space. |
| Square.DisplayNameOnePart | src/modules/square/service.js:33 | With one part missing, the display name is the other part trimmed. |
| Square.ProfileOf | src/modules/square/service.js:29-40 | A team member's profile keeps its fields. The display name joins the names, and `isOwner` holds exactly when Square says true. |
| Square.DisplayName | src/modules/square/service.js:33 | The given and family names, a missing one empty, joined by a space and trimmed (partnered by `DisplayNameJoins` and `DisplayNameOnePart`). |
| Square.GetBarbers | src/modules/square/service.js:15-45 | A Square failure is "failed to fetch barbers", no list is empty, and otherwise one profile per member in order. |
| Square.BarberDetailsAsWritten | src/modules/square/service.js:52-80 | As the code is written: "barber not found" exactly for a 404 failure; "failed to fetch barber details" exactly for any other failure or a reply without a team member; success exactly with a member, giving its profile. |
| Square.BarberDetails | src/modules/square/service.js:52-80 | "Barber not found" exactly for a 404 or a reply without a member. Any other failure is "failed to fetch barber details". Success yields the member's profile. |
| Square.MissingMemberIsNotFound | src/modules/square/service.js:65-69 | The code as written and the corrected version differ exactly on a reply without a member. |
| Square.FilterIgnoresCase | src/modules/square/service.js:103-110 | The category filter compares case-insensitively. |
| Square.MatchesFilter | src/modules/square/service.js:103-109 | With a truthy filter, a service passes when its name or description, lower-cased and missing meaning empty, contains the lower-cased filter; without one every service passes (partnered by `FilterIgnoresCase`). |
| Square.IsAppointmentService | src/modules/square/service.js:96-100 | The catalogue objects kept are the items whose product type is `APPOINTMENTS_SERVICE` (partnered by `GetServices`). |
| Square.VariationOf | src/modules/square/service.js:117-126 | A variation keeps its id, name, price amount and currency, and duration, a missing variation body giving none of them. It is bookable unless Square says false, and has no team members unless Square lists some. |
| Square.ServiceOf | src/modules/square/service.js:112-130 | A service keeps its id, update time, name, description and category, a missing item body giving none. It is deleted exactly when Square says so, and maps its variations in order. |
| Square.GetServices | src/modules/square/service.js:88-135 | A failure is "failed to fetch services" and no objects is empty. Otherwise it holds exactly the appointment services that match the filter: element i is the record of the i-th matching object, so the platform's order is kept. |
| Ordering.FilterAppend | src/modules/square/service.js:96-109 | Filtering two runs one after the other gives the two filtered runs in the same order. |
| Ordering.FilterSingleton | src/modules/square/service.js:96-109 | One object is kept exactly when it passes the test. |
| Square.ServicesInPlatformOrder | src/modules/square/service.js:96-112 | The services of a catalogue split into two runs are the first run's services followed by the second's. |
| Square.ServiceVariationDetails | src/modules/square/service.js:292-304 | A failed lookup falls back to 30 minutes and no version. Otherwise the duration is in minutes and the version is Square's. |
| Square.SegmentDuration | src/modules/square/service.js:199 | A missing or zero duration becomes 30 minutes. |
| Square.DurationFallback | src/modules/square/service.js:296-302 | 2 700 000 ms is 45 minutes, and a failed or empty lookup gives 30. |
| Square.BookingToSend | src/modules/square/service.js:194-205 | The request names the customer, location, time and note, and one segment with the variation, barber, duration and version. |
| Square.CreateError | src/modules/square/service.js:223-226 | An `INVALID_VALUE` first error is a 400 carrying its detail; anything else is "failed to create booking". |
| Square.CreateBooking | src/modules/square/service.js:187-228 | Sends the built request; success returns the created booking, and any failure is mapped by `CreateError`. |
| Square.GetBookingDetails | src/modules/square/service.js:235-259 | Success happens exactly with a booking. A 404 is exactly "booking not found"; any other failure is "failed to fetch booking details". |
| Square.CancelBooking | src/modules/square/service.js:267-286 | Success happens exactly with a booking, giving its id, status, update time and cancellation time. A 404 is exactly "booking not found"; any other failure is "failed to cancel booking". |
| Square.ViewOf | src/modules/square/service.js:239-251 | A booking view keeps the booking's id, customer, status, version, start time and segments, and carries `source` only when the details call asks for it. |
| SquareCodec.BarberFieldsReadBack | src/modules/square/handlers.js:15-22 | A cached barber reads back its id and display name, and has no `isBookable` member. |
| SquareCodec.ServicesRoundTrip | src/modules/square/handlers.js:107-122 | Decoding the cached text of a service list gives back the same list. |
| SquareCodec.VariationRoundTrip | src/modules/square/handlers.js:107-122 | A variation survives the cache round trip. |
| SquareCodec.ServiceRoundTrip | src/modules/square/handlers.js:107-122 | A service survives the cache round trip. |
| SquareCodec.VariationsRoundTrip | src/modules/square/handlers.js:107-122 | A list of variations survives the cache round trip. |
| SquareCodec.PriceRoundTrip | src/modules/square/handlers.js:107-122 | A price survives the cache round trip. |
| SquareCodec.StringsRoundTrip | src/modules/square/handlers.js:107-122 | A list of team-member ids survives the cache round trip. |
| SquareHandlers.ReplyOf | src/modules/square/handlers.js:45-49 | A service error becomes a reply with its message and status 400, 404 or otherwise 500. |
| SquareHandlers.ProfileOfRecord | src/modules/square/handlers.js:36-40 | A fresh barber's booking profile has its id and display name, and is bookable. |
| SquareHandlers.ProfilesOfJson | src/modules/square/handlers.js:15-22 | A cached list reads back exactly when it is an array of readable entries, one profile per entry in order. |
| SquareHandlers.ProfileOfJson | src/modules/square/handlers.js:18-22 | A cached barber reads back its id and display name. `isBookable` is the cached value if there is one, else true. |
| SquareHandlers.CachedProfilesMatchFresh | src/modules/square/handlers.js:15-41 | Profiles read back from a cached list are exactly those built from the fresh list. |
| SquareHandlers.BarbersStep | src/modules/square/handlers.js:4-55 | A cache hit answers from the cache and writes nothing. A miss asks Square and caches the list only when it is non-empty. Only `barbers:all` is ever written. |
| SquareHandlers.BarbersRepeatable | src/modules/square/handlers.js:4-55 | After a non-empty fresh answer, asking again answers the same profiles from the cache whatever Square would say. |
| SquareHandlers.BarberKeys | src/modules/square/handlers.js:59 | Two barber keys are equal exactly when their ids are, and a barber key meets the list key exactly for the id `all`. |
| SquareHandlers.BarberKey | src/modules/square/handlers.js:59 | A barber's entry is `barbers:` followed by the id (partnered by `BarberKeys`). |
| SquareHandlers.DetailsStep | src/modules/square/handlers.js:57-93 | A hit answers the stored entry and writes nothing. A miss answers the lookup's outcome and caches a success under the barber's key only. The handler passes the lookup as written. |
| SquareHandlers.DetailsRepeatable | src/modules/square/handlers.js:57-93 | After a successful fresh lookup, asking for the same barber again answers the cached entry whatever Square would say. |
| SquareHandlers.MissingMemberAnswer | src/modules/square/handlers.js:73-92 | On a miss, the handler as written answers a reply without a team member with a 500 "Failed to fetch barber details" and caches nothing; with the corrected lookup it would answer 404 "Barber not found". |
| SquareHandlers.ServicesKeyAsWritten | src/modules/square/handlers.js:98 | The key as written: an absent filter or type is spelled `all`. |
| SquareHandlers.FilterAllSharesUnfilteredKey | src/modules/square/handlers.js:98 | The filter `all` gets the unfiltered query's key, although Square answers the two differently. |
| SquareHandlers.KeyPartInjective | src/modules/square/handlers.js:98 | Two key parts are equal exactly when the truthy values they spell are. |
| SquareHandlers.KeyPart | src/modules/square/handlers.js:98 | The corrected key part: `all` for an absent or empty value, otherwise `=` and the escaped value (partnered by `KeyPartInjective`). |
| SquareHandlers.ServicesKey | src/modules/square/handlers.js:98 | The corrected key starts with `services:`. Each part is `all` or `=` followed by the value with `%` and `:` escaped, so no part contains a colon. |
| SquareHandlers.ServicesKeyInjective | src/modules/square/handlers.js:98 | Two corrected services keys are equal exactly when the truthy filters and types are. |
| SquareHandlers.SharedKeySameAnswer | src/modules/square/handlers.js:95-145 | Queries that share a corrected key get the same answer from Square, so a hit never serves another query's list. |
| SquareHandlers.TransformServices | src/modules/square/handlers.js:148-192 | One output item per service, in order, keeping the service's id, name, description, deletion flag and update time, typed as an appointment-service item. Each variation keeps its id, name, price, duration, bookability and team members, and names its service as its item. |
| SquareHandlers.TransformLosesOnlyCategory | src/modules/square/handlers.js:148-192 | The reshaped item still determines the service except for its category. |
| SquareHandlers.PageOf | src/modules/square/handlers.js:126-131 | The answer wraps the reshaped services with an empty cursor and no matched variations. |
| SquareHandlers.ServicesStep | src/modules/square/handlers.js:95-145 | A hit decodes the cached list, or answers an internal error for text it cannot read, and writes nothing. A miss answers Square's services for the filter, and caches the list under the key only when it is non-empty. No other key changes. |
| SquareHandlers.ServicesRepeatable | src/modules/square/handlers.js:95-145 | Under the key as written, after a non-empty fresh answer, the same query answers the same page from the cache whatever Square says then. |
| SquareHandlers.ServedFromEntry | src/modules/square/handlers.js:100-137 | After a miss that cached a non-empty list under a key, every later request with that key, whatever its filter, is served that list whatever Square says. |
| SquareHandlers.FilterAllServedUnfiltered | src/modules/square/handlers.js:98-137 | As written, after an unfiltered request cached one service, `?filter=all` is served that service, although Square's answer for the filter `all` is empty. |
| SquareHandlers.CorrectedKeyRepeatable | src/modules/square/handlers.js:95-145 | With the corrected key, any later query that shares the entry is served exactly what Square would answer it fresh. |
| SquareHandlers.CreateBookingFor | src/modules/square/handlers.js:215-240 | The booking is created for the signed-in user whatever customer the body names, and any failure becomes its reply. |
| SquareHandlers.CreateBookingIgnoresBodyCustomer | src/modules/square/handlers.js:220-223 | A customer id in the body never changes the booking sent. |
| SquareHandlers.OwnBookingAccessible | src/modules/square/handlers.js:249-257 | A customer may always view their own booking. |
| SquareHandlers.MayAccess | src/modules/square/handlers.js:249-252 | A user may look at a booking unless they are a customer and the booking names another customer (partnered by `OwnBookingAccessible` and `BookingDetailsFor`). |
| SquareHandlers.BookingDetailsFor | src/modules/square/handlers.js:242-273 | A lookup failure is its reply. A customer asking for another customer's booking is forbidden with "You can only view your own bookings". Anyone else gets the booking. |
| SquareHandlers.CancelFor | src/modules/square/handlers.js:275-312 | A cancel is issued exactly when the booking is found and the user may act on it, and then it carries the id and the version from the request body, and its reply is the answer. A customer acting on another customer's booking is forbidden. |
| SquareHandlers.ForbiddenNeverCancels | src/modules/square/handlers.js:283-291 | A forbidden request never reaches Square's cancel. |
| SquareHandlers.Handlers.GetBarbers | src/modules/square/handlers.js:4-55 | The answer and the Redis store are as `BarbersStep` describes. |
| SquareHandlers.Handlers.GetBarberDetails | src/modules/square/handlers.js:57-93 | The answer and the Redis store are as `DetailsStep` describes, with the details lookup as written (`Square.BarberDetailsAsWritten`). |
| SquareHandlers.Handlers.GetServices | src/modules/square/handlers.js:95-145 | The answer and the Redis store are as `ServicesStep` describes, under the key as written (`ServicesKeyAsWritten`). |

## Left out

- Network and provider calls (Square, the SMS provider, OAuth) are modelled by the replies they return. The customer updates sent to Square after a profile change, which swallow their errors, are not modelled.
- `checkAvailability`, in both the service and the handler, is not modelled: it only forwards a search request and its reply.
- The handlers' plain glue (reading params, sending replies) is modelled only where it decides something: status codes, ownership, caching.
- Concurrency is not modelled: each operation is one atomic step, so races between a cache read and a write, or between two registrations, are outside the model.
- Redis TTLs and expiry are not modelled: `SetEx` ignores its TTL. The TTLs read from the environment are plain constructor parameters.
- Logging and `console.error` are left out.
- Prisma's `updatedAt` on barbers and gallery items, and the name uniqueness of the schema, are not modelled; creation time is a per-table counter.
- Customers.ProfileOf: the user rows' `createdAt` and `updatedAt` columns are not modelled, so the profile leaves out the two timestamps the code returns (src/modules/customers/service.js:39-40, 96-97).
- Customers.GetProfile: the profile it answers has no timestamps, as stated for `Customers.ProfileOf`.
- Customers.CustomerService.UpdateProfile: the updated profile it answers has no timestamps, and the update does not move `updatedAt`, as stated for `Customers.ProfileOf`.
- Floating point is not modelled: durations are reals, and the parameters' `NUMBER` check treats NaN as any number; the price description is left out.
- Case folding is ASCII only (`Common.ToLower`), and string order is code-unit order without locale collation.
- Lengths are counted in characters, where JavaScript's `.length` counts UTF-16 code units. The phone-length messages and the image payload limit can therefore differ from the code for text outside the Basic Multilingual Plane.
- Redis failures are not modelled: every `get`, `setex`, `keys`, `del` and `info` call succeeds. The code behaves differently when Redis fails, in three places:
  - Cache.CacheService turns each failure into a 500 with its own message (src/modules/cache/service.js:29-31, 44-46, 71-73, 118-120).
  - SquareHandlers.Handlers turns a failing `get` or `setex` into a 500 "Internal server error".
  - Parameters.ParameterService logs and swallows failures of the public read's cache calls and of invalidation (src/modules/parameters/service.js:124-127, 146-149, 339-342). A failed invalidation can therefore leave stale entries, which `Parameters.InvalidationForcesFreshReads` does not cover, since it assumes the delete succeeds.
- Cache.Glob: the model matches characters, where Redis matches the key's UTF-8 bytes. So `?`, character classes and ranges can give different verdicts when the key or the pattern holds non-ASCII text; `services:caf?:all` does not match `services:café:all` in Redis, but does in the model. `RedisStore.Keys` and `CacheService.InvalidateByPattern` inherit this.
- Cache.Glob omits two parts of Redis's matcher. Its nesting limit on stars (a guard against runaway recursion) is not modelled, and neither is the early exit it takes once a star cannot match the rest. The early exit does not change any verdict. The case-insensitive variant is not used by `KEYS`.
- The URL parser (`new URL`) and the phone-number library are oracles passed in.
- A reorder request body that is not an array is rejected by the route schema before the services run, so it is not modelled.
- Tokens.Authenticated relies on the access and refresh secrets differing: it never checks the `type` claim, so when `JWT_SECRET` equals `JWT_REFRESH_TOKEN_SECRET` a refresh token authenticates (`Tokens.SharedSecretRefreshAuthenticates`). The default secrets differ (`Tokens.ConfigFrom`).
- Answers are modelled as the values the handlers send, before Fastify serializes them through the routes' response schemas (src/modules/square/schemas/index.js); those schemas declare array bodies for the barber and service lists, and what the serializer makes of the objects sent is not modelled.
- Parameters.Ordered: rows with equal sort keys keep their table order, where the database leaves their order unspecified.
- Catalog.ListRows: rows with equal position and creation time keep their table order, where the database leaves their order unspecified.
- Tokens: `Tokens.Sign` builds a token value rather than its encoded text. The signature is the key it was made with, so forgery resistance is assumed rather than proved.
- Users.Hash: bcrypt's salt and work factor are left out; a digest is a function of the password.
- SquareHandlers.ProfileOfJson: a cached entry this code did not write is read back as far as the model's JSON allows; JavaScript's handling of other shapes is not followed.
- SquareHandlers.ServicesStep: a cached text that does not decode to services is answered with the internal error, where the code would throw on a foreign shape.
- The `type` query argument of the services handler only shapes the cache key; the service ignores it, as the code does.
- The error class `AppError` is not part of this model (src/utils/errors.js is not among the files). Its calls pass status and message in both orders; each error is modelled by the status and message its call evidently means.
- `getBarberById`, `getGalleryItemById`, `getParameterById` and `getParameterByKey` are modelled only as the lookups the writes use (`Catalog.Find`, `Parameters.Locate`) and their "not found" branches.

## Findings

| source | as written | input that shows it | evidently intended | confidence | as-written member | corrected member |
|---|---|---|---|---|---|---|
| src/modules/square/service.js:54-79 | The 404 `AppError` raised for a reply without a team member is caught by the same `try`. It leaves as a 500 "Failed to fetch barber details" (shown by `Square.MissingMemberIsNotFound`, and at the handler by `SquareHandlers.MissingMemberAnswer`). | A successful Square reply that has no `team_member` | 404 "Barber not found" | medium, not executed | Square.BarberDetailsAsWritten | Square.BarberDetails |
| src/modules/square/handlers.js:98 | The cache key spells an absent filter as `all`, so `?filter=all` and no filter share `services:all:all`, although Square's filtered answer differs (shown by `SquareHandlers.FilterAllSharesUnfilteredKey`; `SquareHandlers.FilterAllServedUnfiltered` shows the unfiltered list served for `filter=all`). | `filter=all` with no type, after an unfiltered request was cached | Distinct queries get distinct keys (proved by `SquareHandlers.ServicesKeyInjective`, `SquareHandlers.SharedKeySameAnswer` and `SquareHandlers.CorrectedKeyRepeatable`) | medium, not executed | SquareHandlers.ServicesKeyAsWritten | SquareHandlers.ServicesKey |
