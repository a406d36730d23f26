/**
 * The identity flows of `AuthService`: customer and administrator
 * registration, OTP request and verification (login flow and phone-change
 * flow), password login, profile and password updates, all over the shared
 * user table.
 *
 * Each state-changing operation has a specification function over the table
 * (`...Step`) that returns the outcome together with the table afterwards;
 * the `AuthService` method performs the same steps against the store and
 * promises exactly that pair. Read-only lookups are plain functions of the
 * table.
 */
module Auth {
  import opened Common
  import opened Phone
  import opened Users

  /** The services' configuration: the phone parser and the OTP mode. */
  datatype Env = Env(parse: Parser, otp: OtpMode)

  datatype AuthError =
    | InvalidPhone(message: string)     // from `formatPhoneNumber`
    | PhoneAlreadyRegistered
    | EmailAlreadyRegistered
    | PhoneInUse                        // phone-change target owned by someone else
    | UserNotFound
    | OtpNotAvailable                   // OTP login requested for a non-customer
    | ResetNotAvailable                 // password reset requested for a non-customer
    | InvalidCredentials
    | UseOtpLogin                       // the account has no password
    | InvalidOtp
    | OtpFailure(message: string)       // the SMS provider failed
    | CustomerApiFailure(message: string) // the booking platform refused to create the customer
    | Store(error: StoreError)          // the store refused the write

  function FromOtp(e: OtpError): AuthError {
    match e
    case BadPhone(m) => InvalidPhone(m)
    case ProviderFailure(m) => OtpFailure(m)
  }

  datatype Registration = Registration(userId: Id, phoneNumber: string, message: string)

  const RegisteredMessage := "Registration successful. OTP sent."
  const AdminCreatedMessage := "Admin created successfully"

  /** The row `register` inserts. */
  function NewCustomer(id: Id, phone: string, firstName: string, lastName: string, email: Option<string>,
                       password: string, squareId: string): (u: User)
    ensures u.id == id && u.phoneNumber == phone && u.role == Customer && !u.isVerified
    ensures u.email.Some? <==> Truthy(email).Some?
    ensures u.squareupId == Some(squareId)
    ensures forall p :: u.password.Some? && Matches(p, u.password.value) <==> p == password
  {
    forall p ensures Matches(p, Hash(password)) <==> p == password {
      HashMatchesOnlyItsPassword(p, password);
    }
    User(id, phone, Truthy(email), firstName, lastName, Some(Hash(password)), Customer, false, Some(squareId))
  }

  /** The row `registerAdmin` inserts. */
  function NewAdmin(id: Id, phone: string, firstName: string, lastName: string, email: string, password: string): (u: User)
    ensures u.id == id && u.phoneNumber == phone && u.email == Some(email) && u.role == Admin && u.isVerified
    ensures u.squareupId.None?
    ensures forall p :: u.password.Some? && Matches(p, u.password.value) <==> p == password
  {
    forall p ensures Matches(p, Hash(password)) <==> p == password {
      HashMatchesOnlyItsPassword(p, password);
    }
    User(id, phone, Some(email), firstName, lastName, Some(Hash(password)), Admin, true, None)
  }

  /**
   * `register`: the formatted phone and, when given, the e-mail must be free;
   * the booking platform's customer is created before the insert and its
   * failure is not caught; the OTP is sent after the insert.
   */
  function RegisterStep(users: Table, env: Env, phoneNumber: Option<string>, firstName: string, lastName: string,
                        email: Option<string>, password: string, newId: Id,
                        squareReply: Result<string, string>, smsReply: Result<Verification, string>)
    : (out: (Result<Registration, AuthError>, Table))
    requires Unique(users)
    ensures Unique(out.1) && Evolves(users, out.1)
    ensures FormatPhoneNumber(phoneNumber, env.parse).Err? ==>
      out == (Err(InvalidPhone(FormatPhoneNumber(phoneNumber, env.parse).error)), users)
    ensures FormatPhoneNumber(phoneNumber, env.parse).Ok? ==>
      var phone := FormatPhoneNumber(phoneNumber, env.parse).value;
      (PhoneTaken(users, phone) ==> out == (Err(PhoneAlreadyRegistered), users))
      && (!PhoneTaken(users, phone) && Truthy(email).Some? && EmailTaken(users, email.value) ==>
            out == (Err(EmailAlreadyRegistered), users))
      && (out.1 != users ==>
            newId !in users && squareReply.Ok?
            && out.1 == users[newId := NewCustomer(newId, phone, firstName, lastName, email, password, squareReply.value)])
    ensures FormatPhoneNumber(phoneNumber, env.parse).Ok? ==>
      var phone := FormatPhoneNumber(phoneNumber, env.parse).value;
      !PhoneTaken(users, phone) && !(Truthy(email).Some? && EmailTaken(users, email.value)) ==>
        (squareReply.Err? ==> out == (Err(CustomerApiFailure(squareReply.error)), users))
        && (squareReply.Ok? && newId in users ==> out == (Err(Store(UniqueViolation)), users))
        && (squareReply.Ok? && newId !in users ==>
              out.1 == users[newId := NewCustomer(newId, phone, firstName, lastName, email, password, squareReply.value)]
              && out.0 == match SendOtp(phoneNumber, env.parse, env.otp, smsReply)
                          case Ok(_) => Ok(Registration(newId, phone, RegisteredMessage))
                          case Err(e) => Err(FromOtp(e)))
    ensures squareReply.Err? ==> out.1 == users
    ensures out.0.Ok? ==> out.1 != users && out.0.value.userId == newId && out.0.value.message == RegisteredMessage
    ensures out.0.Err? && out.1 != users ==> out.0.error.OtpFailure? || out.0.error.InvalidPhone?
  {
    match FormatPhoneNumber(phoneNumber, env.parse)
    case Err(m) => (Err(InvalidPhone(m)), users)
    case Ok(phone) =>
      if PhoneTaken(users, phone) then (Err(PhoneAlreadyRegistered), users)
      else if Truthy(email).Some? && EmailTaken(users, email.value) then (Err(EmailAlreadyRegistered), users)
      else
        match squareReply
        case Err(m) => (Err(CustomerApiFailure(m)), users)
        case Ok(squareId) =>
          if newId in users then (Err(Store(UniqueViolation)), users)
          else
            var row := NewCustomer(newId, phone, firstName, lastName, email, password, squareId);
            assert Fits(users, row);
            FitsKeepsUnique(users, row);
            var after := users[newId := row];
            match SendOtp(phoneNumber, env.parse, env.otp, smsReply)
            case Ok(_) => (Ok(Registration(newId, phone, RegisteredMessage)), after)
            case Err(e) => (Err(FromOtp(e)), after)
  }

  /** `registerAdmin`: the same uniqueness checks (the e-mail is always checked), then a verified admin. */
  function RegisterAdminStep(users: Table, env: Env, phoneNumber: Option<string>, firstName: string, lastName: string,
                             email: string, password: string, newId: Id)
    : (out: (Result<Registration, AuthError>, Table))
    requires Unique(users)
    ensures Unique(out.1) && Evolves(users, out.1)
    ensures out.0.Err? <==> out.1 == users
    ensures FormatPhoneNumber(phoneNumber, env.parse).Err? ==>
      out == (Err(InvalidPhone(FormatPhoneNumber(phoneNumber, env.parse).error)), users)
    ensures FormatPhoneNumber(phoneNumber, env.parse).Ok? ==>
      var phone := FormatPhoneNumber(phoneNumber, env.parse).value;
      (PhoneTaken(users, phone) ==> out.0 == Err(PhoneAlreadyRegistered))
      && (!PhoneTaken(users, phone) && EmailTaken(users, email) ==> out.0 == Err(EmailAlreadyRegistered))
      && (out.0.Ok? <==> !PhoneTaken(users, phone) && !EmailTaken(users, email) && newId !in users)
      && (out.0.Ok? ==>
            out.1 == users[newId := NewAdmin(newId, phone, firstName, lastName, email, password)]
            && out.0.value == Registration(newId, phone, AdminCreatedMessage))
  {
    match FormatPhoneNumber(phoneNumber, env.parse)
    case Err(m) => (Err(InvalidPhone(m)), users)
    case Ok(phone) =>
      if PhoneTaken(users, phone) then (Err(PhoneAlreadyRegistered), users)
      else if EmailTaken(users, email) then (Err(EmailAlreadyRegistered), users)
      else if newId in users then (Err(Store(UniqueViolation)), users)
      else
        var row := NewAdmin(newId, phone, firstName, lastName, email, password);
        assert Fits(users, row);
        FitsKeepsUnique(users, row);
        (Ok(Registration(newId, phone, AdminCreatedMessage)), users[newId := row])
  }

  /**
   * `requestOTP`: with a caller, the target phone must not belong to another
   * user; without one, an existing customer must own it. Nothing is written.
   */
  function RequestOtp(users: Table, env: Env, phoneNumber: Option<string>, caller: Option<Id>,
                      smsReply: Result<Verification, string>): (r: Result<string, AuthError>)
    requires Unique(users)
    ensures FormatPhoneNumber(phoneNumber, env.parse).Err? ==>
      r == Err(InvalidPhone(FormatPhoneNumber(phoneNumber, env.parse).error))
    ensures FormatPhoneNumber(phoneNumber, env.parse).Ok? ==>
      var phone := FormatPhoneNumber(phoneNumber, env.parse).value;
      (caller.Some? ==>
        ((exists id :: id in users && users[id].phoneNumber == phone && id != caller.value) <==> r == Err(PhoneInUse)))
      && (caller.None? && !PhoneTaken(users, phone) ==> r == Err(UserNotFound))
      && (caller.None? && PhoneTaken(users, phone) && FindByPhone(users, phone).value.role != Customer ==>
            r == Err(OtpNotAvailable))
      && (caller.Some? && !PhoneTakenByOther(users, phone, caller.value) ==>
            r == match SendOtp(phoneNumber, env.parse, env.otp, smsReply)
                 case Err(e) => Err(FromOtp(e))
                 case Ok(_) => Ok("OTP sent to new phone number"))
      && (caller.None? && PhoneTaken(users, phone) && FindByPhone(users, phone).value.role == Customer ==>
            r == match SendOtp(phoneNumber, env.parse, env.otp, smsReply)
                 case Err(e) => Err(FromOtp(e))
                 case Ok(_) => Ok("OTP sent successfully"))
    ensures r.Ok? ==> SendOtp(phoneNumber, env.parse, env.otp, smsReply).Ok?
  {
    match FormatPhoneNumber(phoneNumber, env.parse)
    case Err(m) => Err(InvalidPhone(m))
    case Ok(phone) =>
      var existing := FindByPhone(users, phone);
      if caller.Some? && existing.Some? && existing.value.id != caller.value then Err(PhoneInUse)
      else if caller.None? && existing.None? then Err(UserNotFound)
      else if caller.None? && existing.value.role != Customer then Err(OtpNotAvailable)
      else
        match SendOtp(phoneNumber, env.parse, env.otp, smsReply)
        case Err(e) => Err(FromOtp(e))
        case Ok(_) =>
          Ok(if caller.Some? then "OTP sent to new phone number" else "OTP sent successfully")
  }

  /** `forgotPassword`: an existing customer must own the phone. Nothing is written. */
  function ForgotPassword(users: Table, env: Env, phoneNumber: Option<string>,
                          smsReply: Result<Verification, string>): (r: Result<string, AuthError>)
    requires Unique(users)
    ensures FormatPhoneNumber(phoneNumber, env.parse).Err? ==>
      r == Err(InvalidPhone(FormatPhoneNumber(phoneNumber, env.parse).error))
    ensures FormatPhoneNumber(phoneNumber, env.parse).Ok? ==>
      var phone := FormatPhoneNumber(phoneNumber, env.parse).value;
      (!PhoneTaken(users, phone) ==> r == Err(UserNotFound))
      && (PhoneTaken(users, phone) && FindByPhone(users, phone).value.role != Customer ==> r == Err(ResetNotAvailable))
      && (r.Ok? <==> PhoneTaken(users, phone) && FindByPhone(users, phone).value.role == Customer
                     && SendOtp(phoneNumber, env.parse, env.otp, smsReply).Ok?)
      && (PhoneTaken(users, phone) && FindByPhone(users, phone).value.role == Customer ==>
            r == match SendOtp(phoneNumber, env.parse, env.otp, smsReply)
                 case Err(e) => Err(FromOtp(e))
                 case Ok(_) => Ok("OTP sent for account recovery"))
  {
    match FormatPhoneNumber(phoneNumber, env.parse)
    case Err(m) => Err(InvalidPhone(m))
    case Ok(phone) =>
      match FindByPhone(users, phone)
      case None => Err(UserNotFound)
      case Some(u) =>
        if u.role != Customer then Err(ResetNotAvailable)
        else
          match SendOtp(phoneNumber, env.parse, env.otp, smsReply)
          case Err(e) => Err(FromOtp(e))
          case Ok(_) => Ok("OTP sent for account recovery")
  }

  /** The account `login` looks at: by e-mail when the identifier has an `@`, else by formatted phone. */
  function LoginLookup(users: Table, env: Env, emailOrPhone: string): (r: Result<Option<User>, AuthError>)
    requires Unique(users)
    ensures Contains(emailOrPhone, "@") ==> r == Ok(FindByEmail(users, emailOrPhone))
    ensures !Contains(emailOrPhone, "@") ==>
      r == match FormatPhoneNumber(Some(emailOrPhone), env.parse)
           case Err(m) => Err(InvalidPhone(m))
           case Ok(phone) => Ok(FindByPhone(users, phone))
  {
    if Contains(emailOrPhone, "@") then Ok(FindByEmail(users, emailOrPhone))
    else
      match FormatPhoneNumber(Some(emailOrPhone), env.parse)
      case Err(m) => Err(InvalidPhone(m))
      case Ok(phone) => Ok(FindByPhone(users, phone))
  }

  /** `login`: an unknown account and a wrong password look the same; verification is not required. */
  function Login(users: Table, env: Env, emailOrPhone: string, password: string): (r: Result<User, AuthError>)
    requires Unique(users)
    ensures LoginLookup(users, env, emailOrPhone).Err? ==> r == Err(LoginLookup(users, env, emailOrPhone).error)
    ensures LoginLookup(users, env, emailOrPhone).Ok? && LoginLookup(users, env, emailOrPhone).value.None? ==>
      r == Err(InvalidCredentials)
    ensures LoginLookup(users, env, emailOrPhone).Ok? && LoginLookup(users, env, emailOrPhone).value.Some? ==>
      var u := LoginLookup(users, env, emailOrPhone).value.value;
      (u.password.None? ==> r == Err(UseOtpLogin))
      && (u.password.Some? && !Matches(password, u.password.value) ==> r == Err(InvalidCredentials))
      && (u.password.Some? && Matches(password, u.password.value) ==> r == Ok(u))
    ensures r.Ok? ==> r.value.id in users && users[r.value.id] == r.value && r.value.password == Some(Hash(password))
  {
    match LoginLookup(users, env, emailOrPhone)
    case Err(e) => Err(e)
    case Ok(found) =>
      match found
      case None => Err(InvalidCredentials)
      case Some(u) =>
        if u.password.None? then Err(UseOtpLogin)
        else if !Matches(password, u.password.value) then Err(InvalidCredentials)
        else Ok(u)
  }

  /** `getUser`. */
  function GetUser(users: Table, id: Id): (r: Result<User, AuthError>)
    ensures r.Ok? <==> id in users
    ensures r.Ok? ==> r.value == users[id]
    ensures r.Err? ==> r.error == UserNotFound
  {
    if id in users then Ok(users[id]) else Err(UserNotFound)
  }

  /**
   * `verifyOTP`: the code is checked before the table is read. With a caller,
   * the caller's row takes the formatted phone and becomes verified unless the
   * phone belongs to someone else; without one, the phone's owner becomes
   * verified if it was not already.
   */
  function VerifyOtpStep(users: Table, env: Env, phoneNumber: Option<string>, code: string, caller: Option<Id>,
                         checkReply: Result<Verification, string>)
    : (out: (Result<User, AuthError>, Table))
    requires Unique(users)
    ensures Unique(out.1) && Evolves(users, out.1)
    ensures out.0.Err? ==> out.1 == users
    ensures FormatPhoneNumber(phoneNumber, env.parse).Err? ==>
      out.0 == Err(InvalidPhone(FormatPhoneNumber(phoneNumber, env.parse).error))
    ensures out.0.Ok? ==>
      VerifyOtp(phoneNumber, code, env.parse, env.otp, checkReply).Ok?
      && VerifyOtp(phoneNumber, code, env.parse, env.otp, checkReply).value.valid
      && out.0.value.isVerified
      && out.0.value.phoneNumber == FormatPhoneNumber(phoneNumber, env.parse).value
      && out.0.value.id in out.1 && out.1[out.0.value.id] == out.0.value
      && out.1 == users[out.0.value.id := out.0.value]
    ensures out.0.Ok? && caller.Some? ==>
      out.0.value.id == caller.value && caller.value in users
      && out.0.value == users[caller.value].(phoneNumber := out.0.value.phoneNumber, isVerified := true)
    ensures out.0.Ok? && caller.None? ==>
      out.0.value.id in users && out.0.value == users[out.0.value.id].(isVerified := true)
    ensures FormatPhoneNumber(phoneNumber, env.parse).Ok? ==>
      var phone := FormatPhoneNumber(phoneNumber, env.parse).value;
      match VerifyOtp(phoneNumber, code, env.parse, env.otp, checkReply)
      case Err(e) => out == (Err(FromOtp(e)), users)
      case Ok(check) =>
        (!check.valid ==> out == (Err(InvalidOtp), users))
        && (check.valid && caller.None? && !PhoneTaken(users, phone) ==> out == (Err(UserNotFound), users))
        && (check.valid && caller.None? && PhoneTaken(users, phone) ==>
              out.0 == Ok(FindByPhone(users, phone).value.(isVerified := true)))
        && (check.valid && caller.Some? && PhoneTakenByOther(users, phone, caller.value) ==>
              out == (Err(PhoneInUse), users))
        && (check.valid && caller.Some? && !PhoneTakenByOther(users, phone, caller.value) ==>
              (out.0.Ok? <==> caller.value in users)
              && (caller.value !in users ==> out == (Err(Store(RecordMissing)), users)))
  {
    match FormatPhoneNumber(phoneNumber, env.parse)
    case Err(m) => (Err(InvalidPhone(m)), users)
    case Ok(phone) =>
      match VerifyOtp(phoneNumber, code, env.parse, env.otp, checkReply)
      case Err(e) => (Err(FromOtp(e)), users)
      case Ok(check) =>
        if !check.valid then (Err(InvalidOtp), users)
        else
          match caller
          case Some(cid) =>
            var existing := FindByPhone(users, phone);
            if existing.Some? && existing.value.id != cid then (Err(PhoneInUse), users)
            else if cid !in users then (Err(Store(RecordMissing)), users)
            else
              var u := users[cid].(phoneNumber := phone, isVerified := true);
              assert Fits(users, u);
              FitsKeepsUnique(users, u);
              (Ok(u), users[cid := u])
          case None =>
            match FindByPhone(users, phone)
            case None => (Err(UserNotFound), users)
            case Some(u) =>
              if u.isVerified then (Ok(u), users)
              else
                var v := u.(isVerified := true);
                assert Fits(users, v);
                FitsKeepsUnique(users, v);
                (Ok(v), users[u.id := v])
  }

  /**
   * The profile update both `AuthService` and `CustomerService` perform: the
   * e-mail must not belong to another user; empty or missing fields stay as
   * they are.
   */
  function UpdateProfileStep(users: Table, id: Id, firstName: Option<string>, lastName: Option<string>,
                             email: Option<string>): (out: (Result<User, AuthError>, Table))
    requires Unique(users)
    ensures Unique(out.1) && Evolves(users, out.1)
    ensures out.0.Err? ==> out.1 == users
    ensures Truthy(email).Some? && EmailTakenByOther(users, email.value, id) ==> out.0 == Err(EmailAlreadyRegistered)
    ensures out.0.Ok? <==> id in users && !(Truthy(email).Some? && EmailTakenByOther(users, email.value, id))
    ensures out.0.Ok? ==>
      var u := users[id];
      out.1 == users[id := out.0.value]
      && out.0.value == u.(firstName := if Truthy(firstName).Some? then firstName.value else u.firstName,
                           lastName := if Truthy(lastName).Some? then lastName.value else u.lastName,
                           email := if Truthy(email).Some? then email else u.email)
  {
    if Truthy(email).Some? && EmailTakenByOther(users, email.value, id) then (Err(EmailAlreadyRegistered), users)
    else if id !in users then (Err(Store(RecordMissing)), users)
    else
      var u := users[id];
      var v := u.(firstName := if Truthy(firstName).Some? then firstName.value else u.firstName,
                  lastName := if Truthy(lastName).Some? then lastName.value else u.lastName,
                  email := if Truthy(email).Some? then email else u.email);
      assert Fits(users, v);
      FitsKeepsUnique(users, v);
      (Ok(v), users[id := v])
  }

  /** `updatePassword`: an existing user's password digest is replaced and nothing else changes. */
  function UpdatePasswordStep(users: Table, id: Id, newPassword: string): (out: (Result<(), AuthError>, Table))
    requires Unique(users)
    ensures Unique(out.1) && Evolves(users, out.1)
    ensures out.0.Ok? <==> id in users
    ensures out.0.Err? ==> out == (Err(UserNotFound), users)
    ensures out.0.Ok? ==> out.1 == users[id := users[id].(password := Some(Hash(newPassword)))]
  {
    if id !in users then (Err(UserNotFound), users)
    else
      var v := users[id].(password := Some(Hash(newPassword)));
      assert Fits(users, v);
      FitsKeepsUnique(users, v);
      (Ok(()), users[id := v])
  }

  /** An invalid code is rejected whatever the table holds: the store is not consulted first. */
  lemma {:induction false} InvalidCodeIgnoresTable(t1: Table, t2: Table, env: Env, phoneNumber: Option<string>,
                                code: string, caller: Option<Id>, checkReply: Result<Verification, string>)
    requires Unique(t1) && Unique(t2)
    requires VerifyOtp(phoneNumber, code, env.parse, env.otp, checkReply).Ok?
    requires !VerifyOtp(phoneNumber, code, env.parse, env.otp, checkReply).value.valid
    ensures VerifyOtpStep(t1, env, phoneNumber, code, caller, checkReply) == (Err(InvalidOtp), t1)
    ensures VerifyOtpStep(t2, env, phoneNumber, code, caller, checkReply) == (Err(InvalidOtp), t2)
  {
    assert FormatPhoneNumber(phoneNumber, env.parse).Ok?;
  }

  /** Verifying the same phone twice in the login flow: the second call changes nothing. */
  lemma {:induction false} VerifyLoginIdempotent(users: Table, env: Env, phoneNumber: Option<string>, code: string,
                                                 checkReply: Result<Verification, string>)
    requires Unique(users)
    requires VerifyOtpStep(users, env, phoneNumber, code, None, checkReply).0.Ok?
    ensures var (r1, t1) := VerifyOtpStep(users, env, phoneNumber, code, None, checkReply);
            VerifyOtpStep(t1, env, phoneNumber, code, None, checkReply) == (r1, t1)
  {
    var (r1, t1) := VerifyOtpStep(users, env, phoneNumber, code, None, checkReply);
    var phone := FormatPhoneNumber(phoneNumber, env.parse).value;
    var u := r1.value;
    assert t1[u.id] == u && u.phoneNumber == phone && u.isVerified;
    assert FindByPhone(t1, phone) == Some(u);
  }

  /** A phone change onto a number another user owns fails and leaves the caller's row as it was. */
  lemma {:induction false} PhoneChangeConflict(users: Table, env: Env, phoneNumber: Option<string>, code: string,
                                               caller: Id, checkReply: Result<Verification, string>)
    requires Unique(users)
    requires FormatPhoneNumber(phoneNumber, env.parse).Ok?
    requires VerifyOtp(phoneNumber, code, env.parse, env.otp, checkReply).Ok?
    requires VerifyOtp(phoneNumber, code, env.parse, env.otp, checkReply).value.valid
    requires exists other :: other in users && other != caller
                             && users[other].phoneNumber == FormatPhoneNumber(phoneNumber, env.parse).value
    ensures VerifyOtpStep(users, env, phoneNumber, code, Some(caller), checkReply) == (Err(PhoneInUse), users)
  {
    var phone := FormatPhoneNumber(phoneNumber, env.parse).value;
    var other :| other in users && other != caller && users[other].phoneNumber == phone;
    assert FindByPhone(users, phone) == Some(users[other]);
  }

  /** A freshly registered customer verified through the login flow ends up verified, with nothing else changed. */
  lemma {:induction false} RegisterThenVerify(users: Table, env: Env, phoneNumber: Option<string>, firstName: string,
                                              lastName: string, email: Option<string>, password: string, newId: Id,
                                              squareReply: Result<string, string>, smsReply: Result<Verification, string>,
                                              code: string, checkReply: Result<Verification, string>)
    requires Unique(users)
    requires RegisterStep(users, env, phoneNumber, firstName, lastName, email, password, newId, squareReply, smsReply).0.Ok?
    requires VerifyOtp(phoneNumber, code, env.parse, env.otp, checkReply).Ok?
    requires VerifyOtp(phoneNumber, code, env.parse, env.otp, checkReply).value.valid
    ensures var t1 := RegisterStep(users, env, phoneNumber, firstName, lastName, email, password, newId, squareReply, smsReply).1;
            var (r2, t2) := VerifyOtpStep(t1, env, phoneNumber, code, None, checkReply);
            r2 == Ok(t1[newId].(isVerified := true)) && t2 == t1[newId := t1[newId].(isVerified := true)]
  {
    var t1 := RegisterStep(users, env, phoneNumber, firstName, lastName, email, password, newId, squareReply, smsReply).1;
    var phone := FormatPhoneNumber(phoneNumber, env.parse).value;
    assert t1[newId].phoneNumber == phone && !t1[newId].isVerified;
    assert FindByPhone(t1, phone) == Some(t1[newId]);
  }

  /** `AuthService`: the operations that write the user table. */
  class AuthService {
    const table: UserTable
    const env: Env

    ghost predicate Valid()
      reads this, table
    {
      table.Valid()
    }

    constructor (table: UserTable, env: Env)
      requires table.Valid()
      ensures Valid() && this.table == table && this.env == env
    {
      this.table := table;
      this.env := env;
    }

    method Register(phoneNumber: Option<string>, firstName: string, lastName: string, email: Option<string>,
                    password: string, newId: Id, squareReply: Result<string, string>,
                    smsReply: Result<Verification, string>) returns (r: Result<Registration, AuthError>)
      requires Valid()
      modifies table
      ensures Valid()
      ensures (r, table.users) == RegisterStep(old(table.users), env, phoneNumber, firstName, lastName, email,
                                               password, newId, squareReply, smsReply)
    {
      var formatted := FormatPhoneNumber(phoneNumber, env.parse);
      if formatted.Err? {
        return Err(InvalidPhone(formatted.error));
      }
      var phone := formatted.value;
      if FindByPhone(table.users, phone).Some? {
        return Err(PhoneAlreadyRegistered);
      }
      var mail := Truthy(email);
      if mail.Some? && FindByEmail(table.users, mail.value).Some? {
        return Err(EmailAlreadyRegistered);
      }
      if squareReply.Err? {
        return Err(CustomerApiFailure(squareReply.error));
      }
      var created := table.Create(NewCustomer(newId, phone, firstName, lastName, email, password, squareReply.value));
      if created.Err? {
        return Err(Store(created.error));
      }
      var sent := SendOtp(phoneNumber, env.parse, env.otp, smsReply);
      if sent.Err? {
        return Err(FromOtp(sent.error));
      }
      return Ok(Registration(created.value.id, phone, RegisteredMessage));
    }

    method RegisterAdmin(phoneNumber: Option<string>, firstName: string, lastName: string, email: string,
                         password: string, newId: Id) returns (r: Result<Registration, AuthError>)
      requires Valid()
      modifies table
      ensures Valid()
      ensures (r, table.users) == RegisterAdminStep(old(table.users), env, phoneNumber, firstName, lastName, email,
                                                    password, newId)
    {
      var formatted := FormatPhoneNumber(phoneNumber, env.parse);
      if formatted.Err? {
        return Err(InvalidPhone(formatted.error));
      }
      var phone := formatted.value;
      if FindByPhone(table.users, phone).Some? {
        return Err(PhoneAlreadyRegistered);
      }
      if FindByEmail(table.users, email).Some? {
        return Err(EmailAlreadyRegistered);
      }
      var created := table.Create(NewAdmin(newId, phone, firstName, lastName, email, password));
      if created.Err? {
        return Err(Store(created.error));
      }
      return Ok(Registration(created.value.id, phone, AdminCreatedMessage));
    }

    method VerifyOTP(phoneNumber: Option<string>, code: string, caller: Option<Id>,
                     checkReply: Result<Verification, string>) returns (r: Result<User, AuthError>)
      requires Valid()
      modifies table
      ensures Valid()
      ensures (r, table.users) == VerifyOtpStep(old(table.users), env, phoneNumber, code, caller, checkReply)
    {
      var formatted := FormatPhoneNumber(phoneNumber, env.parse);
      if formatted.Err? {
        return Err(InvalidPhone(formatted.error));
      }
      var phone := formatted.value;
      var check := VerifyOtp(phoneNumber, code, env.parse, env.otp, checkReply);
      if check.Err? {
        return Err(FromOtp(check.error));
      }
      if !check.value.valid {
        return Err(InvalidOtp);
      }
      if caller.Some? {
        var existing := FindByPhone(table.users, phone);
        if existing.Some? && existing.value.id != caller.value {
          return Err(PhoneInUse);
        }
        if caller.value !in table.users {
          return Err(Store(RecordMissing));
        }
        var updated := table.Update(table.users[caller.value].(phoneNumber := phone, isVerified := true));
        assert updated.Ok?;
        return Ok(updated.value);
      } else {
        var found := FindByPhone(table.users, phone);
        if found.None? {
          return Err(UserNotFound);
        }
        var user := found.value;
        if !user.isVerified {
          var updated := table.Update(user.(isVerified := true));
          assert updated.Ok?;
          user := updated.value;
        }
        return Ok(user);
      }
    }

    method UpdateProfile(id: Id, firstName: Option<string>, lastName: Option<string>, email: Option<string>)
      returns (r: Result<User, AuthError>)
      requires Valid()
      modifies table
      ensures Valid()
      ensures (r, table.users) == UpdateProfileStep(old(table.users), id, firstName, lastName, email)
    {
      if Truthy(email).Some? && EmailTakenByOther(table.users, email.value, id) {
        return Err(EmailAlreadyRegistered);
      }
      if id !in table.users {
        return Err(Store(RecordMissing));
      }
      var u := table.users[id];
      var updated := table.Update(u.(firstName := if Truthy(firstName).Some? then firstName.value else u.firstName,
                                     lastName := if Truthy(lastName).Some? then lastName.value else u.lastName,
                                     email := if Truthy(email).Some? then email else u.email));
      assert updated.Ok?;
      return Ok(updated.value);
    }

    method UpdatePassword(id: Id, newPassword: string) returns (r: Result<(), AuthError>)
      requires Valid()
      modifies table
      ensures Valid()
      ensures (r, table.users) == UpdatePasswordStep(old(table.users), id, newPassword)
    {
      if id !in table.users {
        return Err(UserNotFound);
      }
      var updated := table.Update(table.users[id].(password := Some(Hash(newPassword))));
      assert updated.Ok?;
      return Ok(());
    }
  }
}
