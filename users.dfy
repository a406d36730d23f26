/**
 * The user table the identity services share: the `User` record, its
 * uniqueness rules (phone always, e-mail when present, the primary key) and
 * the row operations of the store, which refuse any write that would break them.
 */
module Users {
  import opened Common

  type Id = string

  datatype Role = Customer | Admin

  /** The role as the store and the token claims spell it. */
  function RoleName(r: Role): (name: string)
    ensures name == "CUSTOMER" <==> r == Customer
    ensures name == "ADMIN" <==> r == Admin
  {
    match r
    case Customer => "CUSTOMER"
    case Admin => "ADMIN"
  }

  /** A stored password digest. The hash is one-way in the real system; the salt is left out. */
  datatype PasswordHash = Bcrypt(secret: string)

  function Hash(password: string): PasswordHash {
    Bcrypt(password)
  }

  /** `bcrypt.compare(password, hash)`. */
  predicate Matches(password: string, hash: PasswordHash) {
    hash == Hash(password)
  }

  lemma HashMatchesOnlyItsPassword(p: string, q: string)
    ensures Matches(p, Hash(q)) <==> p == q
  {
    if Matches(p, Hash(q)) {
      assert Hash(p).secret == Hash(q).secret;
    }
  }

  datatype User = User(
    id: Id,
    phoneNumber: string,
    email: Option<string>,
    firstName: string,
    lastName: string,
    password: Option<PasswordHash>,
    role: Role,
    isVerified: bool,
    squareupId: Option<string>)

  type Table = map<Id, User>

  /** The constraints the store enforces on every write. */
  ghost predicate Unique(users: Table) {
    (forall id :: id in users ==> users[id].id == id)
    && (forall a, b :: a in users && b in users && a != b ==> users[a].phoneNumber != users[b].phoneNumber)
    && (forall a, b :: a in users && b in users && a != b && users[a].email.Some? ==> users[a].email != users[b].email)
  }

  predicate PhoneTaken(users: Table, phone: string) {
    exists id :: id in users && users[id].phoneNumber == phone
  }

  predicate EmailTaken(users: Table, email: string) {
    exists id :: id in users && users[id].email == Some(email)
  }

  /** `findFirst({ where: { email, NOT: { id } } })` found something. */
  predicate EmailTakenByOther(users: Table, email: string, id: Id) {
    exists other :: other in users && other != id && users[other].email == Some(email)
  }

  /** The phone belongs to a row other than `id`. */
  predicate PhoneTakenByOther(users: Table, phone: string, id: Id) {
    exists other :: other in users && other != id && users[other].phoneNumber == phone
  }

  /** `findUnique({ where: { phoneNumber } })`. */
  function FindByPhone(users: Table, phone: string): (r: Option<User>)
    requires Unique(users)
    ensures r.Some? <==> PhoneTaken(users, phone)
    ensures r.Some? ==> r.value.id in users && users[r.value.id] == r.value && r.value.phoneNumber == phone
  {
    if PhoneTaken(users, phone) then
      var id :| id in users && users[id].phoneNumber == phone;
      Some(users[id])
    else None
  }

  /** `findUnique({ where: { email } })`. */
  function FindByEmail(users: Table, email: string): (r: Option<User>)
    requires Unique(users)
    ensures r.Some? <==> EmailTaken(users, email)
    ensures r.Some? ==> r.value.id in users && users[r.value.id] == r.value && r.value.email == Some(email)
  {
    if EmailTaken(users, email) then
      var id :| id in users && users[id].email == Some(email);
      Some(users[id])
    else None
  }

  /** Whether `u` could be written as row `u.id` without breaking a uniqueness constraint. */
  predicate Fits(users: Table, u: User) {
    (forall other :: other in users && other != u.id ==> users[other].phoneNumber != u.phoneNumber)
    && (u.email.Some? ==> forall other :: other in users && other != u.id ==> users[other].email != u.email)
  }

  lemma FitsKeepsUnique(users: Table, u: User)
    requires Unique(users) && Fits(users, u)
    ensures Unique(users[u.id := u])
  {
  }

  /** Role and creation facts never change, and verification never goes back. */
  predicate Evolves(before: Table, after: Table) {
    forall id :: id in before ==>
      id in after && after[id].role == before[id].role && (before[id].isVerified ==> after[id].isVerified)
  }

  lemma {:induction false} EvolvesTransitive(a: Table, b: Table, c: Table)
    requires Evolves(a, b) && Evolves(b, c)
    ensures Evolves(a, c)
  {
    forall id | id in a
      ensures id in c && c[id].role == a[id].role && (a[id].isVerified ==> c[id].isVerified)
    {
      assert id in b;
    }
  }

  datatype StoreError =
    | RecordMissing        // an update named a row that does not exist
    | UniqueViolation      // a write would duplicate the id, the phone number or the e-mail

  /** The `user` table of the relational store. */
  class UserTable {
    var users: Table

    ghost predicate Valid()
      reads this
    {
      Unique(users)
    }

    constructor ()
      ensures Valid() && users == map[]
    {
      users := map[];
    }

    /** `prisma.user.create({ data })`, the id coming from the store's generator. */
    method Create(row: User) returns (r: Result<User, StoreError>)
      requires Valid()
      modifies this
      ensures Valid()
      ensures r.Ok? <==> row.id !in old(users) && Fits(old(users), row)
      ensures r.Ok? ==> r.value == row && users == old(users)[row.id := row]
      ensures r.Err? ==> r.error == UniqueViolation && users == old(users)
    {
      if row.id !in users && Fits(users, row) {
        FitsKeepsUnique(users, row);
        users := users[row.id := row];
        r := Ok(row);
      } else {
        r := Err(UniqueViolation);
      }
    }

    /** `prisma.user.update({ where: { id }, data })` with the resulting row given whole. */
    method Update(row: User) returns (r: Result<User, StoreError>)
      requires Valid()
      modifies this
      ensures Valid()
      ensures r.Ok? <==> row.id in old(users) && Fits(old(users), row)
      ensures r.Ok? ==> r.value == row && users == old(users)[row.id := row]
      ensures r.Err? ==> users == old(users)
      ensures r.Err? ==> (r.error == RecordMissing <==> row.id !in old(users))
    {
      if row.id !in users {
        r := Err(RecordMissing);
      } else if Fits(users, row) {
        FitsKeepsUnique(users, row);
        users := users[row.id := row];
        r := Ok(row);
      } else {
        r := Err(UniqueViolation);
      }
    }
  }
}
