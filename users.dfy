/**
 * The user table and the operations of the users service over it. The
 * database is a sequence of rows in insertion order; the identifier a new row
 * receives is an input, which the database guarantees to be unused.
 */
module Users {
  import opened Common

  /** The profile attributes a user states at sign-up. */
  datatype Profile = Profile(
    name: string,
    age: Option<real>,
    sex: string,
    pregnancy: Option<bool>,
    height: Option<real>,
    weight: Option<real>,
    contact: Option<real>,
    blood: Option<string>,
    allergies: Option<string>,
    medCond: Option<string>,
    meds: Option<string>)

  /** A row of the user table. `password` holds whatever was stored, normally a bcrypt hash. */
  datatype User = User(id: string, email: string, password: string, profile: Profile)

  /** A user record with its `password` field removed. */
  datatype PublicUser = PublicUser(id: string, email: string, profile: Profile)

  /** The data `create` receives. */
  datatype NewUser = NewUser(email: string, password: string, profile: Profile)

  /** The data `update` receives; `None` is a field the caller did not supply. */
  datatype UserPatch = UserPatch(
    name: Option<string>,
    age: Option<real>,
    sex: Option<string>,
    pregnancy: Option<bool>,
    height: Option<real>,
    weight: Option<real>,
    contact: Option<real>,
    blood: Option<string>,
    allergies: Option<string>,
    medCond: Option<string>,
    meds: Option<string>,
    email: Option<string>,
    password: Option<string>)

  function WithPassword(p: PublicUser, password: string): User {
    User(p.id, p.email, password, p.profile)
  }

  /** `const { password, ...result } = user`: every field but the password. */
  function WithoutPassword(u: User): (p: PublicUser)
    ensures WithPassword(p, u.password) == u
  {
    PublicUser(u.id, u.email, u.profile)
  }

  /** The two unique columns of the user table. */
  datatype UserKey = ById | ByEmail

  function KeyOf(u: User, key: UserKey): string {
    if key == ById then u.id else u.email
  }

  /** The position of the row whose `key` column holds `value`: the first one, when there is one. */
  function IndexOf(users: seq<User>, key: UserKey, value: string): (r: Option<nat>)
    ensures r.Some? ==> r.value < |users| && KeyOf(users[r.value], key) == value
    ensures r.Some? ==> forall j :: 0 <= j < r.value ==> KeyOf(users[j], key) != value
    ensures r.None? <==> forall j :: 0 <= j < |users| ==> KeyOf(users[j], key) != value
  {
    if |users| == 0 then None
    else if KeyOf(users[0], key) == value then Some(0)
    else match IndexOf(users[1..], key, value)
      case None => None
      case Some(k) => Some(k + 1)
  }

  /** `findUnique({ where: { id } })` over a table given as a sequence. */
  function LookupId(users: seq<User>, id: string): (r: Option<User>)
    ensures r.Some? <==> exists j :: 0 <= j < |users| && users[j].id == id
    ensures r.Some? ==> r.value in users && r.value.id == id
  {
    match IndexOf(users, ById, id)
    case None => None
    case Some(i) => Some(users[i])
  }

  /** `findUnique({ where: { email } })` over a table given as a sequence. */
  function LookupEmail(users: seq<User>, email: string): (r: Option<User>)
    ensures r.Some? <==> exists j :: 0 <= j < |users| && users[j].email == email
    ensures r.Some? ==> r.value in users && r.value.email == email
  {
    match IndexOf(users, ByEmail, email)
    case None => None
    case Some(i) => Some(users[i])
  }

  ghost predicate UniqueIds(users: seq<User>) {
    forall i, j :: 0 <= i < j < |users| ==> users[i].id != users[j].id
  }

  ghost predicate UniqueEmails(users: seq<User>) {
    forall i, j :: 0 <= i < j < |users| ==> users[i].email != users[j].email
  }

  /** With unique identifiers, the row found is the only row with that identifier. */
  lemma LookupIdUnique(users: seq<User>, id: string, j: nat)
    requires UniqueIds(users)
    requires j < |users| && users[j].id == id
    ensures LookupId(users, id) == Some(users[j])
  {
    var i := IndexOf(users, ById, id).value;
    assert !(i < j) && !(j < i);
  }

  /** Whether a user other than `id` already has address `email`. */
  predicate EmailTakenByOther(users: seq<User>, email: string, id: string) {
    exists j :: 0 <= j < |users| && users[j].email == email && users[j].id != id
  }

  /**
   * `if (data.password) data.password = await bcrypt.hash(data.password, 10)`:
   * only a non-empty password is replaced by its hash; `hash` is the bcrypt
   * result of this call.
   */
  function HashPasswordIfSet(patch: UserPatch, hash: string -> string): (r: UserPatch)
    ensures patch.password.Some? && patch.password.value != "" ==>
              r.password == Some(hash(patch.password.value))
    ensures patch.password == None || patch.password == Some("") ==> r == patch
    ensures r == patch.(password := r.password)
  {
    if patch.password.Some? && patch.password.value != "" then
      patch.(password := Some(hash(patch.password.value)))
    else patch
  }

  function Pick<T>(supplied: Option<T>, current: T): T {
    if supplied.Some? then supplied.value else current
  }

  function PickOptional<T>(supplied: Option<T>, current: Option<T>): Option<T> {
    if supplied.Some? then supplied else current
  }

  /** The row after `prisma.user.update({ data })`: the supplied fields replaced, the rest kept. */
  function ApplyPatch(u: User, p: UserPatch): (r: User)
    ensures r.id == u.id
    ensures r.email == (if p.email.Some? then p.email.value else u.email)
    ensures r.password == (if p.password.Some? then p.password.value else u.password)
    ensures r.profile.name == (if p.name.Some? then p.name.value else u.profile.name)
    ensures r.profile.sex == (if p.sex.Some? then p.sex.value else u.profile.sex)
    ensures r.profile.age == (if p.age.Some? then p.age else u.profile.age)
    ensures r.profile.pregnancy == (if p.pregnancy.Some? then p.pregnancy else u.profile.pregnancy)
    ensures r.profile.height == (if p.height.Some? then p.height else u.profile.height)
    ensures r.profile.weight == (if p.weight.Some? then p.weight else u.profile.weight)
    ensures r.profile.contact == (if p.contact.Some? then p.contact else u.profile.contact)
    ensures r.profile.blood == (if p.blood.Some? then p.blood else u.profile.blood)
    ensures r.profile.allergies == (if p.allergies.Some? then p.allergies else u.profile.allergies)
    ensures r.profile.medCond == (if p.medCond.Some? then p.medCond else u.profile.medCond)
    ensures r.profile.meds == (if p.meds.Some? then p.meds else u.profile.meds)
  {
    User(u.id, Pick(p.email, u.email), Pick(p.password, u.password),
      Profile(
        Pick(p.name, u.profile.name),
        PickOptional(p.age, u.profile.age),
        Pick(p.sex, u.profile.sex),
        PickOptional(p.pregnancy, u.profile.pregnancy),
        PickOptional(p.height, u.profile.height),
        PickOptional(p.weight, u.profile.weight),
        PickOptional(p.contact, u.profile.contact),
        PickOptional(p.blood, u.profile.blood),
        PickOptional(p.allergies, u.profile.allergies),
        PickOptional(p.medCond, u.profile.medCond),
        PickOptional(p.meds, u.profile.meds)))
  }

  const NoChange := UserPatch(None, None, None, None, None, None, None, None, None, None, None, None, None)

  /** An update that supplies nothing leaves the row as it was. */
  lemma ApplyEmptyPatch(u: User)
    ensures ApplyPatch(u, NoChange) == u
  {
  }

  /** Applying the same update twice is the same as applying it once. */
  lemma ApplyPatchIdempotent(u: User, p: UserPatch)
    ensures ApplyPatch(ApplyPatch(u, p), p) == ApplyPatch(u, p)
  {
  }

  /** Deleting the row at position `i` keeps every other row and the unique constraints. */
  lemma RemoveAtFacts(users: seq<User>, i: nat)
    requires i < |users| && UniqueIds(users) && UniqueEmails(users)
    ensures var rest := users[..i] + users[i + 1..];
      UniqueIds(rest) && UniqueEmails(rest)
      && (forall u :: u in users && u.id != users[i].id ==> u in rest)
      && (forall u :: u in rest ==> u in users && u.id != users[i].id)
  {
    var rest := users[..i] + users[i + 1..];
    assert forall k :: 0 <= k < |rest| ==> rest[k] == users[if k < i then k else k + 1];
    forall u | u in users && u.id != users[i].id ensures u in rest {
      var k :| 0 <= k < |users| && users[k] == u;
      assert rest[if k < i then k else k - 1] == u;
    }
  }

  class UserTable {
    var rows: seq<User>

    /** The table's unique constraints: on `id` and on `email`. */
    ghost predicate Valid()
      reads this
    {
      UniqueIds(rows) && UniqueEmails(rows)
    }

    constructor ()
      ensures Valid() && rows == []
    {
      rows := [];
    }

    /** `findAll`; `reachable` says whether the database answered. */
    function FindAll(reachable: bool): (r: Result<seq<User>>)
      reads this
      ensures reachable ==> r == Ok(rows)
      ensures !reachable ==> r == Err(PlainError("Failed to retrieve users"))
    {
      if reachable then Ok(rows) else Err(PlainError("Failed to retrieve users"))
    }

    /** `findOne(id)`: the user with that identifier, or null. */
    function FindOne(id: string): (r: Option<User>)
      reads this
      ensures r.Some? <==> exists j :: 0 <= j < |rows| && rows[j].id == id
      ensures r.Some? ==> r.value in rows && r.value.id == id
    {
      LookupId(rows, id)
    }

    /** `findByEmail(email)`: the user with that address, or null. */
    function FindByEmail(email: string): (r: Option<User>)
      reads this
      ensures r.Some? <==> exists j :: 0 <= j < |rows| && rows[j].email == email
      ensures r.Some? ==> r.value in rows && r.value.email == email
    {
      LookupEmail(rows, email)
    }

    /**
     * `create(data)`: stores the data exactly as given, password included
     * (it does not hash). The unique constraint on `email` rejects a second
     * row with the same address.
     */
    method Create(data: NewUser, id: string) returns (r: Result<User>)
      requires Valid()
      requires forall j :: 0 <= j < |rows| ==> rows[j].id != id
      modifies this
      ensures Valid()
      ensures old(LookupEmail(rows, data.email)).Some? ==>
                r == Err(StoreError("P2002", "Unique constraint failed on the fields: (`email`)"))
                && rows == old(rows)
      ensures old(LookupEmail(rows, data.email)).None? ==>
                r == Ok(User(id, data.email, data.password, data.profile))
                && rows == old(rows) + [r.value]
    {
      if LookupEmail(rows, data.email).Some? {
        return Err(StoreError("P2002", "Unique constraint failed on the fields: (`email`)"));
      }
      var user := User(id, data.email, data.password, data.profile);
      rows := rows + [user];
      r := Ok(user);
    }

    /**
     * `update(id, data)`: hashes a non-empty password first, then replaces
     * the supplied fields of the one row with that identifier.
     */
    method Update(id: string, patch: UserPatch, hash: string -> string) returns (r: Result<User>)
      requires Valid()
      modifies this
      ensures Valid()
      ensures old(IndexOf(rows, ById, id)).None? ==>
                r == Err(StoreError("P2025", "Record to update not found.")) && rows == old(rows)
      ensures old(IndexOf(rows, ById, id)).Some? ==>
                var i := old(IndexOf(rows, ById, id)).value;
                var p := HashPasswordIfSet(patch, hash);
                if p.email.Some? && old(EmailTakenByOther(rows, p.email.value, id)) then
                  r == Err(StoreError("P2002", "Unique constraint failed on the fields: (`email`)"))
                  && rows == old(rows)
                else
                  r == Ok(ApplyPatch(old(rows)[i], p)) && rows == old(rows)[i := r.value]
    {
      var p := HashPasswordIfSet(patch, hash);
      var found := IndexOf(rows, ById, id);
      if found.None? {
        return Err(StoreError("P2025", "Record to update not found."));
      }
      var i := found.value;
      if p.email.Some? && EmailTakenByOther(rows, p.email.value, id) {
        return Err(StoreError("P2002", "Unique constraint failed on the fields: (`email`)"));
      }
      var updated := ApplyPatch(rows[i], p);
      ghost var before := rows;
      rows := rows[i := updated];
      forall a, b | 0 <= a < b < |rows| ensures rows[a].email != rows[b].email {
        if a != i && b != i {
          assert rows[a] == before[a] && rows[b] == before[b];
        } else if p.email.None? {
          assert updated.email == before[i].email;
        } else {
          var other := if a == i then b else a;
          assert before[other].id != id;
        }
      }
      r := Ok(updated);
    }

    /** `remove(id)`: deletes exactly the row with that identifier. */
    method Remove(id: string) returns (r: Result<User>)
      requires Valid()
      modifies this
      ensures Valid()
      ensures old(IndexOf(rows, ById, id)).None? ==>
                r == Err(StoreError("P2025", "Record to delete does not exist.")) && rows == old(rows)
      ensures old(IndexOf(rows, ById, id)).Some? ==>
                var i := old(IndexOf(rows, ById, id)).value;
                r == Ok(old(rows)[i]) && rows == old(rows)[..i] + old(rows)[i + 1..]
      ensures forall u :: u in old(rows) && u.id != id ==> u in rows
      ensures forall u :: u in rows ==> u in old(rows) && u.id != id
    {
      var found := IndexOf(rows, ById, id);
      if found.None? {
        return Err(StoreError("P2025", "Record to delete does not exist."));
      }
      var i := found.value;
      RemoveAtFacts(rows, i);
      r := Ok(rows[i]);
      rows := rows[..i] + rows[i + 1..];
    }
  }
}
