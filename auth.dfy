/**
 * The authentication service: password check, login token and sign-up.
 * bcrypt and the JWT signer are inputs: `compare(plain, stored)` is
 * `bcrypt.compare`, `hash(plain)` the hash `bcrypt.hash` produces on this
 * call, and `sign(payload)` the token `jwtService.sign` produces.
 */
module Auth {
  import opened Common
  import opened Users

  /** The sign-up body once it has been validated. */
  datatype SignUpInput = SignUpInput(email: string, password: string, confirmPassword: string, profile: Profile)

  /** The claims of the login token: `{ email, sub }`. */
  datatype TokenPayload = TokenPayload(email: string, sub: string)

  datatype LoginResult = LoginResult(access_token: string)

  /**
   * `validateUser(email, password)`: the user with that address, without its
   * password, when the password matches the stored hash; null otherwise.
   */
  function ValidateUser(users: seq<User>, email: string, password: string,
                        compare: (string, string) -> bool): (r: Option<PublicUser>)
    ensures (forall j :: 0 <= j < |users| ==> users[j].email != email) ==> r == None
    ensures r.Some? ==> exists j :: 0 <= j < |users| && users[j].email == email
                          && compare(password, users[j].password)
                          && r.value == WithoutPassword(users[j])
  {
    match LookupEmail(users, email)
    case None => None
    case Some(user) =>
      if compare(password, user.password) then Some(WithoutPassword(user)) else None
  }

  /**
   * Over a table whose addresses are unique, `validateUser` succeeds exactly
   * when the password matches the hash stored for that address, and then
   * gives that row without its password.
   */
  lemma ValidateUserExact(users: seq<User>, email: string, password: string,
                          compare: (string, string) -> bool, j: nat)
    requires UniqueEmails(users)
    requires j < |users| && users[j].email == email
    ensures ValidateUser(users, email, password, compare) ==
            if compare(password, users[j].password) then Some(WithoutPassword(users[j])) else None
  {
    var i := IndexOf(users, ByEmail, email).value;
    assert !(i < j) && !(j < i);
  }

  /** `login(user)`: a token signed over `{ email: user.email, sub: user.id }`. */
  function Login(user: PublicUser, sign: TokenPayload -> string): (r: LoginResult)
    ensures r.access_token == sign(TokenPayload(user.email, user.id))
  {
    LoginResult(sign(TokenPayload(user.email, user.id)))
  }

  /**
   * `signUp(dto)`: rejects an address that is already registered before it
   * creates anything; otherwise stores the hash of the password (never the
   * password itself), without `confirmPassword`, and returns the new user
   * without its password.
   */
  method SignUp(table: UserTable, dto: SignUpInput, hash: string -> string, id: string)
    returns (r: Result<PublicUser>)
    requires table.Valid()
    requires forall j :: 0 <= j < |table.rows| ==> table.rows[j].id != id
    modifies table
    ensures table.Valid()
    ensures old(table.FindByEmail(dto.email)).Some? ==>
              r == Err(Conflict("User with this email already exists")) && table.rows == old(table.rows)
    ensures old(table.FindByEmail(dto.email)).None? ==>
              var stored := User(id, dto.email, hash(dto.password), dto.profile);
              table.rows == old(table.rows) + [stored] && r == Ok(WithoutPassword(stored))
  {
    var existing := table.FindByEmail(dto.email);
    if existing.Some? {
      return Err(Conflict("User with this email already exists"));
    }
    var hashed := hash(dto.password);
    var userData := NewUser(dto.email, hashed, dto.profile);
    var created := table.Create(userData, id);
    match created
    case Ok(user) =>
      r := Ok(WithoutPassword(user));
    case Err(e) =>
      // The address was just checked, so the unique constraint cannot fire.
      assert false;
      r := Err(e);
  }
}
