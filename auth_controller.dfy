/**
 * Registration, login, logout and the current user, over the users table and
 * the personal access token table. Password hashing is outside the model:
 * `Hash::make` arrives as its result and `Hash::check` as a predicate parameter.
 * Laravel's `email` rule is the parameter `isEmail`.
 */
module AuthController {
  import opened Common
  import opened Database
  import Query

  datatype RegisterInput = RegisterInput(
    name: Option<string>,
    email: Option<string>,
    password: Option<string>,
    role: Option<string>)    // accepted in the request body and ignored

  datatype Session = Session(user: User, token: Id)

  predicate EmailTaken(users: map<Id, User>, email: string) {
    exists k :: k in users && users[k].email == email
  }

  /** `required|email|max:150`. */
  predicate EmailField(email: Option<string>, isEmail: string -> bool) {
    RequiredLength(email, 1, 150) && isEmail(email.value)
  }

  /** The fields `register` rejects. */
  function RegisterErrors(users: map<Id, User>, input: RegisterInput, isEmail: string -> bool): (errs: set<string>)
    ensures errs <= {"name", "email", "password"}
    ensures "name" !in errs <==> RequiredLength(input.name, 2, 100)
    ensures "email" !in errs <==> EmailField(input.email, isEmail) && !EmailTaken(users, input.email.value)
    ensures "password" !in errs <==> RequiredRaw(input.password, 255)
  {
    (if RequiredLength(input.name, 2, 100) then {} else {"name"})
    + (if EmailField(input.email, isEmail) && !EmailTaken(users, input.email.value) then {} else {"email"})
    + (if RequiredRaw(input.password, 255) then {} else {"password"})
  }

  /** The fields `login` rejects. */
  function LoginErrors(email: Option<string>, password: Option<string>, isEmail: string -> bool): (errs: set<string>)
    ensures errs <= {"email", "password"}
    ensures "email" !in errs <==> EmailField(email, isEmail)
    ensures "password" !in errs <==> RequiredRaw(password, 255)
  {
    (if EmailField(email, isEmail) then {} else {"email"})
    + (if RequiredRaw(password, 255) then {} else {"password"})
  }

  /** A password made only of characters `trim` removes is rejected by both forms: the
      input middleware does not trim passwords, and `required` fails on them. */
  lemma BlankPasswordRejected(users: map<Id, User>, input: RegisterInput, isEmail: string -> bool)
    requires input.password.Some?
    requires forall i :: 0 <= i < |input.password.value| ==> IsTrimmed(input.password.value[i])
    ensures "password" in RegisterErrors(users, input, isEmail)
    ensures "password" in LoginErrors(input.email, input.password, isEmail)
  {
  }

  /** `User::where('email', $email)->first()`. */
  function FindByEmail(users: map<Id, User>, email: string, bound: nat): (found: Option<User>)
    requires UsersKeyed(users, bound)
    ensures found.Some? <==> EmailTaken(users, email)
    ensures found.Some? ==> found.value.id in users && users[found.value.id] == found.value
                            && found.value.email == email
  {
    var ids := Query.KeysDesc(users, (u: User) => u.email == email, bound);
    if ids == [] then
      assert !EmailTaken(users, email) by {
        forall k | k in users ensures users[k].email != email {
          assert k !in ids;
        }
      }
      None
    else
      assert ids[|ids| - 1] in ids;
      Some(users[ids[|ids| - 1]])
  }

  /** `register`: the new account is always a developer, whatever role the request names. */
  method Register(s: Store, input: RegisterInput, isEmail: string -> bool, passwordHash: string)
    returns (r: Reply<Session>)
    requires s.Valid()
    modifies s`users, s`nextUser, s`tokens, s`nextToken
    ensures s.Valid()
    ensures RegisterErrors(old(s.users), input, isEmail) != {} ==>
      r == Err(Invalid(RegisterErrors(old(s.users), input, isEmail))) && unchanged(s)
    ensures RegisterErrors(old(s.users), input, isEmail) == {} ==>
      && r.Ok? && r.code == 201
      && r.data.user == User(old(s.nextUser), input.name.value, input.email.value, Developer, passwordHash)
      && r.data.user.id !in old(s.users)
      && s.users == old(s.users)[r.data.user.id := r.data.user]
      && r.data.token !in old(s.tokens)
      && s.tokens == old(s.tokens)[r.data.token := r.data.user.id]
  {
    var errs := RegisterErrors(s.users, input, isEmail);
    if errs != {} {
      return Err(Invalid(errs));
    }
    var user := User(s.nextUser, input.name.value, input.email.value, Developer, passwordHash);
    s.users := s.users[user.id := user];
    s.nextUser := s.nextUser + 1;
    var token := s.IssueToken(user.id);
    r := Ok(201, Session(user, token));
  }

  /** `login`: an unknown email and a wrong password give the same answer. */
  method Login(s: Store, email: Option<string>, password: Option<string>,
               isEmail: string -> bool, hashCheck: (string, string) -> bool)
    returns (r: Reply<Session>)
    requires s.Valid()
    modifies s`tokens, s`nextToken
    ensures s.Valid()
    ensures LoginErrors(email, password, isEmail) != {} ==>
      r == Err(Invalid(LoginErrors(email, password, isEmail))) && unchanged(s)
    ensures LoginErrors(email, password, isEmail) == {} && !EmailTaken(old(s.users), email.value) ==>
      r == Err(BadCredentials) && unchanged(s)
    ensures LoginErrors(email, password, isEmail) == {} ==>
      forall k :: k in old(s.users) && old(s.users)[k].email == email.value ==>
        if hashCheck(password.value, old(s.users)[k].password) then
          && r.Ok? && r.code == 200 && r.data.user == old(s.users)[k]
          && r.data.token !in old(s.tokens)
          && s.tokens == old(s.tokens)[r.data.token := k]
        else
          r == Err(BadCredentials) && unchanged(s)
  {
    var errs := LoginErrors(email, password, isEmail);
    if errs != {} {
      return Err(Invalid(errs));
    }
    var found := FindByEmail(s.users, email.value, s.nextUser);
    if found.None? || !hashCheck(password.value, found.value.password) {
      return Err(BadCredentials);
    }
    var user := found.value;
    var token := s.IssueToken(user.id);
    r := Ok(200, Session(user, token));
  }

  /** `logout`: deletes the presented token and no other. */
  method Logout(s: Store, token: Id) returns (r: Reply<()>)
    requires s.Valid()
    modifies s`tokens
    ensures s.Valid()
    ensures r == Ok(200, ())
    ensures s.tokens == old(s.tokens) - {token}
  {
    s.tokens := s.tokens - {token};
    r := Ok(200, ());
  }

  /** Sanctum's guard: the bearer token must be in the token table. */
  function Authenticate(users: map<Id, User>, tokens: map<Id, Id>, bearer: Option<Id>): Reply<User> {
    if bearer.Some? && bearer.value in tokens && tokens[bearer.value] in users then
      Ok(200, users[tokens[bearer.value]])
    else
      Err(Unauthenticated)
  }

  /** `me`: the user the token resolves to. */
  function Me(users: map<Id, User>, tokens: map<Id, Id>, bearer: Option<Id>): (r: Reply<User>)
    ensures r.Ok? <==> bearer.Some? && bearer.value in tokens && tokens[bearer.value] in users
    ensures r.Ok? ==> r.code == 200 && r.data == users[tokens[bearer.value]]
    ensures r.Err? ==> r.error == Unauthenticated
  {
    Authenticate(users, tokens, bearer)
  }

  /** After `logout` the presented token no longer authenticates, and every other token
      resolves to the same user as before. */
  lemma LogoutRevokesOnlyPresentedToken(users: map<Id, User>, tokens: map<Id, Id>, token: Id, other: Id)
    ensures Me(users, tokens - {token}, Some(token)) == Err(Unauthenticated)
    ensures other != token ==> Me(users, tokens - {token}, Some(other)) == Me(users, tokens, Some(other))
  {
  }

  /** Issuing a token for a login keeps every earlier token valid. */
  lemma NewTokenKeepsEarlierSessions(users: map<Id, User>, tokens: map<Id, Id>, issued: Id, userId: Id, other: Id)
    requires issued !in tokens && userId in users
    ensures Me(users, tokens[issued := userId], Some(issued)) == Ok(200, users[userId])
    ensures other in tokens ==> Me(users, tokens[issued := userId], Some(other)) == Me(users, tokens, Some(other))
  {
  }
}
