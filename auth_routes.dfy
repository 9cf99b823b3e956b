/**
 * The decision logic of POST /register, POST /login, POST /refresh and
 * GET /verify over an abstract user store: a map from email to user record.
 * Password hashing, password matching and token signing are cryptographic
 * calls; they are uninterpreted functions handed to the store when it is made.
 */
module AuthRoutes {
  import opened Wrappers
  import opened Api

  /** A stored user; `password` holds whatever the model's save hook stored (a hash). */
  datatype User = User(id: UserId, email: string, password: string)

  /** Every user is filed under its own email, and no two users share an id. */
  predicate WellFormed(users: map<string, User>)
  {
    && (forall e :: e in users ==> users[e].email == e)
    && (forall e1, e2 :: e1 in users && e2 in users && e1 != e2 ==> users[e1].id != users[e2].id)
  }

  predicate IdInUse(users: map<string, User>, id: UserId)
  {
    exists e :: e in users && users[e].id == id
  }

  class UserStore {
    var users: map<string, User>
    /** The hashing applied before a new user is saved. */
    const hashPassword: string -> string
    /** `user.matchPassword(candidate)`. */
    const matchPassword: (User, string) -> bool
    /** `generateToken(id)`: a signed token carrying the id, valid for 24 hours. */
    const generateToken: UserId -> string

    ghost predicate Valid()
      reads this
    {
      WellFormed(users)
    }

    constructor (initial: map<string, User>, hash: string -> string,
                 matches: (User, string) -> bool, sign: UserId -> string)
      requires WellFormed(initial)
      ensures Valid()
      ensures users == initial && hashPassword == hash && matchPassword == matches && generateToken == sign
    {
      users := initial;
      hashPassword := hash;
      matchPassword := matches;
      generateToken := sign;
    }

    /**
     * POST /register: both fields are required, the email must be new (exact
     * match); a success stores one user and hands out no token. `newId` is the
     * id the database assigns.
     */
    method Register(email: Option<string>, password: Option<string>, newId: UserId)
      returns (r: Response<string>)
      requires Valid()
      requires !IdInUse(users, newId)
      modifies this
      ensures Valid()
      ensures !Truthy(email) || !Truthy(password) ==>
                r == Failure(BadRequest, "Email and password are required") && users == old(users)
      ensures Truthy(email) && Truthy(password) && email.value in old(users) ==>
                r == Failure(BadRequest, "User already exists") && users == old(users)
      ensures Truthy(email) && Truthy(password) && email.value !in old(users) ==>
                && r == Success(Created, "User registered successfully")
                && users == old(users)[email.value := User(newId, email.value, hashPassword(password.value))]
    {
      if !Truthy(email) || !Truthy(password) {
        return Failure(BadRequest, "Email and password are required");
      }
      if email.value in users {
        return Failure(BadRequest, "User already exists");
      }
      users := users[email.value := User(newId, email.value, hashPassword(password.value))];
      r := Success(Created, "User registered successfully");
    }

    /**
     * POST /login: both fields are required; an unknown email and a wrong
     * password get the same 401; a success carries a token for the user's id
     * and the user's id and email only.
     */
    method Login(email: Option<string>, password: Option<string>) returns (r: Response<Session>)
      requires Valid()
      ensures !Truthy(email) || !Truthy(password) ==>
                r == Failure(BadRequest, "Email and password are required")
      ensures Truthy(email) && Truthy(password) ==>
                (r == Failure(Unauthorized, "Invalid credentials") <==>
                 email.value !in users || !matchPassword(users[email.value], password.value))
      ensures Truthy(email) && Truthy(password) && email.value in users
              && matchPassword(users[email.value], password.value) ==>
                var u := users[email.value];
                r == Success(OK, Session(generateToken(u.id), PublicUser(u.id, email.value)))
    {
      if !Truthy(email) || !Truthy(password) {
        return Failure(BadRequest, "Email and password are required");
      }
      if email.value !in users || !matchPassword(users[email.value], password.value) {
        return Failure(Unauthorized, "Invalid credentials");
      }
      var user := users[email.value];
      var token := generateToken(user.id);
      r := Success(OK, Session(token, PublicUser(user.id, user.email)));
    }

    /** POST /refresh: 404 when the authenticated id is gone, else a new token for that id. */
    method Refresh(callerId: UserId) returns (r: Response<Session>)
      requires Valid()
      ensures !IdInUse(users, callerId) ==> r == Failure(NotFound, "User not found")
      ensures forall e :: e in users && users[e].id == callerId ==>
                r == Success(OK, Session(generateToken(callerId), PublicUser(callerId, e)))
    {
      if e :| e in users && users[e].id == callerId {
        var user := users[e];
        var token := generateToken(user.id);
        r := Success(OK, Session(token, PublicUser(user.id, user.email)));
      } else {
        r := Failure(NotFound, "User not found");
      }
    }

    /** GET /verify: 404 when the authenticated id is gone, else that user's id and email. */
    method Verify(callerId: UserId) returns (r: Response<PublicUser>)
      requires Valid()
      ensures !IdInUse(users, callerId) ==> r == Failure(NotFound, "User not found")
      ensures forall e :: e in users && users[e].id == callerId ==>
                r == Success(OK, PublicUser(callerId, e))
    {
      if e :| e in users && users[e].id == callerId {
        var user := users[e];
        r := Success(OK, PublicUser(user.id, user.email));
      } else {
        r := Failure(NotFound, "User not found");
      }
    }
  }

  /** Registering the same email twice: the first call succeeds, the second is refused. */
  method RegisterTwice(store: UserStore, email: string, password: string, id1: UserId, id2: UserId)
    returns (first: Response<string>, second: Response<string>)
    requires store.Valid() && email != "" && password != ""
    requires email !in store.users && !IdInUse(store.users, id1) && !IdInUse(store.users, id2) && id1 != id2
    modifies store
    ensures first == Success(Created, "User registered successfully")
    ensures second == Failure(BadRequest, "User already exists")
    ensures store.users == old(store.users)[email := User(id1, email, store.hashPassword(password))]
  {
    first := store.Register(Some(email), Some(password), id1);
    assert !IdInUse(store.users, id2);
    second := store.Register(Some(email), Some(password), id2);
  }
}
