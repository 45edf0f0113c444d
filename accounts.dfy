/**
 * Sign-up and log-in of src/modules/auth/auth.controller.ts.
 *
 * The user table is the map `users` of a `UserTable`, keyed by e-mail (the
 * store keeps e-mails unique); sign-up also writes the cart table of a
 * `Carts.CartStore`. The libraries behind src/utils/auth.ts are parameters:
 * `hash(password, salt)` is bcrypt's hash with the salt it draws at random,
 * `compare(password, digest)` is bcrypt's check, and `sign(claims, secret)`
 * is `jwt.sign` with its one-day expiry. The JWT secret is an explicit
 * optional parameter.
 */
module Accounts {
  import opened Wrappers
  import opened Http
  import opened Middleware
  import Carts

  /** One row of the user table (its e-mail is the key of the table). */
  datatype User = User(id: Id, name: string, password: string, role: string)

  /** The payload `createJWT` signs. */
  datatype Claims = Claims(id: Id, email: string, role: string)

  const USER_EXISTS := "User already exists"
  const SIGNUP_FAILED := "Server error during signup"
  const INVALID_CREDENTIALS := "Invalid credentials"
  const LOGIN_FAILED := "Server error during login"

  /**
   * `createJWT`: a token over the user's id, e-mail and role; None where it
   * throws because the secret is unset or empty.
   */
  function CreateJwt(email: string, user: User, secret: Option<string>,
                     sign: (Claims, string) -> string): (token: Option<string>)
    ensures token.Some? <==> Truthy(secret)
    ensures token.Some? ==> token.value == sign(Claims(user.id, email, user.role), secret.value)
  {
    if !Truthy(secret) then None else Some(sign(Claims(user.id, email, user.role), secret.value))
  }

  class UserTable {
    /** The user table, by e-mail. */
    var users: map<string, User>
    /** The next id the data store hands out. */
    var nextId: Id

    ghost predicate Valid()
      reads this
    {
      && (forall e :: e in users ==> users[e].id < nextId)
      && (forall e, f :: e in users && f in users && users[e].id == users[f].id ==> e == f)
    }

    /** Every cart of `store` belongs to a user of this table. */
    ghost predicate CartsOwned(store: Carts.CartStore)
      reads this, store
    {
      forall u :: u in store.carts ==> exists e :: e in users && users[e].id == u
    }

    constructor ()
      ensures Valid() && users == map[]
    {
      users := map[];
      nextId := 0;
    }

    /**
     * `signup`. A taken e-mail gets 400 and nothing is written. Otherwise
     * exactly one user is inserted, under a fresh id, whose stored password
     * is the hash of the given one; then exactly one cart is created for that
     * user, and the reply is 201 with a token for the new user. When the JWT
     * secret is missing or empty, `createJWT` throws after both writes: the user and
     * the cart stay and the reply is 500.
     */
    method Signup(email: string, name: string, password: string, store: Carts.CartStore,
                  hash: (string, string) -> string, salt: string,
                  secret: Option<string>, sign: (Claims, string) -> string)
      returns (r: Reply<string>)
      requires Valid() && store.Valid() && CartsOwned(store)
      modifies this, store
      ensures Valid() && store.Valid() && CartsOwned(store)
      ensures store.items == old(store.items)
      ensures email in old(users) ==>
                && r == Message(400, USER_EXISTS)
                && users == old(users) && nextId == old(nextId) && store.carts == old(store.carts)
      ensures email !in old(users) ==>
                var user := User(old(nextId), name, hash(password, salt), USER);
                && users == old(users)[email := user]
                && (forall e :: e in old(users) ==> old(users)[e].id != user.id)
                && user.id !in old(store.carts)
                && store.carts == old(store.carts)[user.id := old(store.nextCartId)]
                && r == (if Truthy(secret) then Data(201, sign(Claims(user.id, email, USER), secret.value))
                         else Message(500, SIGNUP_FAILED))
    {
      if email in users {
        return Message(400, USER_EXISTS);
      }
      var user := User(nextId, name, hash(password, salt), USER);
      ghost var before := users;
      users := users[email := user];
      nextId := nextId + 1;
      assert user.id !in store.carts;
      var cartId := store.CreateCart(user.id);
      forall u | u in store.carts ensures exists e :: e in users && users[e].id == u {
        if u == user.id {
          assert users[email].id == u;
        } else {
          var e :| e in before && before[e].id == u;
          assert users[e].id == u;
        }
      }
      var token := CreateJwt(email, user, secret, sign);
      if token.None? {
        return Message(500, SIGNUP_FAILED);
      }
      r := Data(201, token.value);
    }

    /**
     * `login`: 200 with a token exactly when the e-mail is known, the
     * password matches the stored hash and the secret is non-empty. An unknown
     * e-mail and a wrong password get the same 401 reply. Being a function,
     * it writes nothing.
     */
    function Login(email: string, password: string, compare: (string, string) -> bool,
                   secret: Option<string>, sign: (Claims, string) -> string): (r: Reply<string>)
      reads this
      ensures r.Data? <==> email in users && compare(password, users[email].password) && Truthy(secret)
      ensures r.Data? ==> r == Data(200, sign(Claims(users[email].id, email, users[email].role), secret.value))
      ensures email !in users || !compare(password, users[email].password) ==> r == Message(401, INVALID_CREDENTIALS)
      ensures email in users && compare(password, users[email].password) && !Truthy(secret) ==>
                r == Message(500, LOGIN_FAILED)
    {
      if email !in users then Message(401, INVALID_CREDENTIALS)
      else
        var user := users[email];
        if !compare(password, user.password) then Message(401, INVALID_CREDENTIALS)
        else match CreateJwt(email, user, secret, sign)
          case None => Message(500, LOGIN_FAILED)
          case Some(token) => Data(200, token)
    }
  }

  /**
   * The account `signup` stores can log in with the password it was created
   * with, provided bcrypt accepts a password against its own hash.
   */
  lemma SignedUpUserCanLogIn(t: UserTable, email: string, name: string, password: string, salt: string,
                             hash: (string, string) -> string, compare: (string, string) -> bool,
                             secret: string, sign: (Claims, string) -> string)
    requires email in t.users && t.users[email] == User(t.users[email].id, name, hash(password, salt), USER)
    requires compare(password, hash(password, salt))
    requires secret != ""
    ensures t.Login(email, password, compare, Some(secret), sign) ==
            Data(200, sign(Claims(t.users[email].id, email, USER), secret))
  {
  }

  /** Log-in does not reveal whether an e-mail is registered: both failures reply alike. */
  lemma LoginFailuresAlike(t: UserTable, known: string, unknown: string, wrong: string,
                           compare: (string, string) -> bool, secret: Option<string>, sign: (Claims, string) -> string)
    requires unknown !in t.users
    requires known in t.users && !compare(wrong, t.users[known].password)
    ensures t.Login(unknown, wrong, compare, secret, sign) == t.Login(known, wrong, compare, secret, sign)
  {
  }
}
