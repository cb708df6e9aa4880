/**
 * The request decisions of the API server: the token gate, the admin check,
 * login, logout and the product handlers. The database, the JWT library, the
 * password hash and the clock are inputs: every call into them is a parameter
 * that says what it returned (or that it threw).
 */
module Server {
  import opened Wrappers
  import opened JsValues
  import opened JsStrings
  import opened ProductSchema
  import Revoked = RevokedTokenSchema

  /** A JSON body `{ success, message }`, `{ success, data }` or `{ success, token }`, or a bare status text. */
  datatype Body =
    | StatusText(text: string)
    | Message(success: bool, message: string)
    | ProductData(product: Product)
    | ProductList(items: seq<Product>)
    | TokenIssued(payload: Object)

  datatype Response = Response(status: int, body: Body)

  const Unauthorized := Response(401, StatusText("Unauthorized"))
  const TokenRevoked := Response(401, Message(false, "Token revoked"))
  const InvalidToken := Response(403, Message(false, "Invalid token"))
  const AuthenticationFailed := Response(500, Message(false, "Authentication failed"))
  const AdminRequired := Response(403, Message(false, "Admin access required"))
  const InvalidCredentials := Response(401, Message(false, "Invalid credentials"))
  const LoginFailed := Response(500, Message(false, "Login failed"))
  const NoTokenProvided := Response(404, Message(false, "No token provided"))
  const LogoutFailed := Response(500, Message(false, "Logout failed"))
  const LoggedOut := Response(200, Message(true, "Logged out successfully"))
  const NameAndPriceRequired := Response(400, Message(false, "Name and price are required"))
  const ProductNotFound := Response(404, Message(false, "Product not found"))
  const InternalServerError := Response(500, Message(false, "Internal Server Error"))
  const ProductDeleted := Response(200, Message(true, "Product deleted successfully"))
  const AdminWelcome := Response(200, Message(true, "Welcome to admin panel"))

  // ---------------------------------------------------------------- the token gate

  /**
   * The token of an `Authorization` header: its second space-separated field,
   * absent when there is no header, no such field, or the field is empty.
   */
  function BearerToken(header: Option<string>): (token: Option<string>)
    ensures token.Some? ==> token.value != "" && ' ' !in token.value
  {
    match header
    case None => None
    case Some(h) =>
      match Field(h, ' ', 1)
      case None => None
      case Some(t) => if t == "" then None else Some(t)
  }

  /**
   * A header `scheme token ...` yields `token`, whatever the scheme word is
   * (`Bearer` is not checked) and whatever follows.
   */
  lemma BearerTokenOfHeader(pieces: seq<string>)
    requires |pieces| >= 2 && pieces[1] != ""
    requires forall i :: 0 <= i < |pieces| ==> ' ' !in pieces[i]
    ensures BearerToken(Some(Join(pieces, ' '))) == Some(pieces[1])
  {
    FieldOfJoin(pieces, ' ', 1);
  }

  /** A header whose second space-separated field is empty (`scheme  token`, a double space) carries no token. */
  lemma EmptySecondField(pieces: seq<string>)
    requires |pieces| >= 2 && pieces[1] == ""
    requires forall i :: 0 <= i < |pieces| ==> ' ' !in pieces[i]
    ensures BearerToken(Some(Join(pieces, ' '))) == None
  {
    FieldOfJoin(pieces, ' ', 1);
  }

  /** No header, an empty header, a header with no space and `scheme ` with nothing after all give no token. */
  lemma NoBearerToken(scheme: string)
    requires ' ' !in scheme
    ensures BearerToken(None) == None
    ensures BearerToken(Some(scheme)) == None
    ensures BearerToken(Some(scheme + " ")) == None
  {
    SplitWithoutSeparator(scheme, ' ');
    SplitAfterPiece(scheme, ' ', "");
    assert scheme + " " == scheme + [' '] + "";
  }

  /** What `jwt.verify` reported for the token: its payload, or a bad signature or expiry. */
  datatype Verification = Verified(payload: Object) | Invalid

  /** A middleware's verdict: call `next()` with `req.user` set, or answer with a response. */
  datatype Gate = Next(user: Object) | Stop(response: Response)

  /**
   * `authenticateToken`: the token from the header, then the revocation lookup
   * in `revoked` (which may fail), then the signature check.
   */
  function AuthenticateToken(header: Option<string>, revoked: Revoked.Store, lookupFails: bool,
                             verify: Verification): (g: Gate)
    ensures g.Next? <==>
      BearerToken(header).Some? && !lookupFails && BearerToken(header).value !in revoked && verify.Verified?
    ensures g.Next? ==> g.user == verify.payload
  {
    match BearerToken(header)
    case None => Stop(Unauthorized)
    case Some(token) =>
      if lookupFails then Stop(AuthenticationFailed)
      else if token in revoked then Stop(TokenRevoked)
      else match verify
        case Invalid => Stop(InvalidToken)
        case Verified(user) => Next(user)
  }

  /** Without a token the answer is a plain 401 and the revocation store plays no part. */
  lemma MissingTokenIs401(header: Option<string>, r1: Revoked.Store, r2: Revoked.Store,
                          f1: bool, f2: bool, v1: Verification, v2: Verification)
    requires BearerToken(header).None?
    ensures AuthenticateToken(header, r1, f1, v1) == AuthenticateToken(header, r2, f2, v2) == Stop(Unauthorized)
  {
  }

  /** Revocation is checked before the signature: a revoked token is refused with 401 even when it verifies. */
  lemma RevokedIs401(header: Option<string>, revoked: Revoked.Store, verify: Verification)
    requires BearerToken(header).Some? && BearerToken(header).value in revoked
    ensures AuthenticateToken(header, revoked, false, verify) == Stop(TokenRevoked)
  {
  }

  /** A token that is not revoked but fails verification is refused with 403. */
  lemma InvalidIs403(header: Option<string>, revoked: Revoked.Store)
    requires BearerToken(header).Some? && BearerToken(header).value !in revoked
    ensures AuthenticateToken(header, revoked, false, Invalid) == Stop(InvalidToken)
  {
  }

  /** A failed revocation lookup is a 500 and never lets the request through. */
  lemma LookupFailureIs500(header: Option<string>, revoked: Revoked.Store, verify: Verification)
    requires BearerToken(header).Some?
    ensures AuthenticateToken(header, revoked, true, verify) == Stop(AuthenticationFailed)
  {
  }

  /** `adminOnly`: `req.user.role` must be exactly the string "admin". */
  function AdminOnly(user: Option<Object>): (g: Gate)
    ensures g.Next? <==> user.Some? && Get(user.value, "role") == Str("admin")
    ensures g.Next? ==> g.user == user.value
    ensures g.Stop? ==> g.response == AdminRequired
  {
    match user
    case Some(u) => if Get(u, "role") == Str("admin") then Next(u) else Stop(AdminRequired)
    case None => Stop(AdminRequired)
  }

  // ---------------------------------------------------------------- login

  /** A credential record; the password hash is behind the password check. */
  datatype User = User(id: string, role: string)

  /** What `user.comparePassword(password)` gave: a match, a mismatch, or a thrown error. */
  datatype PasswordCheck = Matches | Mismatch | CheckFailed

  const TokenLifetimeSeconds: int := 3600

  /** The payload `jwt.sign({ userId, role }, secret, { expiresIn: '1h' })` signs at time `nowMs`. */
  function IssuedPayload(user: User, nowMs: nat): (p: Object)
    ensures Get(p, "userId") == Str(user.id) && Get(p, "role") == Str(user.role)
    ensures Get(p, "exp") == Num((nowMs / 1000 + TokenLifetimeSeconds) as real)
  {
    var iat := nowMs / 1000;
    map["userId" := Str(user.id), "role" := Str(user.role),
        "iat" := Num(iat as real), "exp" := Num((iat + TokenLifetimeSeconds) as real)]
  }

  /**
   * `POST /login`: look the user up (which may fail), check the password
   * (which may fail), sign a token (which may fail).
   */
  function Login(users: map<string, User>, username: string, findFails: bool, check: PasswordCheck,
                 signFails: bool, nowMs: nat): (r: Response)
    ensures r.status == 200 <==> !findFails && username in users && check == Matches && !signFails
    ensures r.status == 200 ==> r.body == TokenIssued(IssuedPayload(users[username], nowMs))
    ensures r.status != 200 ==> r in {InvalidCredentials, LoginFailed}
    ensures !findFails && username !in users ==> r == InvalidCredentials
    ensures findFails ==> r == LoginFailed
    ensures !findFails && username in users && check == Mismatch ==> r == InvalidCredentials
    ensures !findFails && username in users && (check == CheckFailed || (check == Matches && signFails)) ==>
      r == LoginFailed
  {
    if findFails then LoginFailed
    else if username !in users then InvalidCredentials
    else match check
      case CheckFailed => LoginFailed
      case Mismatch => InvalidCredentials
      case Matches => if signFails then LoginFailed else Response(200, TokenIssued(IssuedPayload(users[username], nowMs)))
  }

  /** An unknown user and a wrong password get the very same answer. */
  lemma LoginDoesNotRevealUsers(users: map<string, User>, unknown: string, known: string,
                                check: PasswordCheck, s1: bool, s2: bool, n1: nat, n2: nat)
    requires unknown !in users && known in users
    ensures Login(users, unknown, false, check, s1, n1) == Login(users, known, false, Mismatch, s2, n2)
         == InvalidCredentials
  {
  }

  /** A token issued at login passes `adminOnly` exactly when the stored role is "admin". */
  lemma IssuedTokenRole(user: User, nowMs: nat)
    ensures AdminOnly(Some(IssuedPayload(user, nowMs))).Next? <==> user.role == "admin"
  {
  }

  // ---------------------------------------------------------------- logout

  /** `decoded?.exp`: undefined when the token did not decode to an object. */
  function ExpOf(decoded: Option<Object>): JsValue {
    match decoded
    case None => Undefined
    case Some(p) => Get(p, "exp")
  }

  /** A revoked token is refused by the gate for as long as its record is stored. */
  lemma LoggedOutTokenIsRefused(header: Option<string>, store: Revoked.Store, exp: JsValue, nowMs: int,
                                verify: Verification)
    requires BearerToken(header).Some?
    requires Revoked.Create(store, BearerToken(header).value, exp, nowMs).Success?
    ensures AuthenticateToken(header, Revoked.Create(store, BearerToken(header).value, exp, nowMs).value,
                              false, verify) == Stop(TokenRevoked)
  {
  }

  // ---------------------------------------------------------------- products

  /** `const { name, price, image, type } = req.body`. */
  function BodyFields(body: Object): Fields {
    Fields(Get(body, "name"), Get(body, "price"), Get(body, "image"), Get(body, "type"))
  }

  /** No two positions of `s` hold the same id. */
  predicate Distinct(s: seq<string>) {
    forall i, j :: 0 <= i < j < |s| ==> s[i] != s[j]
  }

  /** `s` without `x`, the rest in order. */
  function Erase(s: seq<string>, x: string): (r: seq<string>)
    ensures forall y :: y in r <==> y in s && y != x
    ensures Distinct(s) ==> Distinct(r)
  {
    if s == [] then []
    else
      var rest := Erase(s[1..], x);
      if s[0] == x then rest
      else
        assert Distinct(s) ==> s[0] !in s[1..];
        [s[0]] + rest
  }

  /** Erasing from two halves erases from each: the ids that remain keep their order. */
  lemma {:induction false} EraseConcat(a: seq<string>, b: seq<string>, x: string)
    ensures Erase(a + b, x) == Erase(a, x) + Erase(b, x)
  {
    if a == [] {
      assert a + b == b;
    } else {
      assert (a + b)[1..] == a[1..] + b;
      EraseConcat(a[1..], b, x);
    }
  }

  /**
   * The server's stores: the product collection, kept with its natural
   * (insertion) order, and the revoked-token collection.
   */
  class Api {
    var products: map<string, Product>
    var order: seq<string>
    var revoked: Revoked.Store

    /** Each product is stored under its own id, is valid, and is listed exactly once in `order`. */
    ghost predicate Valid()
      reads this`products, this`order
    {
      && (forall id :: id in products ==> products[id].id == id && ProductSchema.Valid(products[id]))
      && (forall id :: id in products <==> id in order)
      && Distinct(order)
    }

    constructor ()
      ensures Valid()
      ensures products == map[] && order == [] && revoked == map[]
    {
      products := map[];
      order := [];
      revoked := map[];
    }

    /** `authenticateToken` against this server's revocation store. */
    method Authenticate(header: Option<string>, lookupFails: bool, verify: Verification) returns (g: Gate)
      ensures g == AuthenticateToken(header, revoked, lookupFails, verify)
    {
      var token := BearerToken(header);
      if token.None? {
        return Stop(Unauthorized);
      }
      if lookupFails {
        return Stop(AuthenticationFailed);
      }
      if token.value in revoked {
        return Stop(TokenRevoked);
      }
      match verify {
        case Invalid => g := Stop(InvalidToken);
        case Verified(user) => g := Next(user);
      }
    }

    /** `GET /admin`: `authenticateToken`, then `adminOnly`, then the welcome message. */
    method AdminPanel(header: Option<string>, lookupFails: bool, verify: Verification) returns (r: Response)
      ensures r == AdminWelcome <==>
        AuthenticateToken(header, revoked, lookupFails, verify).Next? && Get(verify.payload, "role") == Str("admin")
      ensures AuthenticateToken(header, revoked, lookupFails, verify).Stop? ==>
        r == AuthenticateToken(header, revoked, lookupFails, verify).response
      ensures AuthenticateToken(header, revoked, lookupFails, verify).Next? && Get(verify.payload, "role") != Str("admin") ==>
        r == AdminRequired
    {
      var g := Authenticate(header, lookupFails, verify);
      if g.Stop? {
        return g.response;
      }
      var a := AdminOnly(Some(g.user));
      r := if a.Stop? then a.response else AdminWelcome;
    }

    /**
     * `POST /logout`: with a token whose decoded payload has a truthy `exp`,
     * insert one revocation record; `decoded` is what `jwt.decode` returned,
     * and `decodeFails` that it threw.
     */
    method Logout(header: Option<string>, decodeFails: bool, decoded: Option<Object>, nowMs: int,
                  insertFails: bool)
      returns (r: Response)
      modifies this`revoked
      ensures BearerToken(header).None? ==> r == NoTokenProvided && revoked == old(revoked)
      ensures BearerToken(header).Some? && decodeFails ==> r == LogoutFailed && revoked == old(revoked)
      ensures BearerToken(header).Some? && !decodeFails && !Truthy(ExpOf(decoded)) ==>
        r == LoggedOut && revoked == old(revoked)
      ensures BearerToken(header).Some? && !decodeFails && Truthy(ExpOf(decoded)) ==>
        var c := Revoked.Create(old(revoked), BearerToken(header).value, ExpOf(decoded), nowMs);
        if insertFails || c.Failure? then r == LogoutFailed && revoked == old(revoked)
        else r == LoggedOut && revoked == c.value
    {
      var token := BearerToken(header);
      if token.None? {
        return NoTokenProvided;
      }
      if decodeFails {
        return LogoutFailed;
      }
      var exp := ExpOf(decoded);
      if Truthy(exp) {
        var c := Revoked.Create(revoked, token.value, exp, nowMs);
        if insertFails || c.Failure? {
          return LogoutFailed;
        }
        revoked := c.value;
      }
      r := LoggedOut;
    }

    /** One pass of the TTL monitor over the revoked tokens at time `nowMs`. */
    method ExpireRevoked(nowMs: int)
      modifies this`revoked
      ensures revoked == Revoked.Purge(old(revoked), nowMs)
    {
      revoked := Revoked.Purge(revoked, nowMs);
    }

    /** `POST /products` (after the token gate); `newId` is the id the new document is given. */
    method CreateProduct(body: Object, newId: string, nowMs: int, saveFails: bool) returns (r: Response)
      requires Valid()
      modifies this`products, this`order
      ensures Valid()
      ensures var f := BodyFields(body);
        !Truthy(f.name) || !Truthy(f.price) ==>
          r == NameAndPriceRequired && products == old(products) && order == old(order)
      ensures var f := BodyFields(body); var c := Create(newId, f, nowMs);
        Truthy(f.name) && Truthy(f.price) && (c.Failure? || saveFails || newId in old(products)) ==>
          r == InternalServerError && products == old(products) && order == old(order)
      ensures var f := BodyFields(body); var c := Create(newId, f, nowMs);
        Truthy(f.name) && Truthy(f.price) && c.Success? && !saveFails && newId !in old(products) ==>
          && r == Response(201, ProductData(c.value))
          && products == old(products)[newId := c.value]
          && order == old(order) + [newId]
    {
      var f := BodyFields(body);
      if !Truthy(f.name) || !Truthy(f.price) {
        return NameAndPriceRequired;
      }
      var c := Create(newId, f, nowMs);
      if c.Failure? || saveFails || newId in products {
        return InternalServerError;
      }
      products := products[newId := c.value];
      order := order + [newId];
      r := Response(201, ProductData(c.value));
    }

    /** `GET /products`: every stored product once, in the collection's natural order. */
    method ListProducts(storeFails: bool) returns (r: Response)
      requires Valid()
      ensures storeFails ==> r == InternalServerError
      ensures !storeFails ==> r.status == 200 && r.body.ProductList?
      ensures !storeFails ==>
        && |r.body.items| == |order|
        && (forall i :: 0 <= i < |order| ==> r.body.items[i] == products[order[i]])
        && (forall id :: id in products ==> products[id] in r.body.items)
        && (forall i, j :: 0 <= i < j < |r.body.items| ==> r.body.items[i].id != r.body.items[j].id)
    {
      if storeFails {
        return InternalServerError;
      }
      var stored, ids := products, order;
      assert forall i :: 0 <= i < |ids| ==> ids[i] in stored;
      var items := seq(|ids|, i requires 0 <= i < |ids| && ids[i] in stored => stored[ids[i]]);
      forall id | id in products ensures products[id] in items {
        var i :| 0 <= i < |order| && order[i] == id;
        assert items[i] == products[id];
      }
      r := Response(200, ProductList(items));
    }

    /** `GET /products/:id`. */
    method GetProduct(id: string, storeFails: bool) returns (r: Response)
      ensures storeFails ==> r == InternalServerError
      ensures !storeFails && id !in products ==> r == ProductNotFound
      ensures !storeFails && id in products ==> r == Response(200, ProductData(products[id]))
    {
      if storeFails {
        return InternalServerError;
      }
      if id !in products {
        return ProductNotFound;
      }
      r := Response(200, ProductData(products[id]));
    }

    /**
     * `PUT /products/:id` (after the token gate). The update's validators run
     * before the document is looked up, so an invalid update is a 500 even
     * for an absent id.
     */
    method UpdateProduct(id: string, body: Object, nowMs: int, storeFails: bool) returns (r: Response)
      requires Valid()
      modifies this`products
      ensures Valid() && order == old(order)
      ensures var f := BodyFields(body);
        storeFails || UpdateError(f).Some? ==> r == InternalServerError && products == old(products)
      ensures var f := BodyFields(body);
        !storeFails && UpdateError(f).None? && id !in old(products) ==>
          r == ProductNotFound && products == old(products)
      ensures var f := BodyFields(body);
        !storeFails && UpdateError(f).None? && id in old(products) ==>
          var u := Update(old(products)[id], f, nowMs);
          u.Success? && r == Response(200, ProductData(u.value)) && products == old(products)[id := u.value]
    {
      var f := BodyFields(body);
      if storeFails || UpdateError(f).Some? {
        return InternalServerError;
      }
      if id !in products {
        return ProductNotFound;
      }
      var u := Update(products[id], f, nowMs);
      UpdateKeepsValid(products[id], f, nowMs);
      products := products[id := u.value];
      r := Response(200, ProductData(u.value));
    }

    /** `DELETE /products/:id` (after the token gate). */
    method DeleteProduct(id: string, storeFails: bool) returns (r: Response)
      requires Valid()
      modifies this`products, this`order
      ensures Valid()
      ensures storeFails ==> r == InternalServerError && products == old(products) && order == old(order)
      ensures !storeFails && id !in old(products) ==>
        r == ProductNotFound && products == old(products) && order == old(order)
      ensures !storeFails && id in old(products) ==>
        r == ProductDeleted && products == old(products) - {id} && order == Erase(old(order), id)
    {
      if storeFails {
        return InternalServerError;
      }
      if id !in products {
        return ProductNotFound;
      }
      products := products - {id};
      order := Erase(order, id);
      r := ProductDeleted;
    }
  }
}
