/**
 * The jQuery client: the products-page token gate, the client-side reading of
 * a token's payload, and the checks run before a form is sent. `atob`,
 * `decodeURIComponent` and `JSON.parse` are one input, `parse`, from the
 * standard-base64 text of the payload segment to what the page reads from it.
 */
module StaticClient {
  import opened Wrappers
  import opened JsValues
  import opened JsStrings
  import opened FormChecks

  // ---------------------------------------------------------------- decodeToken

  /** `token.split('.')[1]`: the payload segment, absent when the token has no '.'. */
  function PayloadSegment(token: string): (segment: Option<string>)
    ensures segment.Some? ==> '.' !in segment.value
    ensures '.' !in token ==> segment == None
  {
    NoSecondFieldWithoutSeparator(token, '.');
    Field(token, '.', 1)
  }

  /** The base64url-to-base64 mapping of one character. */
  function StandardChar(c: char): char {
    if c == '-' then '+' else if c == '_' then '/' else c
  }

  /** `.replace(/-/g, '+').replace(/_/g, '/')`. */
  function Base64UrlToBase64(s: string): (r: string)
    ensures |r| == |s|
    ensures forall i :: 0 <= i < |s| ==> r[i] == StandardChar(s[i])
    ensures '-' !in r && '_' !in r
  {
    ReplaceAll(ReplaceAll(s, '-', '+'), '_', '/')
  }

  /** What the page reads from a token: nothing (`decodeToken` returned null) or its `exp` property. */
  datatype Decoded = NullPayload | Payload(exp: JsValue)

  /** `decodeToken(token)`; a missing payload segment makes `.replace` throw, which returns null. */
  function DecodeToken(token: string, parse: string -> Decoded): (d: Decoded)
    ensures PayloadSegment(token).None? ==> d == NullPayload
    ensures PayloadSegment(token).Some? ==> d == parse(Base64UrlToBase64(PayloadSegment(token).value))
  {
    match PayloadSegment(token)
    case None => NullPayload
    case Some(segment) => parse(Base64UrlToBase64(segment))
  }

  /** For a token `h.p.s...` of '.'-free pieces, what gets parsed is the second piece, mapped to base64. */
  lemma DecodeTokenOfPieces(pieces: seq<string>, parse: string -> Decoded)
    requires |pieces| >= 2
    requires forall i :: 0 <= i < |pieces| ==> '.' !in pieces[i]
    ensures DecodeToken(Join(pieces, '.'), parse) == parse(Base64UrlToBase64(pieces[1]))
  {
    FieldOfJoin(pieces, '.', 1);
  }

  // ---------------------------------------------------------------- the products-page gate

  datatype GateAction = ToLogin | ClearAndToLogin | ShowProducts

  /**
   * The products-page gate at time `nowMs`: no stored token redirects; a
   * payload that cannot be read, or whose truthy `exp` lies before the current
   * second, clears the storage and redirects; anything else shows the page.
   */
  function ProductsGate(token: Option<string>, parse: string -> Decoded, nowMs: nat): (a: GateAction)
    ensures a == ToLogin <==> token.None? || token.value == ""
    ensures a == ShowProducts ==> DecodeToken(token.value, parse).Payload?
  {
    if token.None? || token.value == "" then ToLogin
    else match DecodeToken(token.value, parse)
      case NullPayload => ClearAndToLogin
      case Payload(exp) =>
        if Truthy(exp) && LessThan(exp, nowMs / 1000) then ClearAndToLogin else ShowProducts
  }

  /**
   * A numeric `exp` is accepted up to and including the current second; a
   * missing `exp` never expires; an unreadable payload is cleared.
   */
  lemma GateExpiry(token: string, parse: string -> Decoded, nowMs: nat)
    requires token != ""
    ensures DecodeToken(token, parse) == Payload(Num((nowMs / 1000) as real)) ==>
      ProductsGate(Some(token), parse, nowMs) == ShowProducts
    ensures DecodeToken(token, parse) == Payload(Undefined) ==> ProductsGate(Some(token), parse, nowMs) == ShowProducts
    ensures DecodeToken(token, parse) == NullPayload ==> ProductsGate(Some(token), parse, nowMs) == ClearAndToLogin
    ensures forall x: real :: DecodeToken(token, parse) == Payload(Num(x)) && x != 0.0 ==>
      (ProductsGate(Some(token), parse, nowMs) == ClearAndToLogin <==> x < (nowMs / 1000) as real)
  {
  }

  /** A token without a '.' is never shown the page. */
  lemma TokenWithoutSegmentIsCleared(token: string, parse: string -> Decoded, nowMs: nat)
    requires token != "" && '.' !in token
    ensures ProductsGate(Some(token), parse, nowMs) == ClearAndToLogin
  {
    SplitWithoutSeparator(token, '.');
  }

  datatype Location = LoginPage | ProductsPage

  /** The browser state the client touches: the two `localStorage` entries and the current page. */
  class Browser {
    var token: Option<string>
    var username: Option<string>
    var location: Location

    constructor (token: Option<string>, username: Option<string>, location: Location)
      ensures this.token == token && this.username == username && this.location == location
    {
      this.token := token;
      this.username := username;
      this.location := location;
    }

    /** Removes both stored entries and goes to the login page. */
    method ClearAndLeave()
      modifies this
      ensures token == None && username == None && location == LoginPage
    {
      token := None;
      username := None;
      location := LoginPage;
    }

    /** The gate run when the products page opens; `shown` when the page goes on to load. */
    method OpenProductsPage(parse: string -> Decoded, nowMs: nat) returns (shown: bool)
      modifies this
      ensures var a := ProductsGate(old(token), parse, nowMs);
        && (a == ToLogin ==> token == old(token) && username == old(username) && location == LoginPage)
        && (a == ClearAndToLogin ==> token == None && username == None && location == LoginPage)
        && (a == ShowProducts ==> token == old(token) && username == old(username) && location == old(location))
        && (shown <==> a == ShowProducts)
    {
      var a := ProductsGate(token, parse, nowMs);
      if a == ToLogin {
        location := LoginPage;
        return false;
      }
      if a == ClearAndToLogin {
        ClearAndLeave();
        return false;
      }
      shown := true;
    }

    /** A successful login stores the token and the typed username and opens the products page. */
    method LoginSucceeded(newToken: string, name: string)
      modifies this
      ensures token == Some(newToken) && username == Some(name) && location == ProductsPage
    {
      token := Some(newToken);
      username := Some(name);
      location := ProductsPage;
    }

    /** A successful logout request clears the storage and returns to the login page. */
    method LogoutSucceeded()
      modifies this
      ensures token == None && username == None && location == LoginPage
    {
      ClearAndLeave();
    }
  }

  // ---------------------------------------------------------------- form checks

  /**
   * The add and save handlers: the name is trimmed, the price is taken as
   * typed, and a blank name or an empty price stops the request.
   */
  function ProductSubmission(rawName: string, price: string): (sent: Option<(string, string)>)
    ensures sent.Some? <==> ProductFieldsFilled(rawName, Str(price))
    ensures sent.Some? ==> sent.value == (Trim(rawName), price)
  {
    var name := Trim(rawName);
    if name == "" || price == "" then None else Some((name, price))
  }

  /** The login handler: both fields are trimmed and neither may end up empty. */
  function LoginSubmission(rawUsername: string, rawPassword: string): (sent: Option<(string, string)>)
    ensures sent.Some? <==> !Blank(rawUsername) && !Blank(rawPassword)
    ensures sent.Some? ==> sent.value == (Trim(rawUsername), Trim(rawPassword))
  {
    TrimEmptyIffBlank(rawUsername);
    TrimEmptyIffBlank(rawPassword);
    var username := Trim(rawUsername);
    var password := Trim(rawPassword);
    if username == "" || password == "" then None else Some((username, password))
  }

  /** A whitespace-only name never leaves the page, whatever the price. */
  lemma BlankNameNotSent(rawName: string, price: string)
    requires Blank(rawName)
    ensures ProductSubmission(rawName, price) == None
  {
    TrimEmptyIffBlank(rawName);
  }

  // ---------------------------------------------------------------- the edit price

  /** The price text a row displays: `$${product.price}`. */
  function PriceLabel(price: string): string {
    "$" + price
  }

  /** The edit handler's price: the displayed text with its first '$' removed. */
  function EditPrice(displayed: string): string {
    ReplaceFirst(displayed, '$', "")
  }

  /** Editing starts from the price the row was rendered with, even when that price contains '$'. */
  lemma EditPriceOfLabel(price: string)
    ensures EditPrice(PriceLabel(price)) == price
  {
    assert PriceLabel(price)[0] == '$';
    assert IndexOf(PriceLabel(price), '$') == 0;
    assert PriceLabel(price)[1..] == price;
  }
}
