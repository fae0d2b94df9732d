/**
 * Device-key authentication: the key service (user-api-key.service.ts), whose
 * lookup accepts one fixed development key and whose generator hex-encodes 32
 * random bytes, and the guard (api-key.guard.ts) that picks the key of a
 * request, looks it up and records the caller on the request.
 */
module ApiKeys {
  import opened Common
  import opened Users

  newtype byte = x: int | 0 <= x < 256

  /** The one key the placeholder lookup accepts. */
  const DevKey := "test-api-key-for-development"

  /**
   * `getUserByApiKey(apiKey)`: for the development key, the first row of
   * the user table (null when the table is empty); for every other key, null.
   */
  function GetUserByApiKey(apiKey: JsValue, users: UserTable): (r: Option<User>)
    reads users
    ensures r.Some? <==> StrictEquals(apiKey, Str(DevKey)) && |users.rows| > 0
    ensures r.Some? ==> r.value == users.rows[0]
  {
    if StrictEquals(apiKey, Str(DevKey)) && |users.rows| > 0 then Some(users.rows[0]) else None
  }

  /** Only the exact development key resolves: a different string, or a non-string, never does. */
  lemma OnlyDevKeyResolves(apiKey: JsValue, users: UserTable)
    ensures GetUserByApiKey(apiKey, users).Some? ==> apiKey == Str(DevKey)
    ensures apiKey.Str? && apiKey.s != DevKey ==> GetUserByApiKey(apiKey, users) == None
  {
  }

  predicate IsLowerHex(c: char) {
    ('0' <= c <= '9') || ('a' <= c <= 'f')
  }

  /** The lowercase hexadecimal digit of `d`. */
  function HexDigit(d: int): (c: char)
    requires 0 <= d < 16
    ensures IsLowerHex(c)
  {
    "0123456789abcdef"[d]
  }

  /** The value of a lowercase hexadecimal digit. */
  function HexValue(c: char): (d: int)
    requires IsLowerHex(c)
    ensures 0 <= d < 16
    ensures HexDigit(d) == c
  {
    if c <= '9' then c as int - '0' as int else c as int - 'a' as int + 10
  }

  /** `Buffer.toString('hex')`: two lowercase digits per byte, high half first. */
  function HexEncode(bytes: seq<byte>): (s: string)
    ensures |s| == 2 * |bytes|
    ensures forall i :: 0 <= i < |s| ==> IsLowerHex(s[i])
    ensures forall i :: 0 <= i < |bytes| ==>
              s[2 * i] == HexDigit(bytes[i] as int / 16) && s[2 * i + 1] == HexDigit(bytes[i] as int % 16)
  {
    if bytes == [] then []
    else [HexDigit(bytes[0] as int / 16), HexDigit(bytes[0] as int % 16)] + HexEncode(bytes[1..])
  }

  /** The bytes a lowercase hexadecimal text of even length spells. */
  function HexDecode(s: string): (bytes: seq<byte>)
    requires |s| % 2 == 0
    requires forall i :: 0 <= i < |s| ==> IsLowerHex(s[i])
    ensures |bytes| == |s| / 2
  {
    if s == [] then []
    else [(16 * HexValue(s[0]) + HexValue(s[1])) as byte] + HexDecode(s[2..])
  }

  /** Hex encoding loses nothing: decoding gives the bytes back. */
  lemma {:induction false} HexRoundTrip(bytes: seq<byte>)
    ensures HexDecode(HexEncode(bytes)) == bytes
  {
    if bytes != [] {
      var s := HexEncode(bytes);
      var b := bytes[0] as int;
      assert s[2..] == HexEncode(bytes[1..]);
      assert HexValue(s[0]) == b / 16 && HexValue(s[1]) == b % 16 by {
        HexDigitInjective(HexValue(s[0]), b / 16);
        HexDigitInjective(HexValue(s[1]), b % 16);
      }
      HexRoundTrip(bytes[1..]);
    }
  }

  lemma HexDigitInjective(d: int, e: int)
    requires 0 <= d < 16 && 0 <= e < 16
    ensures HexDigit(d) == HexDigit(e) ==> d == e
  {
  }

  /** Distinct byte strings give distinct keys. */
  lemma HexEncodeInjective(a: seq<byte>, b: seq<byte>)
    ensures HexEncode(a) == HexEncode(b) ==> a == b
  {
    if HexEncode(a) == HexEncode(b) {
      HexRoundTrip(a);
      HexRoundTrip(b);
    }
  }

  /**
   * `generateApiKeyForUser(userId)`: the hex text of 32 random bytes, given
   * here as `random`. The key is returned and nothing is stored.
   */
  function GenerateApiKeyForUser(userId: string, random: seq<byte>): (key: string)
    requires |random| == 32
    ensures |key| == 64
    ensures forall i :: 0 <= i < |key| ==> IsLowerHex(key[i])
    ensures HexDecode(key) == random
  {
    HexRoundTrip(random);
    HexEncode(random)
  }

  /**
   * A generated key is never the development key (which holds letters that
   * are not hexadecimal digits), so it never authenticates anyone.
   */
  lemma GeneratedKeyNeverResolves(userId: string, random: seq<byte>, users: UserTable)
    requires |random| == 32
    ensures GenerateApiKeyForUser(userId, random) != DevKey
    ensures GetUserByApiKey(Str(GenerateApiKeyForUser(userId, random)), users) == None
  {
    var key := GenerateApiKeyForUser(userId, random);
    assert !IsLowerHex(DevKey[0]);
    assert IsLowerHex(key[0]);
  }

  /** What the guard stores in `request.user`. */
  datatype RequestUser = RequestUser(userId: string, email: string)

  /** The `x-api-key` header as the guard reads it: a text, or undefined when the header is absent. */
  function HeaderValue(header: Option<string>): (v: JsValue)
    ensures header.Some? ==> v == Str(header.value)
    ensures header.None? ==> v == Undefined
  {
    if header.Some? then Str(header.value) else Undefined
  }

  /** `apiKey || request.body?.apiKey`: the header when it is non-empty, else the body's `apiKey`. */
  function SelectKey(header: Option<string>, body: JsValue): (key: JsValue)
    ensures header.Some? && header.value != "" ==> key == Str(header.value)
    ensures header.None? || header == Some("") ==> key == OptionalProp(body, "apiKey")
  {
    Or(HeaderValue(header), OptionalProp(body, "apiKey"))
  }

  /**
   * The decision of `canActivate`: no usable key is refused before any
   * lookup, a key that resolves to nobody is refused, and otherwise the
   * caller is the resolved user.
   */
  function Authenticate(header: Option<string>, body: JsValue, users: UserTable): (r: Result<RequestUser>)
    reads users
    ensures !Truthy(SelectKey(header, body)) ==> r == Err(Unauthorized("API key is required"))
    ensures Truthy(SelectKey(header, body)) && GetUserByApiKey(SelectKey(header, body), users).None? ==>
              r == Err(Unauthorized("Invalid API key"))
    ensures r.Ok? <==> Truthy(SelectKey(header, body)) && GetUserByApiKey(SelectKey(header, body), users).Some?
    ensures r.Ok? ==> var u := GetUserByApiKey(SelectKey(header, body), users).value;
              r.value == RequestUser(u.id, u.email)
  {
    var key := SelectKey(header, body);
    if !Truthy(key) then Err(Unauthorized("API key is required"))
    else match GetUserByApiKey(key, users)
      case None => Err(Unauthorized("Invalid API key"))
      case Some(u) => Ok(RequestUser(u.id, u.email))
  }

  /** A non-empty header decides alone: the body's key is then never consulted. */
  lemma HeaderTakesPrecedence(header: string, body1: JsValue, body2: JsValue, users: UserTable)
    requires header != ""
    ensures Authenticate(Some(header), body1, users) == Authenticate(Some(header), body2, users)
  {
  }

  /** Without a key the outcome does not depend on the user table: the lookup is never made. */
  lemma MissingKeyNeedsNoLookup(header: Option<string>, body: JsValue, users1: UserTable, users2: UserTable)
    requires !Truthy(SelectKey(header, body))
    ensures Authenticate(header, body, users1) == Authenticate(header, body, users2)
    ensures Authenticate(header, body, users1) == Err(Unauthorized("API key is required"))
  {
  }

  /** Only the development key, from the header or else the body, gets through, and only when a user exists. */
  lemma AcceptedOnlyWithDevKey(header: Option<string>, body: JsValue, users: UserTable)
    ensures Authenticate(header, body, users).Ok? ==>
              SelectKey(header, body) == Str(DevKey) && |users.rows| > 0
              && Authenticate(header, body, users).value == RequestUser(users.rows[0].id, users.rows[0].email)
  {
  }

  /** The parts of an HTTP request the guard reads and the one it writes. */
  class Request {
    const apiKeyHeader: Option<string>
    const body: JsValue
    var user: Option<RequestUser>

    constructor (apiKeyHeader: Option<string>, body: JsValue)
      ensures this.apiKeyHeader == apiKeyHeader && this.body == body && user == None
    {
      this.apiKeyHeader := apiKeyHeader;
      this.body := body;
      user := None;
    }
  }

  /**
   * `ApiKeyGuard.canActivate(context)`: either throws Unauthorized or
   * records the caller on the request and returns true; it never returns
   * false, and the request is written only on success.
   */
  method CanActivate(request: Request, users: UserTable) returns (r: Result<bool>)
    modifies request
    ensures var a := Authenticate(request.apiKeyHeader, request.body, users);
      && (a.Ok? ==> r == Ok(true) && request.user == Some(a.value))
      && (a.Err? ==> r == Err(a.error) && request.user == old(request.user))
    ensures r != Ok(false)
  {
    var key := SelectKey(request.apiKeyHeader, request.body);
    if !Truthy(key) {
      return Err(Unauthorized("API key is required"));
    }
    var user := GetUserByApiKey(key, users);
    if user.None? {
      return Err(Unauthorized("Invalid API key"));
    }
    request.user := Some(RequestUser(user.value.id, user.value.email));
    r := Ok(true);
  }
}
