/** core/api/client.go: the HTTPS client a mail client uses to talk to its
    mail server. The network, TLS, JWT signing and JSON decoding are
    collaborators passed in as functions. */
module ApiClient {
  import opened Common

  const DefaultPort: string := ":2424"
  const Scheme: string := "https://"

  /** The server string after `CreateNewClient` has rewritten it: `:2424` is
      appended when the string holds no `:` at all, then `https://` is put in
      front unless it is already there. */
  function NormalizeServer(server: string): (r: string)
    ensures HasPrefix(r, Scheme)
    ensures ':' !in server ==> r == Scheme + server + DefaultPort
    ensures ':' in server && HasPrefix(server, Scheme) ==> r == server
    ensures ':' in server && !HasPrefix(server, Scheme) ==> r == Scheme + server
  {
    var withPort := if ContainsChar(server, ':') then server else server + DefaultPort;
    assert !ContainsChar(server, ':') ==> !HasPrefix(withPort, Scheme) by {
      if !ContainsChar(server, ':') { HostWithPortHasNoScheme(server); }
    }
    if HasPrefix(withPort, Scheme) then withPort else Scheme + withPort
  }

  /** A string without `:` with the default port appended cannot start with
      the scheme: its only `:` is the port's. */
  lemma HostWithPortHasNoScheme(server: string)
    requires ':' !in server
    ensures !HasPrefix(server + DefaultPort, Scheme)
  {
    var s := server + DefaultPort;
    if |s| >= |Scheme| {
      if |server| > 5 {
        assert s[5] == server[5] != Scheme[5];
      } else if |server| == 5 {
        assert s[6] == DefaultPort[1] != Scheme[6];
      } else {
        assert s[5] == DefaultPort[5 - |server|] != Scheme[5];
      }
    }
  }

  /** Normalising a normalised server string changes nothing. */
  lemma NormalizeIdempotent(server: string)
    ensures NormalizeServer(NormalizeServer(server)) == NormalizeServer(server)
  {
    var r := NormalizeServer(server);
    assert r[5] == ':';
  }

  /** The port check runs before the scheme is added, and the scheme itself
      contains a `:`: a server given with its scheme and without a port gets
      no port. */
  lemma SchemeWithoutPort()
    ensures NormalizeServer("https://m.x") == "https://m.x"
  {
    assert HasPrefix("https://m.x", Scheme);
    assert "https://m.x"[5] == ':';
  }

  /** A bare host name gets both the default port and the scheme. */
  lemma BareHostGetsPortAndScheme()
    ensures NormalizeServer("m.x") == "https://m.x:2424"
  {
    assert ':' !in "m.x";
  }

  /** The part of `core.AccountInfo` the client uses; `CreateNewClient`
      rewrites its `Server` field in place. */
  class AccountInfo {
    var address: string
    var privKey: string
    var server: string

    constructor (address: string, privKey: string, server: string)
      ensures this.address == address && this.privKey == privKey && this.server == server
    {
      this.address := address;
      this.privKey := privKey;
      this.server := server;
    }
  }

  /** The key handling `CreateNewClient` calls: `encrypt.PEMToPrivKey`,
      `core.StringToHash` and `core.GenerateJWTToken`. */
  datatype Signer = Signer(
    pemToPrivKey: string -> Result<seq<byte>>,
    stringToHash: string -> string,
    generateJwt: (string, seq<byte>) -> Result<string>)

  datatype Request = Request(verb: string, url: string, headers: map<string, string>, body: seq<byte>)

  /** What `client.Do` gives back: the status code and the outcome of reading
      the body. */
  datatype Response = Response(status: int, body: Result<seq<byte>>)

  /** The network: `http.NewRequest` (which can refuse a URL) and
      `client.Do`. */
  datatype Transport = Transport(
    newRequest: (string, string) -> Option<Error>,
    send: Request -> Result<Response>)

  /** Every request carries the JSON content type and the bearer token. */
  function WithHeaders(verb: string, url: string, body: seq<byte>, jwt: string): (req: Request)
    ensures req.verb == verb && req.url == url && req.body == body
    ensures req.headers.Keys == {"Content-Type", "Authorization"}
    ensures req.headers["Content-Type"] == "application/json"
    ensures req.headers["Authorization"] == "Bearer " + jwt
  {
    Request(verb, url, map["Content-Type" := "application/json", "Authorization" := "Bearer " + jwt], body)
  }

  /** The status codes `Get` and `PostReader` accept. */
  predicate IsSuccess(status: int) { 200 <= status <= 299 }

  /** The status codes `Delete` accepts: success codes, and 404. */
  predicate IsDeleteSuccess(status: int) { IsSuccess(status) || status == 404 }

  /** The error `PostReader` and `Delete` return for a refused status. */
  function StatusError(status: int): Error {
    Error("incorrect status code returned (" + Decimal(status) + ")")
  }

  class Api {
    const account: AccountInfo
    const jwt: string
    /** The `http.Client` timeout, in seconds, and the TLS setting. */
    const timeoutSeconds: int
    const allowInsecure: bool

    constructor (account: AccountInfo, jwt: string, allowInsecure: bool)
      ensures this.account == account && this.jwt == jwt
      ensures this.timeoutSeconds == 30 && this.allowInsecure == allowInsecure
    {
      this.account := account;
      this.jwt := jwt;
      this.timeoutSeconds := 30;
      this.allowInsecure := allowInsecure;
    }

    /** The request a call with this method, path and body sends. */
    function Sent(verb: string, path: string, body: seq<byte>): (req: Request)
      reads account
      ensures req.url == account.server + path
      ensures req.headers.Keys == {"Content-Type", "Authorization"}
      ensures req.headers["Authorization"] == "Bearer " + jwt
      ensures req.headers["Content-Type"] == "application/json"
    {
      WithHeaders(verb, account.server + path, body, jwt)
    }

    /** Get(path): the body of a 2xx answer. */
    function Get(path: string, t: Transport): (r: Result<seq<byte>>)
      reads account
      ensures t.newRequest("GET", account.server + path).Some? ==>
        r == Fail(t.newRequest("GET", account.server + path).value)
      ensures r.Ok? <==>
        && t.newRequest("GET", account.server + path).None?
        && t.send(Sent("GET", path, [])).Ok?
        && IsSuccess(t.send(Sent("GET", path, [])).value.status)
        && t.send(Sent("GET", path, [])).value.body.Ok?
      ensures t.newRequest("GET", account.server + path).None? && t.send(Sent("GET", path, [])).Fail? ==>
        r == Fail(t.send(Sent("GET", path, [])).err)
      ensures t.newRequest("GET", account.server + path).None? && t.send(Sent("GET", path, [])).Ok?
              && !IsSuccess(t.send(Sent("GET", path, [])).value.status) ==>
        r == Fail(Error("incorrect status code returned"))
      ensures r.Ok? ==> r.value == t.send(Sent("GET", path, [])).value.body.value
    {
      var url := account.server + path;
      match t.newRequest("GET", url)
      case Some(e) => Fail(e)
      case None =>
        match t.send(Sent("GET", path, []))
        case Fail(e) => Fail(e)
        case Ok(resp) =>
          if resp.status < 200 || resp.status > 299 then Fail(Error("incorrect status code returned"))
          else resp.body
    }

    /** GetJSON(path, v): `Get`, then decoding; a `Get` error is returned as it
        is and nothing is decoded. */
    function GetJson<T>(path: string, t: Transport, unmarshal: seq<byte> -> Result<T>): (r: Result<T>)
      reads account
      ensures Get(path, t).Fail? ==> r == Fail(Get(path, t).err)
      ensures Get(path, t).Ok? ==> r == unmarshal(Get(path, t).value)
    {
      match Get(path, t)
      case Fail(e) => Fail(e)
      case Ok(body) => unmarshal(body)
    }

    /** PostReader(path, r): succeeds only on a 2xx answer. */
    function PostReader(path: string, body: seq<byte>, t: Transport): (r: Option<Error>)
      reads account
      ensures r.None? <==>
        && t.newRequest("POST", account.server + path).None?
        && t.send(Sent("POST", path, body)).Ok?
        && IsSuccess(t.send(Sent("POST", path, body)).value.status)
      ensures (t.newRequest("POST", account.server + path).None? && t.send(Sent("POST", path, body)).Ok?
        && !IsSuccess(t.send(Sent("POST", path, body)).value.status)) ==>
        r == Some(StatusError(t.send(Sent("POST", path, body)).value.status))
    {
      match t.newRequest("POST", account.server + path)
      case Some(e) => Some(e)
      case None =>
        match t.send(Sent("POST", path, body))
        case Fail(e) => Some(e)
        case Ok(resp) =>
          if resp.status < 200 || resp.status > 299 then Some(StatusError(resp.status))
          else None
    }

    /** Delete(path): succeeds on a 2xx answer and on 404. */
    function Delete(path: string, t: Transport): (r: Option<Error>)
      reads account
      ensures r.None? <==>
        && t.newRequest("DELETE", account.server + path).None?
        && t.send(Sent("DELETE", path, [])).Ok?
        && IsDeleteSuccess(t.send(Sent("DELETE", path, [])).value.status)
      ensures (t.newRequest("DELETE", account.server + path).None? && t.send(Sent("DELETE", path, [])).Ok?
        && !IsDeleteSuccess(t.send(Sent("DELETE", path, [])).value.status)) ==>
        r == Some(StatusError(t.send(Sent("DELETE", path, [])).value.status))
    {
      match t.newRequest("DELETE", account.server + path)
      case Some(e) => Some(e)
      case None =>
        match t.send(Sent("DELETE", path, []))
        case Fail(e) => Some(e)
        case Ok(resp) =>
          if (resp.status >= 200 && resp.status <= 299) || resp.status == 404 then None
          else Some(StatusError(resp.status))
    }
  }

  /** A 404 answer fails a read but not a delete. */
  lemma NotFoundOnlyAcceptedByDelete(api: Api, path: string, t: Transport)
    requires t.newRequest("GET", api.account.server + path).None?
    requires t.newRequest("DELETE", api.account.server + path).None?
    requires t.send(api.Sent("GET", path, [])) == Ok(Response(404, Ok([])))
    requires t.send(api.Sent("DELETE", path, [])) == Ok(Response(404, Ok([])))
    ensures api.Get(path, t).Fail?
    ensures api.Delete(path, t).None?
  {
  }

  /** CreateNewClient(ai): derives the JWT from the account's private key and
      only then rewrites `ai.Server`; on a key or token error `ai` is left as
      it was. */
  method CreateNewClient(ai: AccountInfo, signer: Signer, allowInsecure: bool) returns (r: Result<Api>)
    modifies ai
    ensures ai.address == old(ai.address) && ai.privKey == old(ai.privKey)
    ensures signer.pemToPrivKey(old(ai.privKey)).Fail? ==>
      r.Fail? && r.err == signer.pemToPrivKey(old(ai.privKey)).err && ai.server == old(ai.server)
    ensures signer.pemToPrivKey(old(ai.privKey)).Ok? ==>
      var token := signer.generateJwt(signer.stringToHash(old(ai.address)), signer.pemToPrivKey(old(ai.privKey)).value);
      && (token.Fail? ==> r.Fail? && r.err == token.err && ai.server == old(ai.server))
      && (token.Ok? ==>
            && r.Ok? && r.value.account == ai && r.value.jwt == token.value
            && r.value.timeoutSeconds == 30 && r.value.allowInsecure == allowInsecure
            && ai.server == NormalizeServer(old(ai.server)))
  {
    var privKey := signer.pemToPrivKey(ai.privKey);
    if privKey.Fail? {
      return Fail(privKey.err);
    }
    var jwtToken := signer.generateJwt(signer.stringToHash(ai.address), privKey.value);
    if jwtToken.Fail? {
      return Fail(jwtToken.err);
    }
    if !ContainsChar(ai.server, ':') {
      ai.server := ai.server + DefaultPort;
    }
    if !HasPrefix(ai.server, Scheme) {
      ai.server := Scheme + ai.server;
    }
    var api := new Api(ai, jwtToken.value, allowInsecure);
    r := Ok(api);
  }
}
