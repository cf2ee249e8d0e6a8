/**
 * The frontend's HTTP client: an object holding the backend's base URL and
 * the current token (mirrored in the browser's storage), which builds each
 * request's URL and headers and unwraps the backend's JSON reply into
 * `{ data }` or `{ error }`. The network is a parameter: each call is given
 * the outcome of its `fetch`.
 */
module Api {
  import opened Wrappers
  import opened Text
  import opened Numbers
  import Rfv

  /** A parsed JSON value; an object keeps the last of duplicate keys, as `JSON.parse` does. */
  datatype Json = JNull | JBool(b: bool) | JNumber(n: real) | JString(s: string) | JArray(items: seq<Json>) | JObject(fields: map<string, Json>)

  /** JavaScript truthiness of a parsed value. */
  predicate JsonTruthy(j: Json) {
    match j
    case JNull => false
    case JBool(b) => b
    case JNumber(n) => n != 0.0
    case JString(s) => s != ""
    case _ => true
  }

  /** `value.key` on a parsed value other than null: only an object with that key has it. */
  function Field(j: Json, key: string): (r: Option<Json>)
    ensures r.Some? <==> j.JObject? && key in j.fields
  {
    if j.JObject? && key in j.fields then Some(j.fields[key]) else None
  }

  /** What `request` resolves to: `{ data }` or `{ error }`. */
  datatype ApiResult = Data(data: Json) | Problem(error: Json)

  /**
   * The outcome of `fetch` for one request: it threw (with the message of what
   * was thrown, if any), or the server answered with a status that is ok or
   * not and a body that is JSON or is not (with the parse error's message).
   */
  datatype Transport = Thrown(message: Option<string>) | Answered(ok: bool, body: Json) | Unreadable(ok: bool, parseMessage: string)

  const DefaultError := "Erro na requisição"
  const ConnectionError := "Erro de conexão"
  const BackendDown := "Backend não está rodando. Verifique se o servidor está iniciado."

  /** The `catch` of `request`: a refused connection becomes the backend-down message, any other error its own message. */
  function CatchError(message: Option<string>): (r: ApiResult)
    ensures r.Problem? && JsonTruthy(r.error)
    ensures message.Some? && (Contains(message.value, "Failed to fetch") || Contains(message.value, "ERR_CONNECTION_REFUSED")) ==>
      r.error == JString(BackendDown)
    ensures message.Some? && message.value != "" && !Contains(message.value, "Failed to fetch") && !Contains(message.value, "ERR_CONNECTION_REFUSED") ==>
      r.error == JString(message.value)
    ensures !Truthy(message) ==> r.error == JString(ConnectionError)
  {
    if message.Some? && (Contains(message.value, "Failed to fetch") || Contains(message.value, "ERR_CONNECTION_REFUSED")) then
      Problem(JString(BackendDown))
    else
      Problem(JString(StringOr(message, ConnectionError)))
  }

  /**
   * The reply handling of `request`. A body that is JSON `null` makes reading
   * `.data` or `.error` throw; `nullMessage` is the message of that error.
   */
  function Unwrap(t: Transport, nullMessage: string): (r: ApiResult)
    ensures r.Data? <==> t.Answered? && t.ok && !t.body.JNull?
    ensures r.Problem? ==> JsonTruthy(r.error)
  {
    match t
    case Thrown(m) => CatchError(m)
    case Unreadable(ok, m) => if ok then CatchError(Some(m)) else Problem(JString(DefaultError))
    case Answered(ok, body) =>
      if body.JNull? then CatchError(Some(nullMessage))
      else if !ok then
        match Field(body, "error")
        case Some(e) => if JsonTruthy(e) then Problem(e) else Problem(JString(DefaultError))
        case None => Problem(JString(DefaultError))
      else
        match Field(body, "data")
        case Some(d) => Data(d)
        case None => Data(body)
  }

  /** The envelope the backend's handlers send: `{ data }` with a success status, `{ error }` with an error status. */
  function Envelope(payload: Json, error: Option<string>): Json {
    if error.None? then JObject(map["data" := payload]) else JObject(map["error" := JString(error.value)])
  }

  /** The client unwraps what the backend wraps: the payload of `{ data }`, the message of `{ error }`, the default for an empty message. */
  lemma UnwrapEnvelope(payload: Json, message: string, nullMessage: string)
    ensures Unwrap(Answered(true, Envelope(payload, None)), nullMessage) == Data(payload)
    ensures Unwrap(Answered(false, Envelope(payload, Some(message))), nullMessage) ==
      Problem(JString(if message != "" then message else DefaultError))
  {
    assert Field(Envelope(payload, None), "data") == Some(payload);
    assert Field(Envelope(payload, Some(message)), "error") == Some(JString(message));
  }

  /** A successful reply without a `data` key is passed through whole. */
  lemma UnwrapBareReply(body: Json, nullMessage: string)
    requires !body.JNull? && Field(body, "data").None?
    ensures Unwrap(Answered(true, body), nullMessage) == Data(body)
  {
  }

  /** `endpoint.startsWith('/') ? endpoint : '/' + endpoint`. */
  function NormalizeEndpoint(endpoint: string): (r: string)
    ensures StartsWith(r, "/")
    ensures StartsWith(endpoint, "/") ==> r == endpoint
    ensures !StartsWith(endpoint, "/") ==> r == "/" + endpoint
  {
    if StartsWith(endpoint, "/") then endpoint else "/" + endpoint
  }

  lemma NormalizeEndpointIdempotent(endpoint: string)
    ensures NormalizeEndpoint(NormalizeEndpoint(endpoint)) == NormalizeEndpoint(endpoint)
  {
  }

  function Url(baseUrl: string, endpoint: string): string {
    baseUrl + NormalizeEndpoint(endpoint)
  }

  /**
   * With a base URL as the constructor leaves it, the URL is the base and
   * then the endpoint, joined by exactly one `/`.
   */
  lemma UrlSingleSlash(rawBase: string, endpoint: string)
    ensures var b := StripTrailingSlashes(rawBase);
      var u := Url(b, endpoint);
      u[..|b|] == b && u[|b|..] == NormalizeEndpoint(endpoint) && u[|b|] == '/' && (|b| == 0 || u[|b| - 1] != '/')
  {
    var b := StripTrailingSlashes(rawBase);
    var e := NormalizeEndpoint(endpoint);
    assert e[..1] == "/";
    assert (b + e)[|b|] == e[0];
  }

  /** The request headers: JSON content type, the caller's headers over it, and the bearer token when there is one. */
  function Headers(token: Option<string>, caller: map<string, string>): (h: map<string, string>)
    ensures h.Keys == caller.Keys + {"Content-Type"} + (if Truthy(token) then {"Authorization"} else {})
    ensures h["Content-Type"] == if "Content-Type" in caller then caller["Content-Type"] else "application/json"
    ensures Truthy(token) ==> h["Authorization"] == "Bearer " + token.value
    ensures forall k :: k in caller && !(k == "Authorization" && Truthy(token)) ==> h[k] == caller[k]
  {
    var merged := map["Content-Type" := "application/json"] + caller;
    if Truthy(token) then merged["Authorization" := "Bearer " + token.value] else merged
  }

  /** The client sends an `Authorization` header of its own exactly when its token is truthy. */
  lemma AuthorizationIffToken(token: Option<string>)
    ensures "Authorization" in Headers(token, map[]) <==> Truthy(token)
  {
  }

  /** What the client keeps and what the browser's storage holds agree whenever either holds a token. */
  predicate Persisted(token: Option<string>, storage: Option<string>) {
    (Truthy(token) || Truthy(storage)) ==> token == storage
  }

  /** A client whose token is persisted sends the same headers as one reloaded from storage. */
  lemma ReloadSendsSameHeaders(token: Option<string>, storage: Option<string>, caller: map<string, string>)
    requires Persisted(token, storage)
    ensures Headers(token, caller) == Headers(storage, caller)
  {
  }

  /** `result.data?.session?.access_token`, when it is a non-empty string. */
  function AccessToken(r: ApiResult): (t: Option<string>)
    ensures t.Some? ==> t.value != ""
  {
    if r.Problem? then None
    else
      match Field(r.data, "session")
      case None => None
      case Some(session) =>
        match Field(session, "access_token")
        case Some(JString(s)) => if s != "" then Some(s) else None
        case _ => None
  }

  /** A sign-in reply as the backend sends it yields its access token. */
  lemma AccessTokenOfSignInReply(user: Json, token: string, nullMessage: string)
    requires token != ""
    ensures var payload := JObject(map["user" := user, "session" := JObject(map["access_token" := JString(token)])]);
      AccessToken(Unwrap(Answered(true, payload), nullMessage)) == Some(token)
  {
    var session := JObject(map["access_token" := JString(token)]);
    var payload := JObject(map["user" := user, "session" := session]);
    assert Field(payload, "data").None?;
    assert Field(payload, "session") == Some(session);
    assert Field(session, "access_token") == Some(JString(token));
  }

  /** The frontend's single client object. */
  class ApiClient {
    var baseUrl: string
    var token: Option<string>
    /** The browser storage entry `auth_token`. */
    ghost var storage: Option<string>

    ghost predicate Valid()
      reads this
    {
      Persisted(token, storage)
    }

    /** Trailing slashes are dropped from the base URL and the token is loaded from storage. */
    constructor(baseUrl: string, stored: Option<string>)
      ensures this.baseUrl == StripTrailingSlashes(baseUrl)
      ensures token == stored && storage == stored
      ensures Valid()
    {
      this.baseUrl := StripTrailingSlashes(baseUrl);
      token := stored;
      storage := stored;
    }

    /** The field takes the new token; storage is written for a truthy token and cleared otherwise. */
    method SetToken(t: Option<string>)
      modifies this
      ensures token == t
      ensures storage == if Truthy(t) then t else None
      ensures baseUrl == old(baseUrl)
      ensures Valid()
    {
      token := t;
      if Truthy(t) {
        storage := t;
      } else {
        storage := None;
      }
    }

    /** `request`: the URL and headers it sends and what it resolves to, given the outcome of the fetch. */
    method Request(endpoint: string, caller: map<string, string>, outcome: Transport, nullMessage: string)
      returns (url: string, headers: map<string, string>, result: ApiResult)
      ensures url == Url(baseUrl, endpoint)
      ensures headers == Headers(token, caller)
      ensures result == Unwrap(outcome, nullMessage)
    {
      url := baseUrl + NormalizeEndpoint(endpoint);
      headers := Headers(token, caller);
      result := Unwrap(outcome, nullMessage);
    }

    /** `signIn`: the token is replaced only when the reply carries an access token. */
    method SignIn(outcome: Transport, nullMessage: string) returns (result: ApiResult)
      requires Valid()
      modifies this
      ensures result == Unwrap(outcome, nullMessage)
      ensures AccessToken(result).Some? ==> token == AccessToken(result) && storage == token
      ensures AccessToken(result).None? ==> token == old(token) && storage == old(storage)
      ensures baseUrl == old(baseUrl)
      ensures Valid()
    {
      var url, headers;
      url, headers, result := Request("/api/auth/signin", map[], outcome, nullMessage);
      var t := AccessToken(result);
      if t.Some? {
        SetToken(t);
      }
    }

    /** `signOut`: the token is cleared whatever the server answered. */
    method SignOut(outcome: Transport, nullMessage: string) returns (result: ApiResult)
      modifies this
      ensures result == Unwrap(outcome, nullMessage)
      ensures token == None && storage == None
      ensures baseUrl == old(baseUrl)
      ensures Valid()
    {
      var url, headers;
      url, headers, result := Request("/api/auth/signout", map[], outcome, nullMessage);
      SetToken(None);
    }
  }

  /** Query-string parameters in the order they are appended. */
  type Params = seq<(string, string)>

  /** `params.get(key)`: the first value appended under the key. */
  function Lookup(ps: Params, key: string): (r: Option<string>)
    ensures r.None? <==> forall i :: 0 <= i < |ps| ==> ps[i].0 != key
  {
    if ps == [] then None else if ps[0].0 == key then Some(ps[0].1) else Lookup(ps[1..], key)
  }

  /** `params.toString()`, with `encode` the form encoding of one name or value. */
  function QueryString(ps: Params, encode: string -> string): (q: string)
    ensures q == "" <==> ps == []
  {
    if ps == [] then ""
    else
      var pair := encode(ps[0].0) + "=" + encode(ps[0].1);
      if |ps| == 1 then pair else pair + "&" + QueryString(ps[1..], encode)
  }

  /** `params.toString() ? path + '?' + params : path`. */
  function WithQuery(path: string, ps: Params, encode: string -> string): (url: string)
    ensures ps == [] ==> url == path
    ensures ps != [] ==> url == path + "?" + QueryString(ps, encode)
  {
    var q := QueryString(ps, encode);
    if q != "" then path + "?" + q else path
  }

  /** A text parameter is appended when truthy. */
  function TextParam(key: string, value: Option<string>): Params {
    if Truthy(value) then [(key, value.value)] else []
  }

  /** A numeric parameter is appended unless null or undefined, so `0` is sent. */
  function NumberParam(key: string, value: Option<int>): Params {
    if value.Some? then [(key, IntToString(value.value))] else []
  }

  function ClassificacaoParams(valor: Option<int>, status: Option<string>): Params {
    NumberParam("valor", valor) + TextParam("status", status)
  }

  function ValorParams(classificacao: Option<string>, status: Option<string>): Params {
    TextParam("classificacao", classificacao) + TextParam("status", status)
  }

  function RecFreqParams(classificacao: Option<string>, valor: Option<int>, status: Option<string>): Params {
    TextParam("classificacao", classificacao) + NumberParam("valor", valor) + TextParam("status", status)
  }

  function StatusParams(classificacao: Option<string>, valor: Option<int>): Params {
    TextParam("classificacao", classificacao) + NumberParam("valor", valor)
  }

  /** `getGeoloc(rfv)`: the flag is sent only for `true`. */
  function GeolocUrl(rfv: Option<bool>): (url: string)
    ensures '?' in url <==> rfv == Some(true)
  {
    if rfv == Some(true) then "/api/geoloc?rfv=true" else "/api/geoloc"
  }

  lemma LookupAppend(a: Params, b: Params, key: string)
    ensures Lookup(a + b, key) == if Lookup(a, key).Some? then Lookup(a, key) else Lookup(b, key)
  {
    if a != [] {
      assert (a + b)[1..] == a[1..] + b;
      LookupAppend(a[1..], b, key);
    } else {
      assert a + b == b;
    }
  }

  /** What the server reads back from a text parameter. */
  function SentText(value: Option<string>): Option<Rfv.Operand> {
    if Truthy(value) && value.value != "null" then Some(Rfv.Text(value.value)) else None
  }

  /** What the server reads back from a numeric parameter. */
  function SentNumber(value: Option<int>): Option<Rfv.Operand> {
    if value.Some? then Some(Rfv.Number(Some(value.value))) else None
  }

  lemma TextParamReadBack(key: string, value: Option<string>)
    ensures Rfv.Expected(Lookup(TextParam(key, value), key), false) == SentText(value)
  {
  }

  lemma NumberParamReadBack(key: string, value: Option<int>)
    ensures Rfv.Expected(Lookup(NumberParam(key, value), key), true) == SentNumber(value)
  {
    if value.Some? {
      ParseIntOfIntToString(value.value);
      var s := IntToString(value.value);
      assert s != "" && s != "null" by {
        if value.value >= 0 { assert IsDigit(s[0]); }
      }
    }
  }

  /**
   * The filters the `/classificacao` route applies are the ones the chart
   * asked for: `valor` whenever it was given, 0 included, and `status` when
   * truthy and not the text `null`.
   */
  lemma ClassificacaoFiltersReachServer(valor: Option<int>, status: Option<string>)
    ensures var ps := ClassificacaoParams(valor, status);
      var conds := Rfv.ClassConditions(Lookup(ps, "valor"), Lookup(ps, "status"));
      Rfv.FilterOn(conds, "valor") == SentNumber(valor) && Rfv.FilterOn(conds, "status") == SentText(status)
  {
    var v, s := NumberParam("valor", valor), TextParam("status", status);
    LookupAppend(v, s, "valor");
    LookupAppend(v, s, "status");
    NumberParamReadBack("valor", valor);
    TextParamReadBack("status", status);
    Rfv.ClassConditionsFollowParameters(Lookup(v + s, "valor"), Lookup(v + s, "status"));
  }

  /** The filters the `/valor` route applies are the ones the chart asked for. */
  lemma ValorFiltersReachServer(classificacao: Option<string>, status: Option<string>)
    ensures var ps := ValorParams(classificacao, status);
      var conds := Rfv.ValorConditions(Lookup(ps, "classificacao"), Lookup(ps, "status"));
      Rfv.FilterOn(conds, "classificacao") == SentText(classificacao) && Rfv.FilterOn(conds, "status") == SentText(status)
  {
    var c, s := TextParam("classificacao", classificacao), TextParam("status", status);
    LookupAppend(c, s, "classificacao");
    LookupAppend(c, s, "status");
    TextParamReadBack("classificacao", classificacao);
    TextParamReadBack("status", status);
    Rfv.ValorConditionsFollowParameters(Lookup(c + s, "classificacao"), Lookup(c + s, "status"));
  }

  /** The filters the `/recencia-frequencia` route applies are the ones the chart asked for. */
  lemma RecFreqFiltersReachServer(classificacao: Option<string>, valor: Option<int>, status: Option<string>)
    ensures var ps := RecFreqParams(classificacao, valor, status);
      var conds := Rfv.RecFreqConditions(Lookup(ps, "classificacao"), Lookup(ps, "valor"), Lookup(ps, "status"));
      Rfv.FilterOn(conds, "classificacao") == SentText(classificacao) &&
      Rfv.FilterOn(conds, "valor") == SentNumber(valor) && Rfv.FilterOn(conds, "status") == SentText(status)
  {
    var c, v, s := TextParam("classificacao", classificacao), NumberParam("valor", valor), TextParam("status", status);
    LookupAppend(c + v, s, "classificacao");
    LookupAppend(c + v, s, "valor");
    LookupAppend(c + v, s, "status");
    LookupAppend(c, v, "classificacao");
    LookupAppend(c, v, "valor");
    LookupAppend(c, v, "status");
    TextParamReadBack("classificacao", classificacao);
    NumberParamReadBack("valor", valor);
    TextParamReadBack("status", status);
    var ps := c + v + s;
    Rfv.RecFreqConditionsFollowParameters(Lookup(ps, "classificacao"), Lookup(ps, "valor"), Lookup(ps, "status"));
  }

  /** The filters the `/status` route applies are the ones the chart asked for. */
  lemma StatusFiltersReachServer(classificacao: Option<string>, valor: Option<int>)
    ensures var ps := StatusParams(classificacao, valor);
      var conds := Rfv.StatusConditions(Lookup(ps, "classificacao"), Lookup(ps, "valor"));
      Rfv.FilterOn(conds, "classificacao") == SentText(classificacao) && Rfv.FilterOn(conds, "valor") == SentNumber(valor)
  {
    var c, v := TextParam("classificacao", classificacao), NumberParam("valor", valor);
    LookupAppend(c, v, "classificacao");
    LookupAppend(c, v, "valor");
    TextParamReadBack("classificacao", classificacao);
    NumberParamReadBack("valor", valor);
    Rfv.StatusConditionsFollowParameters(Lookup(c + v, "classificacao"), Lookup(c + v, "valor"));
  }
}
