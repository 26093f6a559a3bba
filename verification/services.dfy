/** The API client (src/services/services.ts): the request interceptor that attaches the stored
    token as a bearer credential (section 2.1 of RFC 6750), and the method and path of every
    endpoint of `apiService`. */
module Services {
  import opened Wrappers
  import opened Chars

  // ---------------------------------------------------------------------------------------
  // Token storage and the request interceptor
  // ---------------------------------------------------------------------------------------

  /** Browser local storage, as a map from keys to strings. */
  type Storage = map<string, string>

  const TokenKey := "token"

  /** `localStorage.getItem("token")`: the token, or `null`. */
  function StoredToken(store: Storage): (t: Option<string>)
    ensures t.Some? <==> TokenKey in store
    ensures t.Some? ==> t.value == store[TokenKey]
  {
    if TokenKey in store then Some(store[TokenKey]) else None
  }

  /** A successful login keeps the returned token when it is non-empty. */
  function SaveToken(store: Storage, token: string): (r: Storage)
    ensures token != "" ==> StoredToken(r) == Some(token)
    ensures token == "" ==> r == store
    ensures forall k :: k != TokenKey ==> (k in r <==> k in store) && (k in r ==> r[k] == store[k])
  {
    if token != "" then store[TokenKey := token] else store
  }

  /** Logging out removes the token and nothing else. */
  function RemoveToken(store: Storage): (r: Storage)
    ensures StoredToken(r).None?
    ensures forall k :: k != TokenKey ==> (k in r <==> k in store) && (k in r ==> r[k] == store[k])
  {
    store - {TokenKey}
  }

  datatype Method = Get | Post | Put | Delete

  /** The parts of an outgoing request configuration the model tracks. */
  datatype RequestConfig = RequestConfig(verb: Method, url: string, headers: map<string, string>, body: Option<string>)

  const AuthorizationHeader := "Authorization"
  const BearerPrefix := "Bearer "

  /** The request interceptor: when the stored token is present and non-empty (JavaScript
      truthiness), the `Authorization` header becomes `Bearer <token>`; the configuration is
      otherwise returned untouched. */
  function Intercept(cfg: RequestConfig, stored: Option<string>): (r: RequestConfig)
    ensures r.verb == cfg.verb && r.url == cfg.url && r.body == cfg.body
    ensures forall h :: h != AuthorizationHeader ==>
      (h in r.headers <==> h in cfg.headers) && (h in r.headers ==> r.headers[h] == cfg.headers[h])
    ensures stored.None? || stored.value == "" ==> r == cfg
  {
    if stored.Some? && stored.value != "" then
      cfg.(headers := cfg.headers[AuthorizationHeader := BearerPrefix + stored.value])
    else cfg
  }

  /** `s` begins with `p`; then `Drop(s, p)` is what follows. */
  predicate StartsWith(s: string, p: string) {
    |p| <= |s| && s[..|p|] == p
  }

  function Drop(s: string, p: string): (r: string)
    requires StartsWith(s, p)
    ensures p + r == s
  {
    s[|p|..]
  }

  /** Reads the credential of a bearer `Authorization` value: the text after `Bearer `, if any. */
  function BearerCredential(value: string): Option<string> {
    if StartsWith(value, BearerPrefix) && |value| > |BearerPrefix| then Some(Drop(value, BearerPrefix)) else None
  }

  /** The header the interceptor writes carries exactly the stored token: reading it back as a
      bearer credential recovers the token, and no token means no credential is added. */
  lemma InterceptCarriesToken(cfg: RequestConfig, stored: Option<string>)
    ensures stored.Some? && stored.value != "" ==>
      AuthorizationHeader in Intercept(cfg, stored).headers
      && BearerCredential(Intercept(cfg, stored).headers[AuthorizationHeader]) == stored
  {
    if stored.Some? && stored.value != "" {
      var v := BearerPrefix + stored.value;
      assert v[..|BearerPrefix|] == BearerPrefix;
      assert Drop(v, BearerPrefix) == stored.value;
    }
  }

  /** After logout a request carries whatever `Authorization` it was built with, and no
      stored credential. */
  lemma NoCredentialAfterLogout(cfg: RequestConfig, store: Storage)
    ensures Intercept(cfg, StoredToken(RemoveToken(store))) == cfg
  {
  }

  /** How the interceptor stage settles: the configuration to send, or a rejection. */
  datatype RequestError = RequestError(reason: string)

  /** The interceptor pair: the success callback on a configuration, and the error callback,
      which rejects with the very error it received. */
  function RunInterceptor(stage: Result<RequestConfig, RequestError>, stored: Option<string>): (r: Result<RequestConfig, RequestError>)
    ensures r.Failure? <==> stage.Failure?
    ensures stage.Failure? ==> r.error == stage.error
    ensures stage.Success? ==> r.value.verb == stage.value.verb && r.value.url == stage.value.url
  {
    match stage
    case Success(cfg) => Success(Intercept(cfg, stored))
    case Failure(e) => Failure(e)
  }

  // ---------------------------------------------------------------------------------------
  // Decimal text of numeric ids
  // ---------------------------------------------------------------------------------------

  predicate AllDigits(s: string) { forall i :: 0 <= i < |s| ==> IsDigit(s[i]) }

  function DigitChar(d: int): (c: char)
    requires 0 <= d < 10
    ensures IsDigit(c)
  {
    ('0' as int + d) as char
  }

  function DigitValue(c: char): (d: nat)
    requires IsDigit(c)
    ensures d < 10 && DigitChar(d) == c
  {
    c as int - '0' as int
  }

  /** The decimal numeral of a natural number, most significant digit first. */
  function NatText(n: nat): (s: string)
    ensures |s| > 0 && AllDigits(s)
  {
    if n < 10 then [DigitChar(n)] else NatText(n / 10) + [DigitChar(n % 10)]
  }

  /** How a template literal renders an integer: its numeral, with a minus sign if negative. */
  function IntText(n: int): (s: string)
    ensures |s| > 0
  {
    if n < 0 then "-" + NatText(-n) else NatText(n)
  }

  /** The value of a non-empty digit string. */
  function DigitsValue(s: string): nat
    requires |s| > 0 && AllDigits(s)
  {
    if |s| == 1 then DigitValue(s[0])
    else DigitsValue(s[..|s| - 1]) * 10 + DigitValue(s[|s| - 1])
  }

  /** Reads an optionally signed decimal integer. */
  function ParseInt(s: string): Option<int> {
    if |s| > 0 && s[0] == '-' then
      (if |s| > 1 && AllDigits(s[1..]) then var v: int := DigitsValue(s[1..]); Some(-v) else None)
    else if |s| > 0 && AllDigits(s) then Some(DigitsValue(s))
    else None
  }

  lemma {:induction false} NatTextRoundTrip(n: nat)
    ensures DigitsValue(NatText(n)) == n
  {
    if n >= 10 {
      NatTextRoundTrip(n / 10);
      var s := NatText(n);
      assert s[..|s| - 1] == NatText(n / 10);
    }
  }

  /** Reading back the rendered numeral gives the number. */
  lemma IntTextRoundTrip(n: int)
    ensures ParseInt(IntText(n)) == Some(n)
  {
    if n < 0 {
      NatTextRoundTrip(-n);
      assert IntText(n)[1..] == NatText(-n);
    } else {
      NatTextRoundTrip(n);
    }
  }

  /** Distinct numbers render as distinct numerals. */
  lemma IntTextInjective(a: int, b: int)
    requires IntText(a) == IntText(b)
    ensures a == b
  {
    IntTextRoundTrip(a);
    IntTextRoundTrip(b);
  }

  // ---------------------------------------------------------------------------------------
  // Endpoints
  // ---------------------------------------------------------------------------------------

  /** A record id as the callers pass it: a string or a number. */
  datatype Id = Text(s: string) | Num(n: int)

  /** The text a template literal interpolates for an id. */
  function IdText(id: Id): string {
    match id
    case Text(s) => s
    case Num(n) => IntText(n)
  }

  /** The operations of `apiService` that reach the gym API; request bodies are not modelled. */
  datatype Endpoint =
    | GetClients | CreateClient | UpdateClient(id: Id) | DeleteClient(id: Id)
    | GetPlans | CreatePlan | UpdatePlan(id: Id) | DeletePlan(id: Id)
    | GetMemberships | CreateMembership | RenewMembership(membership: int) | DeleteMembership(id: Id)
    | GetHistoryPagos | SendMessageIA | GetAlertClient

  datatype Request = Request(verb: Method, path: string)

  const ClientsPath := "/clients"
  const PlansPath := "/plans"
  const MembershipsPath := "/memberships"
  const RenewSuffix := "/renew"

  /** The method and path (relative to the API base URL) each operation requests. */
  function Route(e: Endpoint): (r: Request)
    ensures StartsWith(r.path, "/")
  {
    match e
    case GetClients => Request(Get, ClientsPath)
    case CreateClient => Request(Post, ClientsPath)
    case UpdateClient(id) => Request(Put, ClientsPath + "/" + IdText(id))
    case DeleteClient(id) => Request(Delete, ClientsPath + "/" + IdText(id))
    case GetPlans => Request(Get, PlansPath)
    case CreatePlan => Request(Post, PlansPath)
    case UpdatePlan(id) => Request(Put, PlansPath + "/" + IdText(id))
    case DeletePlan(id) => Request(Delete, PlansPath + "/" + IdText(id))
    case GetMemberships => Request(Get, MembershipsPath)
    case CreateMembership => Request(Post, MembershipsPath)
    case RenewMembership(n) => Request(Post, MembershipsPath + "/" + IntText(n) + RenewSuffix)
    case DeleteMembership(id) => Request(Delete, MembershipsPath + "/" + IdText(id))
    case GetHistoryPagos => Request(Get, "/payments")
    case SendMessageIA => Request(Post, "/analizar")
    case GetAlertClient => Request(Get, ClientsPath + "/alert")
  }

  /** The same operation with every id written as the text it is interpolated as. */
  function Canonical(e: Endpoint): Endpoint {
    match e
    case UpdateClient(id) => UpdateClient(Text(IdText(id)))
    case DeleteClient(id) => DeleteClient(Text(IdText(id)))
    case UpdatePlan(id) => UpdatePlan(Text(IdText(id)))
    case DeletePlan(id) => DeletePlan(Text(IdText(id)))
    case DeleteMembership(id) => DeleteMembership(Text(IdText(id)))
    case _ => e
  }

  /** The text after `prefix`, when the path starts with it. */
  function After(path: string, prefix: string): Option<string> {
    if StartsWith(path, prefix) then Some(Drop(path, prefix)) else None
  }

  /** The server's view of a request: which operation a method and path denote. */
  function ParseRoute(r: Request): Option<Endpoint> {
    var p := r.path;
    match r.verb
    case Get =>
      if p == ClientsPath then Some(GetClients)
      else if p == PlansPath then Some(GetPlans)
      else if p == MembershipsPath then Some(GetMemberships)
      else if p == "/payments" then Some(GetHistoryPagos)
      else if p == ClientsPath + "/alert" then Some(GetAlertClient)
      else None
    case Post =>
      if p == ClientsPath then Some(CreateClient)
      else if p == PlansPath then Some(CreatePlan)
      else if p == MembershipsPath then Some(CreateMembership)
      else if p == "/analizar" then Some(SendMessageIA)
      else
        var rest := After(p, MembershipsPath + "/");
        if rest.Some? && |rest.value| >= |RenewSuffix| && rest.value[|rest.value| - |RenewSuffix|..] == RenewSuffix then
          var n := ParseInt(rest.value[..|rest.value| - |RenewSuffix|]);
          if n.Some? then Some(RenewMembership(n.value)) else None
        else None
    case Put =>
      if After(p, ClientsPath + "/").Some? then Some(UpdateClient(Text(After(p, ClientsPath + "/").value)))
      else if After(p, PlansPath + "/").Some? then Some(UpdatePlan(Text(After(p, PlansPath + "/").value)))
      else None
    case Delete =>
      if After(p, ClientsPath + "/").Some? then Some(DeleteClient(Text(After(p, ClientsPath + "/").value)))
      else if After(p, PlansPath + "/").Some? then Some(DeletePlan(Text(After(p, PlansPath + "/").value)))
      else if After(p, MembershipsPath + "/").Some? then Some(DeleteMembership(Text(After(p, MembershipsPath + "/").value)))
      else None
  }

  lemma AfterConcat(prefix: string, rest: string)
    ensures After(prefix + rest, prefix) == Some(rest)
  {
    assert (prefix + rest)[..|prefix|] == prefix;
  }

  /** Two strings differing at a position both reach: neither starts with the other's prefix. */
  lemma NotAfter(path: string, prefix: string, i: nat)
    requires i < |path| && i < |prefix| && path[i] != prefix[i]
    ensures After(path, prefix).None?
  {
    if |prefix| <= |path| {
      assert path[..|prefix|][i] == path[i];
    }
  }

  /** Every request the client sends names its operation unambiguously: parsing the method and
      path gives back the operation, with ids as the text they were written as. */
  lemma RouteRoundTrip(e: Endpoint)
    ensures ParseRoute(Route(e)) == Some(Canonical(e))
  {
    var r := Route(e);
    match e
    case UpdateClient(id) =>
      AfterConcat(ClientsPath + "/", IdText(id));
    case DeleteClient(id) =>
      AfterConcat(ClientsPath + "/", IdText(id));
    case UpdatePlan(id) =>
      NotAfter(r.path, ClientsPath + "/", 1);
      AfterConcat(PlansPath + "/", IdText(id));
    case DeletePlan(id) =>
      NotAfter(r.path, ClientsPath + "/", 1);
      AfterConcat(PlansPath + "/", IdText(id));
    case DeleteMembership(id) =>
      NotAfter(r.path, ClientsPath + "/", 1);
      NotAfter(r.path, PlansPath + "/", 1);
      AfterConcat(MembershipsPath + "/", IdText(id));
    case RenewMembership(n) =>
      var digits := IntText(n);
      assert r.path == (MembershipsPath + "/") + (digits + RenewSuffix);
      AfterConcat(MembershipsPath + "/", digits + RenewSuffix);
      var rest := digits + RenewSuffix;
      assert rest[|rest| - |RenewSuffix|..] == RenewSuffix;
      assert rest[..|rest| - |RenewSuffix|] == digits;
      IntTextRoundTrip(n);
      assert |r.path| > |ClientsPath| && |r.path| > |PlansPath| && |r.path| > |MembershipsPath| && |r.path| > |"/analizar"|;
    case _ =>
  }

  /** Distinct ids give distinct paths, and renewal paths never coincide for distinct
      memberships. */
  lemma PathsInjective(e1: Endpoint, e2: Endpoint)
    requires Route(e1) == Route(e2)
    ensures Canonical(e1) == Canonical(e2)
  {
    RouteRoundTrip(e1);
    RouteRoundTrip(e2);
  }
}
