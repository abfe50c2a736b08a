/**
 * Connecting to the execution layer, from beacon/eth/execution.go: build the
 * endpoint (bearer-authenticated whenever a JWT secret is given), build the HTTP
 * headers, dial, then ask for the chain id up to 100 times until one attempt
 * answers.
 *
 * The network and the libraries under it are parameters: the endpoint-string
 * parse of prysm's `network.HttpEndpoint`, the dial, the
 * chain-id reply of each attempt, the header-value encoding of the
 * authorization, the header-key canonicalisation of `http.Header.Set`, and
 * the hex decoding of the secret.
 */
module ExecutionClient {
  import opened GoTypes
  import opened GoStrings

  /** `authorization.AuthorizationMethod`. */
  datatype AuthMethod = NoAuth | Basic | Bearer

  /** `authorization.AuthorizationData`. */
  datatype AuthorizationData = AuthorizationData(authMethod: AuthMethod, value: string)

  /** `network.Endpoint`. */
  datatype Endpoint = Endpoint(url: string, auth: AuthorizationData)

  /** HTTP headers, one value per key (`http.Header.Set` replaces what a key held). */
  type Headers = map<string, string>

  /** An RPC connection; the bridge only passes it on. */
  datatype RpcClient = RpcClient(id: nat)

  /** The execution client: the transaction pool and consensus APIs, both over one connection. */
  datatype ExecutionClient = ExecutionClient(txPool: RpcClient, consensus: RpcClient)

  /**
   * What the connection code takes from outside the bridge. `httpEndpoint` is
   * prysm's `network.HttpEndpoint`, which parses an endpoint string (it may
   * carry its own authorization); its body is not part of this model.
   */
  datatype Network = Network(
    httpEndpoint: string -> Endpoint,
    decodeSecret: string -> Bytes,
    toHeaderValue: AuthorizationData -> Result<string>,
    canonicalKey: string -> string,
    dial: (Endpoint, Headers) -> Result<RpcClient>,
    chainId: (RpcClient, nat) -> Result<int>)

  const AuthorizationHeader: string := "Authorization"
  const ConnectionFailed: string := "failed to establish connection to execution layer"

  /** How many times the chain id is asked for. */
  const MaxAttempts: nat := 100

  /**
   * `NewPrysmEndpoint`: the endpoint `httpEndpoint` parses from the string;
   * when the secret is not empty, its authorization is overwritten with bearer
   * authorization carrying the secret's bytes as a string.
   */
  function NewPrysmEndpoint(endpointString: string, secret: Bytes, httpEndpoint: string -> Endpoint): (e: Endpoint)
    ensures e.url == httpEndpoint(endpointString).url
    ensures |secret| == 0 ==> e == httpEndpoint(endpointString)
    ensures |secret| != 0 ==> e.auth == AuthorizationData(Bearer, BytesToString(secret))
  {
    if |secret| == 0 then httpEndpoint(endpointString)
    else httpEndpoint(endpointString).(auth := AuthorizationData(Bearer, BytesToString(secret)))
  }

  /**
   * One `key=value` header flag: empty flags and flags with no `=` are
   * skipped; otherwise the key is what comes before the first `=` and the
   * value everything after it, later `=` included.
   */
  function ParseHeader(h: string): Option<(string, string)>
  {
    if h == "" then None
    else
      var keyValue := Split(h, '=');
      if |keyValue| < 2 then None else Some((keyValue[0], Join(keyValue[1..], '=')))
  }

  /** A header flag is used exactly when it holds `=`; it is then its key, `=`, and its value, the key holding no `=`. */
  lemma ParseHeaderIff(h: string)
    ensures ParseHeader(h).Some? <==> '=' in h
    ensures ParseHeader(h).Some? ==>
      var (k, v) := ParseHeader(h).value;
      h == k + "=" + v && '=' !in k
  {
    if '=' in h {
      var i := IndexOf(h, '=');
      JoinSplit(h[i + 1..], '=');
      assert h == h[..i] + "=" + h[i + 1..];
    }
  }

  /** The headers before any flag: the authorization header when the endpoint is authenticated. */
  function AuthHeaders(endpoint: Endpoint, net: Network): Result<Headers>
  {
    if endpoint.auth.authMethod == NoAuth then Ok(map[])
    else
      match net.toHeaderValue(endpoint.auth)
      case Err(e) => Err(e)
      case Ok(header) => Ok(map[net.canonicalKey(AuthorizationHeader) := header])
  }

  /** The header flags applied in order to `headers`, each used flag setting its canonical key. */
  function ApplyHeaders(headers: Headers, flags: seq<string>, canonicalKey: string -> string): Headers
    decreases |flags|
  {
    if flags == [] then headers
    else
      var before := ApplyHeaders(headers, flags[..|flags| - 1], canonicalKey);
      match ParseHeader(flags[|flags| - 1])
      case None => before
      case Some((k, v)) => before[canonicalKey(k) := v]
  }

  /** Whether flag `h` is used and sets canonical key `key`. */
  predicate SetsKey(h: string, key: string, canonicalKey: string -> string)
  {
    ParseHeader(h).Some? && canonicalKey(ParseHeader(h).value.0) == key
  }

  /** A key no used flag sets keeps what it had, or stays absent. */
  lemma {:induction false} UntouchedKey(headers: Headers, flags: seq<string>, canonicalKey: string -> string, key: string)
    requires forall i :: 0 <= i < |flags| ==> !SetsKey(flags[i], key, canonicalKey)
    ensures key in ApplyHeaders(headers, flags, canonicalKey) <==> key in headers
    ensures key in headers ==> ApplyHeaders(headers, flags, canonicalKey)[key] == headers[key]
    decreases |flags|
  {
    if flags != [] {
      var init := flags[..|flags| - 1];
      assert forall i :: 0 <= i < |init| ==> init[i] == flags[i];
      UntouchedKey(headers, init, canonicalKey, key);
    }
  }

  /** The last used flag that sets a key decides its value. */
  lemma {:induction false} LastSetWins(headers: Headers, flags: seq<string>, canonicalKey: string -> string, i: nat)
    requires i < |flags| && ParseHeader(flags[i]).Some?
    requires forall j :: i < j < |flags| ==> !SetsKey(flags[j], canonicalKey(ParseHeader(flags[i]).value.0), canonicalKey)
    ensures var (k, v) := ParseHeader(flags[i]).value;
      canonicalKey(k) in ApplyHeaders(headers, flags, canonicalKey) &&
      ApplyHeaders(headers, flags, canonicalKey)[canonicalKey(k)] == v
    decreases |flags|
  {
    var init := flags[..|flags| - 1];
    var key := canonicalKey(ParseHeader(flags[i]).value.0);
    if i < |flags| - 1 {
      assert init[i] == flags[i];
      assert forall j :: i < j < |init| ==> init[j] == flags[j];
      LastSetWins(headers, init, canonicalKey, i);
      assert !SetsKey(flags[|flags| - 1], key, canonicalKey);
    }
  }

  /**
   * With no flag setting it, the Authorization header is present exactly when
   * the endpoint is authenticated, and then holds the encoded authorization.
   */
  lemma AuthorizationHeaderIff(endpoint: Endpoint, net: Network, flags: seq<string>)
    requires AuthHeaders(endpoint, net).Ok?
    requires forall i :: 0 <= i < |flags| ==> !SetsKey(flags[i], net.canonicalKey(AuthorizationHeader), net.canonicalKey)
    ensures var headers := ApplyHeaders(AuthHeaders(endpoint, net).value, flags, net.canonicalKey);
      && (net.canonicalKey(AuthorizationHeader) in headers <==> endpoint.auth.authMethod != NoAuth)
      && (endpoint.auth.authMethod != NoAuth ==>
            headers[net.canonicalKey(AuthorizationHeader)] == net.toHeaderValue(endpoint.auth).value)
  {
    UntouchedKey(AuthHeaders(endpoint, net).value, flags, net.canonicalKey, net.canonicalKey(AuthorizationHeader));
  }

  /**
   * A non-empty secret always reaches the dial: whatever the endpoint string
   * said about authorization, the Authorization header holds the encoded
   * bearer authorization of the secret, unless a flag sets that header.
   */
  lemma SecretGivesBearerHeader(endpointString: string, secret: Bytes, net: Network, flags: seq<string>)
    requires |secret| != 0
    requires net.toHeaderValue(AuthorizationData(Bearer, BytesToString(secret))).Ok?
    requires forall i :: 0 <= i < |flags| ==> !SetsKey(flags[i], net.canonicalKey(AuthorizationHeader), net.canonicalKey)
    ensures var endpoint := NewPrysmEndpoint(endpointString, secret, net.httpEndpoint);
      && AuthHeaders(endpoint, net).Ok?
      && var headers := ApplyHeaders(AuthHeaders(endpoint, net).value, flags, net.canonicalKey);
         && net.canonicalKey(AuthorizationHeader) in headers
         && headers[net.canonicalKey(AuthorizationHeader)] == net.toHeaderValue(AuthorizationData(Bearer, BytesToString(secret))).value
  {
    AuthorizationHeaderIff(NewPrysmEndpoint(endpointString, secret, net.httpEndpoint), net, flags);
  }

  /** `a=b=c` sets `a` to `b=c`. */
  lemma ParseHeaderKeepsLaterSeparators()
    ensures ParseHeader("a=b=c") == Some(("a", "b=c"))
  {
    ParseHeaderIff("a=b=c");
    var (k, v) := ParseHeader("a=b=c").value;
    assert "a=b=c" == k + "=" + v && '=' !in k;
    assert |k| == 1 by {
      assert k == ("a=b=c")[..|k|];
      assert ("a=b=c")[|k|] == '=';
    }
    assert k == "a";
  }

  /**
   * `newRPCClientWithAuth`: the headers are the authorization header (whose
   * encoding failure ends the call) followed by the flags, then the endpoint
   * is dialled with them. The flags are the values of the header map in the
   * order the map is iterated, which Go leaves unspecified.
   */
  method NewRPCClientWithAuth(flags: seq<string>, endpoint: Endpoint, net: Network) returns (client: Result<RpcClient>)
    ensures AuthHeaders(endpoint, net).Err? ==> client == Err(AuthHeaders(endpoint, net).error)
    ensures AuthHeaders(endpoint, net).Ok? ==>
      client == net.dial(endpoint, ApplyHeaders(AuthHeaders(endpoint, net).value, flags, net.canonicalKey))
  {
    var headers: Headers := map[];
    if endpoint.auth.authMethod != NoAuth {
      var header := net.toHeaderValue(endpoint.auth);
      if header.Err? {
        return Err(header.error);
      }
      headers := headers[net.canonicalKey(AuthorizationHeader) := header.value];
    }
    ghost var start := headers;
    var n := 0;
    while n < |flags|
      invariant 0 <= n <= |flags|
      invariant headers == ApplyHeaders(start, flags[..n], net.canonicalKey)
    {
      assert flags[..n + 1][..n] == flags[..n];
      var h := flags[n];
      n := n + 1;
      if h == "" {
        continue;
      }
      var keyValue := Split(h, '=');
      if |keyValue| < 2 {
        continue;
      }
      headers := headers[net.canonicalKey(keyValue[0]) := Join(keyValue[1..], '=')];
    }
    assert flags[..n] == flags;
    client := net.dial(endpoint, headers);
  }

  /** The first attempt below `n` at which the chain id is answered, if any. */
  function FirstAnswer(chainId: nat -> Result<int>, n: nat): (k: Option<nat>)
    ensures k.Some? ==> k.value < n && chainId(k.value).Ok? && forall j :: 0 <= j < k.value ==> chainId(j).Err?
    ensures k.None? ==> forall j :: 0 <= j < n ==> chainId(j).Err?
  {
    if n == 0 then None
    else
      var k := FirstAnswer(chainId, n - 1);
      if k.Some? then k else if chainId(n - 1).Ok? then Some(n - 1) else None
  }

  /**
   * `NewRemoteExecutionClient`: decode the secret, build the endpoint, connect
   * with no header flags, then ask for the chain id until an attempt answers,
   * at most 100 times. `attempts` is how many times it asked. The client is
   * returned when an attempt answered; otherwise the last attempt's error is
   * wrapped.
   */
  method NewRemoteExecutionClient(dialURL: string, jwtSecret: string, net: Network)
    returns (r: Result<ExecutionClient>, attempts: nat)
    ensures var endpoint := NewPrysmEndpoint(dialURL, net.decodeSecret(jwtSecret), net.httpEndpoint);
      && (AuthHeaders(endpoint, net).Err? ==> r == Err(AuthHeaders(endpoint, net).error) && attempts == 0)
      && (AuthHeaders(endpoint, net).Ok? && net.dial(endpoint, AuthHeaders(endpoint, net).value).Err? ==>
            r == Err(net.dial(endpoint, AuthHeaders(endpoint, net).value).error) && attempts == 0)
      && (AuthHeaders(endpoint, net).Ok? && net.dial(endpoint, AuthHeaders(endpoint, net).value).Ok? ==>
            var client := net.dial(endpoint, AuthHeaders(endpoint, net).value).value;
            var first := FirstAnswer((j: nat) => net.chainId(client, j), MaxAttempts);
            && 1 <= attempts <= MaxAttempts
            && (first.Some? ==> r == Ok(ExecutionClient(client, client)) && attempts == first.value + 1)
            && (first.None? ==>
                  (attempts == MaxAttempts && r == Err(Wrapped(ConnectionFailed, net.chainId(client, MaxAttempts - 1).error)))))
  {
    var jwtSecretR := net.decodeSecret(jwtSecret);
    var endpoint := NewPrysmEndpoint(dialURL, jwtSecretR, net.httpEndpoint);
    assert ApplyHeaders(map[], [], net.canonicalKey) == map[];
    var client := NewRPCClientWithAuth([], endpoint, net);
    if client.Err? {
      return Err(client.error), 0;
    }
    ghost var answers := (j: nat) => net.chainId(client.value, j);
    var chainID: Result<int> := Err(Error(""));
    var i := 0;
    while i < MaxAttempts
      invariant 0 <= i <= MaxAttempts
      invariant FirstAnswer(answers, i).None?
      invariant i > 0 ==> chainID == net.chainId(client.value, i - 1)
    {
      chainID := net.chainId(client.value, i);
      if chainID.Err? {
        i := i + 1;
        continue;
      }
      assert FirstAnswer(answers, i + 1) == Some(i);
      return Ok(ExecutionClient(client.value, client.value)), i + 1;
    }
    return Err(Wrapped(ConnectionFailed, chainID.error)), MaxAttempts;
  }
}
