/**
 * `TalosClient` (talos_client.py): one lazily created, cached channel per
 * client, chosen from the configuration's endpoints and TLS material, and
 * the eight node operations, each of which first obtains that channel.
 * The operations return fixed sample payloads, so what they contribute to
 * the model is whether they succeed and which channel they run on.
 */
module TalosClient {
  import opened Wrappers
  import opened Values
  import opened TalosConfig
  import Base64

  /** A channel as created by the gRPC library; creating one never fails. */
  datatype Channel =
    | Secure(target: Value, rootCertificates: seq<Base64.byte>, privateKey: seq<Base64.byte>, certificateChain: seq<Base64.byte>)
    | Insecure(target: Value)

  /** The client's attributes: its configuration and the cached channel, if any. */
  datatype Client = Client(config: Config, channel: Option<Channel>)

  /** The constructor: load the configuration; no channel exists yet. */
  function New(file: ConfigFile): (r: Result<Client, Error>)
    ensures r.Ok? <==> Open(file).Ok?
    ensures r.Ok? ==> r.value.config == Open(file).value && r.value.channel == None
    ensures r.Err? ==> r.error == Open(file).error
  {
    match Open(file)
    case Ok(config) => Ok(Client(config, None))
    case Err(e) => Err(e)
  }

  /** `endpoint or endpoints[0]`: the first element is only consulted when no endpoint is given. */
  function Target(endpoint: Value, endpoints: Value): (r: Result<Value, Error>)
    ensures Truthy(endpoint) ==> r == Ok(endpoint)
    ensures !Truthy(endpoint) ==> r == First(endpoints)
  {
    if Truthy(endpoint) then Ok(endpoint) else First(endpoints)
  }

  /** Python truthiness of an optional byte string: present and non-empty. */
  predicate Present(b: Option<seq<Base64.byte>>) {
    b.Some? && |b.value| > 0
  }

  /** The part of `connect` that runs when nothing is cached: validate, pick the target, pick the security. */
  function Build(config: Config, endpoint: Value): (r: Result<Channel, Error>)
    ensures r.Ok? <==>
      && Endpoints(config).Ok? && Truthy(Endpoints(config).value)
      && Target(endpoint, Endpoints(config).value).Ok?
      && CaCert(config).Ok? && ClientCert(config).Ok? && ClientKey(config).Ok?
    ensures Endpoints(config).Ok? && !Truthy(Endpoints(config).value) ==>
      r == Err(ValueError("No endpoints configured"))
    ensures r.Ok? ==> r.value.target == Target(endpoint, Endpoints(config).value).value
    ensures r.Ok? ==>
      (r.value.Secure? <==> Present(CaCert(config).value) && Present(ClientCert(config).value) && Present(ClientKey(config).value))
    ensures r.Ok? && r.value.Secure? ==>
      && r.value.rootCertificates == CaCert(config).value.value
      && r.value.certificateChain == ClientCert(config).value.value
      && r.value.privateKey == ClientKey(config).value.value
  {
    match Endpoints(config)
    case Err(e) => Err(e)
    case Ok(endpoints) =>
      if !Truthy(endpoints) then Err(ValueError("No endpoints configured"))
      else
        match Target(endpoint, endpoints)
        case Err(e) => Err(e)
        case Ok(target) =>
          match CaCert(config)
          case Err(e) => Err(e)
          case Ok(ca) =>
            match ClientCert(config)
            case Err(e) => Err(e)
            case Ok(crt) =>
              match ClientKey(config)
              case Err(e) => Err(e)
              case Ok(key) =>
                if Present(ca) && Present(crt) && Present(key) then
                  Ok(Secure(target, ca.value, key.value, crt.value))
                else
                  Ok(Insecure(target))
  }

  /**
   * `connect`: a cached channel is returned whatever endpoint is asked for;
   * otherwise a new one is built and cached. A failure leaves the client as it was.
   */
  function Connect(c: Client, endpoint: Value): (r: (Client, Result<Channel, Error>))
    ensures c.channel.Some? ==> r == (c, Ok(c.channel.value))
    ensures c.channel.None? ==> r.1 == Build(c.config, endpoint)
    ensures r.1.Ok? ==> r.0 == c.(channel := Some(r.1.value))
    ensures r.1.Err? ==> r.0 == c
  {
    if c.channel.Some? then (c, Ok(c.channel.value))
    else
      match Build(c.config, endpoint)
      case Ok(channel) => (c.(channel := Some(channel)), Ok(channel))
      case Err(e) => (c, Err(e))
  }

  /** `close`: drop the cached channel; the configuration is kept. */
  function Close(c: Client): (r: Client)
    ensures r.channel.None? && r.config == c.config
    ensures c.channel.None? ==> r == c
  {
    c.(channel := None)
  }

  /** The operations, with the arguments the server passes them. */
  datatype Call =
    | GetVersion(endpoint: Value)
    | ListContainers(namespace: Value, endpoint: Value)
    | GetSystemStats(endpoint: Value)
    | GetServiceLogs(service: Value, tailLines: Value, endpoint: Value)
    | RebootNode(endpoint: Value, mode: Value)
    | GetKubernetesConfig(endpoint: Value)
    | ApplyConfiguration(config: Value, endpoint: Value, mode: Value)
    | GetEtcdStatus(endpoint: Value)

  /**
   * Every operation runs `connect` on its endpoint argument and, once that
   * succeeds, returns its payload; a connection error is re-raised. The
   * result is the channel the operation ran on.
   */
  function Invoke(c: Client, call: Call): (r: (Client, Result<Channel, Error>))
    ensures c.channel.Some? ==> r == (c, Ok(c.channel.value))
    ensures c.channel.None? ==> r.1 == Build(c.config, call.endpoint)
    ensures r.1.Ok? ==> r.0 == c.(channel := Some(r.1.value))
    ensures r.1.Err? ==> r.0 == c && c.channel.None?
  {
    Connect(c, call.endpoint)
  }

  /** A sequence of operations on one client, each outcome recorded in order. */
  function Run(c: Client, calls: seq<Call>): (r: (Client, seq<Result<Channel, Error>>))
    ensures |r.1| == |calls|
    decreases |calls|
  {
    if |calls| == 0 then (c, [])
    else
      var (c1, outcome) := Invoke(c, calls[0]);
      var (c2, outcomes) := Run(c1, calls[1..]);
      (c2, [outcome] + outcomes)
  }

  /** Once a channel is cached, every later operation runs on it and the client does not change. */
  lemma {:induction false} CachedChannelIsFixed(c: Client, calls: seq<Call>)
    requires c.channel.Some?
    ensures Run(c, calls).0 == c
    ensures forall i :: 0 <= i < |calls| ==> Run(c, calls).1[i] == Ok(c.channel.value)
    decreases |calls|
  {
    if |calls| > 0 {
      CachedChannelIsFixed(c, calls[1..]);
    }
  }

  /** All operations of a run that succeed ran on one and the same channel. */
  lemma {:induction false} SuccessfulCallsShareChannel(c: Client, calls: seq<Call>, i: nat, j: nat)
    requires i < |calls| && j < |calls|
    requires Run(c, calls).1[i].Ok? && Run(c, calls).1[j].Ok?
    ensures Run(c, calls).1[i] == Run(c, calls).1[j]
    decreases |calls|
  {
    if c.channel.Some? {
      CachedChannelIsFixed(c, calls);
    } else {
      var (c1, first) := Invoke(c, calls[0]);
      var rest := Run(c1, calls[1..]);
      assert Run(c, calls).1 == [first] + rest.1;
      if first.Ok? {
        CachedChannelIsFixed(c1, calls[1..]);
      } else {
        assert c1 == c;
        if i > 0 && j > 0 {
          SuccessfulCallsShareChannel(c1, calls[1..], i - 1, j - 1);
        }
      }
    }
  }

  /** After closing, the next connection is built afresh from the configuration. */
  lemma CloseThenConnect(c: Client, endpoint: Value)
    ensures Connect(Close(c), endpoint).1 == Build(c.config, endpoint)
  {
  }

  /**
   * A reboot aimed at one node after a connection to another still runs on
   * the first node's channel: the endpoint argument is ignored once cached.
   */
  lemma RebootUsesCachedTarget(c: Client, first: string, second: string, mode: Value)
    requires c.channel.None? && first != ""
    requires Connect(c, Str(first)).1.Ok?
    ensures var c1 := Connect(c, Str(first)).0;
      && Invoke(c1, RebootNode(Str(second), mode)).1.Ok?
      && Invoke(c1, RebootNode(Str(second), mode)).1.value.target == Str(first)
  {
  }

  /**
   * With a falsy endpoint argument, None or an empty string alike, an
   * operation on a fresh client targets the first configured endpoint; so
   * does a reboot whose `endpoint` argument is present but empty.
   */
  lemma DefaultTargetIsFirstEndpoint(c: Client, call: Call, endpoints: seq<Value>)
    requires c.channel.None? && !Truthy(call.endpoint)
    requires Endpoints(c.config) == Ok(List(endpoints)) && |endpoints| > 0
    requires Invoke(c, call).1.Ok?
    ensures Invoke(c, call).1.value.target == endpoints[0]
  {
  }

  // ------------------------------------------------------------ typed documents

  /** `Build` in terms of what the accessors return for a well-formed context. */
  lemma BuildOfMaterial(config: Config, endpoint: Value, endpoints: seq<string>,
                        ca: seq<Base64.byte>, crt: seq<Base64.byte>, key: seq<Base64.byte>)
    requires Endpoints(config) == Ok(List(Strs(endpoints)))
    requires CaCert(config) == Ok(Material(ca))
    requires ClientCert(config) == Ok(Material(crt))
    requires ClientKey(config) == Ok(Material(key))
    ensures var r := Build(config, endpoint);
      && (r.Ok? <==> |endpoints| > 0)
      && (|endpoints| == 0 ==> r == Err(ValueError("No endpoints configured")))
      && (r.Ok? ==> r.value.target == if Truthy(endpoint) then endpoint else Str(endpoints[0]))
      && (r.Ok? ==> (r.value.Secure? <==> |ca| > 0 && |crt| > 0 && |key| > 0))
      && (r.Ok? && r.value.Secure? ==>
            r.value.rootCertificates == ca && r.value.certificateChain == crt && r.value.privateKey == key)
  {
    if |endpoints| > 0 {
      assert First(List(Strs(endpoints))) == Ok(Str(endpoints[0]));
    }
  }

  /**
   * End to end over a rendered talosconfig: a fresh client connects iff the
   * active context lists an endpoint; the channel targets the given endpoint,
   * or the first listed one; it is secure iff all three credentials are set,
   * and then carries exactly the configured material.
   */
  lemma ConnectRendered(f: TalosFile, endpoint: Value)
    ensures New(Parsed(Render(f))).Ok? && New(Parsed(Render(f))).value.channel.None?
    ensures var r := Connect(New(Parsed(Render(f))).value, endpoint).1;
      var a := Active(f);
      && (r.Ok? <==> |a.endpoints| > 0)
      && (|a.endpoints| == 0 ==> r == Err(ValueError("No endpoints configured")))
      && (r.Ok? ==> r.value.target == if Truthy(endpoint) then endpoint else Str(a.endpoints[0]))
      && (r.Ok? ==> (r.value.Secure? <==> |a.ca| > 0 && |a.crt| > 0 && |a.key| > 0))
      && (r.Ok? && r.value.Secure? ==>
            r.value.rootCertificates == a.ca && r.value.certificateChain == a.crt && r.value.privateKey == a.key)
  {
    LoadRendered(f);
    var c := New(Parsed(Render(f))).value;
    var a := Active(f);
    BuildOfMaterial(c.config, endpoint, a.endpoints, a.ca, a.crt, a.key);
    assert Connect(c, endpoint).1 == Build(c.config, endpoint);
  }

  /** The client test's document: one context with one endpoint and no TLS material. */
  const OneNode: TalosFile := TalosFile("test-cluster", map["test-cluster" := Context(["192.168.1.10:50000"], [], [], [])])

  /** A new client has the named context loaded, has not connected, and would connect without TLS. */
  lemma OneNodeFixture()
    ensures New(Parsed(Render(OneNode))).Ok?
    ensures var c := New(Parsed(Render(OneNode))).value;
      && c.config.contextName == Str("test-cluster")
      && c.channel == None
      && Connect(c, Null).1 == Ok(Insecure(Str("192.168.1.10:50000")))
  {
    LoadRendered(OneNode);
    ConnectRendered(OneNode, Null);
  }

  const CaCertBytes: seq<Base64.byte> := [99, 97, 45, 99, 101, 114, 116]
  const ClientCertBytes: seq<Base64.byte> := [99, 108, 105, 101, 110, 116, 45, 99, 101, 114, 116]
  const ClientKeyBytes: seq<Base64.byte> := [99, 108, 105, 101, 110, 116, 45, 107, 101, 121]

  /** The integration test's document: two endpoints and full TLS material. */
  const TwoNodes: TalosFile := TalosFile("test-cluster", map["test-cluster" :=
    Context(["192.168.1.10:50000", "192.168.1.11:50000"], CaCertBytes, ClientCertBytes, ClientKeyBytes)])

  /** Both endpoints are listed, and a fresh client opens a TLS channel to the first one by default. */
  lemma TwoNodesFixture()
    ensures New(Parsed(Render(TwoNodes))).Ok?
    ensures var c := New(Parsed(Render(TwoNodes))).value;
      && c.config.contextName == Str("test-cluster")
      && Endpoints(c.config).Ok? && Endpoints(c.config).value.List? && |Endpoints(c.config).value.items| == 2
      && Connect(c, Null).1 == Ok(Secure(Str("192.168.1.10:50000"), CaCertBytes, ClientKeyBytes, ClientCertBytes))
  {
    LoadRendered(TwoNodes);
    ConnectRendered(TwoNodes, Null);
    assert Active(TwoNodes).endpoints[0] == "192.168.1.10:50000";
  }
}
