/**
 * `call_tool` of the MCP server (server.py): the lazily created shared
 * client, dispatch on the tool name, and the conversion of every failure
 * inside the dispatch into an error text. A failure while creating the
 * client happens before that conversion and escapes to the caller.
 */
module Server {
  import opened Wrappers
  import opened Values
  import opened Tools
  import TalosConfig
  import Client = TalosClient

  /** One text item of a reply. A successful operation's text is rendered from the operation alone. */
  datatype Content =
    | Rendered(call: Client.Call)
    | Text(text: string)

  /** What `call_tool` produces: a raised exception, or the list of text items it returns. */
  datatype Response =
    | Raised(error: Error)
    | Contents(items: seq<Content>)

  /** The closure's `talos_client` variable. */
  datatype State = State(client: Option<Client.Client>)

  const Initial: State := State(None)

  function UnknownTool(name: string): string {
    "Unknown tool: " + name
  }

  function ErrorText(name: string, e: Error): string {
    "Error executing " + name + ": " + Message(e)
  }

  /**
   * `call_tool`. The configuration file is what `TALOSCONFIG` (or the
   * default path) holds at the moment the client is first needed.
   */
  function CallTool(s: State, file: TalosConfig.ConfigFile, name: string, args: Value): (r: (State, Response))
    ensures s.client.None? && Client.New(file).Err? ==> r == (s, Raised(Client.New(file).error))
    ensures r.1.Raised? ==> r.0 == s && s.client.None?
    ensures r.1.Contents? ==> |r.1.items| == 1 && r.0.client.Some?
    ensures r.1.Contents? && s.client.Some? ==>
      && r.0.client.value.config == s.client.value.config
      && (s.client.value.channel.Some? ==> r.0.client.value == s.client.value)
    ensures r.1.Contents? && s.client.None? ==> r.0.client.value.config == Client.New(file).value.config
    ensures ParseTool(name).None? && r.1.Contents? ==>
      r.1.items == [Text(UnknownTool(name))]
      && r.0.client.value.channel == (if s.client.Some? then s.client.value.channel else None)
    ensures r.1.Contents? && r.1.items[0].Rendered? ==>
      ParseTool(name).Some? && Route(ParseTool(name).value, args) == Ok(r.1.items[0].call)
  {
    var client :=
      if s.client.Some? then Ok(s.client.value) else Client.New(file);
    match client
    case Err(e) => (s, Raised(e))
    case Ok(c) =>
      match ParseTool(name)
      case None => (State(Some(c)), Contents([Text(UnknownTool(name))]))
      case Some(t) =>
        match Route(t, args)
        case Err(e) => (State(Some(c)), Contents([Text(ErrorText(name, e))]))
        case Ok(call) =>
          var (c1, outcome) := Client.Invoke(c, call);
          match outcome
          case Err(e) => (State(Some(c1)), Contents([Text(ErrorText(name, e))]))
          case Ok(_) => (State(Some(c1)), Contents([Rendered(call)]))
  }

  /**
   * The reply for a known tool, in terms of routing and connecting: an
   * argument error or a connection error becomes one error text naming the
   * tool, and otherwise the operation's own text is returned.
   */
  lemma KnownToolReply(s: State, file: TalosConfig.ConfigFile, t: Tool, args: Value)
    requires s.client.Some? || Client.New(file).Ok?
    ensures var c := if s.client.Some? then s.client.value else Client.New(file).value;
      var r := CallTool(s, file, Name(t), args);
      && (Route(t, args).Err? ==> r == (State(Some(c)), Contents([Text(ErrorText(Name(t), Route(t, args).error))])))
      && (Route(t, args).Ok? ==>
            var (c1, outcome) := Client.Connect(c, Route(t, args).value.endpoint);
            && r.0 == State(Some(c1))
            && (outcome.Err? ==> r.1 == Contents([Text(ErrorText(Name(t), outcome.error))]))
            && (outcome.Ok? ==> r.1 == Contents([Rendered(Route(t, args).value)])))
  {
    ParseName(t);
  }

  lemma RebootMissingEndpointText()
    ensures ErrorText(Name(Reboot), KeyError(Repr("endpoint"))) == "Error executing talos_reboot: 'endpoint'"
  {
  }

  /** A reboot request without an `endpoint` key is answered with the tool's KeyError text, and no node is contacted. */
  lemma RebootWithoutEndpoint(s: State, file: TalosConfig.ConfigFile, args: map<string, Value>)
    requires s.client.Some?
    requires "endpoint" !in args
    ensures CallTool(s, file, "talos_reboot", Dict(args)) ==
      (s, Contents([Text("Error executing talos_reboot: 'endpoint'")]))
  {
    ParseName(Reboot);
    assert Route(Reboot, Dict(args)) == Err(KeyError(Repr("endpoint")));
    RebootMissingEndpointText();
  }

  /** A configuration without endpoints turns every known tool call with valid arguments into the same error text. */
  lemma NoEndpointsReply(s: State, file: TalosConfig.ConfigFile, t: Tool, args: Value)
    requires s.client.Some? && s.client.value.channel.None?
    requires TalosConfig.Endpoints(s.client.value.config) == Ok(List([]))
    requires Route(t, args).Ok?
    ensures CallTool(s, file, Name(t), args) ==
      (s, Contents([Text(ErrorText(Name(t), ValueError("No endpoints configured")))]))
  {
    KnownToolReply(s, file, t, args);
  }

  // ------------------------------------------------------------ a session

  datatype Request = Request(name: string, args: Value)

  /** A sequence of requests against one server; the file is read whenever a client is still needed. */
  function Serve(s: State, file: TalosConfig.ConfigFile, requests: seq<Request>): (r: (State, seq<Response>))
    ensures |r.1| == |requests|
    decreases |requests|
  {
    if |requests| == 0 then (s, [])
    else
      var (s1, response) := CallTool(s, file, requests[0].name, requests[0].args);
      var (s2, responses) := Serve(s1, file, requests[1..]);
      (s2, [response] + responses)
  }

  /**
   * Once a client exists, it is kept and never rebuilt: no later request
   * raises, its configuration never changes, and a cached channel survives.
   */
  lemma {:induction false} ClientIsKept(s: State, file: TalosConfig.ConfigFile, requests: seq<Request>)
    requires s.client.Some?
    ensures Serve(s, file, requests).0.client.Some?
    ensures Serve(s, file, requests).0.client.value.config == s.client.value.config
    ensures s.client.value.channel.Some? ==> Serve(s, file, requests).0.client == s.client
    ensures forall i :: 0 <= i < |requests| ==> Serve(s, file, requests).1[i].Contents?
    decreases |requests|
  {
    if |requests| > 0 {
      var (s1, response) := CallTool(s, file, requests[0].name, requests[0].args);
      ClientIsKept(s1, file, requests[1..]);
    }
  }

  /**
   * With a loadable configuration the client is built by the first request,
   * whatever it asks for, from that configuration, and every request is
   * answered with one text item.
   */
  lemma ClientBuiltOnFirstRequest(file: TalosConfig.ConfigFile, requests: seq<Request>)
    requires Client.New(file).Ok? && |requests| > 0
    ensures Serve(Initial, file, requests).0.client.Some?
    ensures Serve(Initial, file, requests).0.client.value.config == Client.New(file).value.config
    ensures forall i :: 0 <= i < |requests| ==> Serve(Initial, file, requests).1[i].Contents?
  {
    var (s1, response) := CallTool(Initial, file, requests[0].name, requests[0].args);
    ClientIsKept(s1, file, requests[1..]);
  }

  /** While the configuration cannot be loaded, every request raises and no client is kept. */
  lemma {:induction false} LoadFailureRaisesEveryTime(file: TalosConfig.ConfigFile, requests: seq<Request>)
    requires Client.New(file).Err?
    ensures Serve(Initial, file, requests).0 == Initial
    ensures forall i :: 0 <= i < |requests| ==> Serve(Initial, file, requests).1[i] == Raised(Client.New(file).error)
    decreases |requests|
  {
    if |requests| > 0 {
      LoadFailureRaisesEveryTime(file, requests[1..]);
    }
  }
}
