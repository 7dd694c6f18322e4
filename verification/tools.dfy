/**
 * The server's tool catalog (`list_tools`) and the way `call_tool` turns a
 * tool's arguments into a client operation: which keys are read, in which
 * order, which are required and what each optional one defaults to.
 */
module Tools {
  import opened Wrappers
  import opened Values
  import Client = TalosClient

  datatype Tool = Version | Containers | Stats | Logs | Reboot | Kubeconfig | Etcd | Apply

  /** The tools in the order `list_tools` returns them. */
  const AllTools: seq<Tool> := [Version, Containers, Stats, Logs, Reboot, Kubeconfig, Etcd, Apply]

  function Name(t: Tool): string {
    match t
    case Version => "talos_version"
    case Containers => "talos_list_containers"
    case Stats => "talos_system_stats"
    case Logs => "talos_service_logs"
    case Reboot => "talos_reboot"
    case Kubeconfig => "talos_kubeconfig"
    case Etcd => "talos_etcd_status"
    case Apply => "talos_apply_config"
  }

  /** The dispatch in `call_tool`: a name selects a tool exactly when it is that tool's name. */
  function ParseTool(name: string): (r: Option<Tool>)
    ensures r.Some? ==> Name(r.value) == name
    ensures r.None? ==> forall t: Tool :: Name(t) != name
  {
    if name == "talos_version" then Some(Version)
    else if name == "talos_list_containers" then Some(Containers)
    else if name == "talos_system_stats" then Some(Stats)
    else if name == "talos_service_logs" then Some(Logs)
    else if name == "talos_reboot" then Some(Reboot)
    else if name == "talos_kubeconfig" then Some(Kubeconfig)
    else if name == "talos_etcd_status" then Some(Etcd)
    else if name == "talos_apply_config" then Some(Apply)
    else None
  }

  /** Every tool is reached by its own name. */
  lemma ParseName(t: Tool)
    ensures ParseTool(Name(t)) == Some(t)
  {
  }

  // ------------------------------------------------------------ the catalog

  datatype Kind = StringKind | IntegerKind

  /** One entry of a tool's input schema `properties`. */
  datatype Property = Property(name: string, kind: Kind, default: Option<Value>)

  /** A tool as advertised: its name, its input properties in order, and its required keys. */
  datatype ToolSpec = ToolSpec(name: string, properties: seq<Property>, required: seq<string>)

  const EndpointProperty: Property := Property("endpoint", StringKind, None)

  function Properties(t: Tool): seq<Property> {
    match t
    case Containers => [Property("namespace", StringKind, Some(Str("k8s.io"))), EndpointProperty]
    case Logs => [Property("service", StringKind, None), Property("tail_lines", IntegerKind, Some(Int(100))), EndpointProperty]
    case Reboot => [EndpointProperty, Property("mode", StringKind, Some(Str("default")))]
    case Apply => [Property("config", StringKind, None), EndpointProperty, Property("mode", StringKind, Some(Str("auto")))]
    case _ => [EndpointProperty]
  }

  function Required(t: Tool): seq<string> {
    match t
    case Logs => ["service"]
    case Reboot => ["endpoint"]
    case Apply => ["config", "endpoint"]
    case _ => []
  }

  function Spec(t: Tool): ToolSpec {
    ToolSpec(Name(t), Properties(t), Required(t))
  }

  /** `list_tools`: the eight specifications, each under the name `call_tool` dispatches on. */
  function ListTools(): (r: seq<ToolSpec>)
    ensures |r| == |AllTools|
    ensures forall i :: 0 <= i < |r| ==> r[i].name == Name(AllTools[i])
  {
    seq(|AllTools|, i requires 0 <= i < |AllTools| => Spec(AllTools[i]))
  }

  function KindOf(v: Value): Option<Kind> {
    match v
    case Str(_) => Some(StringKind)
    case Int(_) => Some(IntegerKind)
    case _ => None
  }

  /** Tool names in the catalog are distinct. */
  lemma CatalogNamesDistinct()
    ensures forall i, j :: 0 <= i < j < |ListTools()| ==> ListTools()[i].name != ListTools()[j].name
  {
    var r := ListTools();
    forall i, j | 0 <= i < j < |r|
      ensures r[i].name != r[j].name
    {
      ParseName(AllTools[i]);
      ParseName(AllTools[j]);
    }
  }

  /** Every tool `call_tool` can dispatch to is advertised. */
  lemma CatalogCoversTools(t: Tool)
    ensures exists i :: 0 <= i < |ListTools()| && ListTools()[i] == Spec(t)
  {
    var i := match t
      case Version => 0 case Containers => 1 case Stats => 2 case Logs => 3
      case Reboot => 4 case Kubeconfig => 5 case Etcd => 6 case Apply => 7;
    assert ListTools()[i] == Spec(t);
  }

  /**
   * A tool's schema is consistent: property names are distinct, every
   * required key is a declared property without a default, and every
   * default has its property's kind.
   */
  lemma SchemaWellFormed(t: Tool)
    ensures forall i, j :: 0 <= i < j < |Spec(t).properties| ==>
      Spec(t).properties[i].name != Spec(t).properties[j].name
    ensures forall k :: k in Spec(t).required ==>
      exists p :: p in Spec(t).properties && p.name == k && p.default.None?
    ensures forall p :: p in Spec(t).properties && p.default.Some? ==> KindOf(p.default.value) == Some(p.kind)
  {
    var props := Spec(t).properties;
    match t
    case Logs =>
      assert props[0].name == "service" && props[0].default.None?;
    case Reboot =>
      assert props[0].name == "endpoint" && props[0].default.None?;
    case Apply =>
      assert props[0].name == "config" && props[0].default.None?;
      assert props[1].name == "endpoint" && props[1].default.None?;
    case _ =>
  }

  /** The catalog lists the four tools the server test looks for. */
  lemma ListedNames()
    ensures forall n :: n in ["talos_version", "talos_list_containers", "talos_system_stats", "talos_service_logs"] ==>
      exists i :: 0 <= i < |ListTools()| && ListTools()[i].name == n
  {
    var r := ListTools();
    assert r[0].name == "talos_version";
    assert r[1].name == "talos_list_containers";
    assert r[2].name == "talos_system_stats";
    assert r[3].name == "talos_service_logs";
  }

  // ------------------------------------------------------------ argument routing

  /**
   * The arguments branch of `call_tool` for a known tool: read the keys in
   * the source's order, with `arguments[key]` for required ones and
   * `arguments.get(key, default)` for the rest, and build the client call.
   */
  function Route(t: Tool, args: Value): Result<Client.Call, Error> {
    match t
    case Version =>
      var endpoint :- Get(args, "endpoint", Null);
      Ok(Client.GetVersion(endpoint))
    case Containers =>
      var namespace :- Get(args, "namespace", Str("k8s.io"));
      var endpoint :- Get(args, "endpoint", Null);
      Ok(Client.ListContainers(namespace, endpoint))
    case Stats =>
      var endpoint :- Get(args, "endpoint", Null);
      Ok(Client.GetSystemStats(endpoint))
    case Logs =>
      var service :- Subscript(args, "service");
      var tailLines :- Get(args, "tail_lines", Int(100));
      var endpoint :- Get(args, "endpoint", Null);
      Ok(Client.GetServiceLogs(service, tailLines, endpoint))
    case Reboot =>
      var endpoint :- Subscript(args, "endpoint");
      var mode :- Get(args, "mode", Str("default"));
      Ok(Client.RebootNode(endpoint, mode))
    case Kubeconfig =>
      var endpoint :- Get(args, "endpoint", Null);
      Ok(Client.GetKubernetesConfig(endpoint))
    case Etcd =>
      var endpoint :- Get(args, "endpoint", Null);
      Ok(Client.GetEtcdStatus(endpoint))
    case Apply =>
      var config :- Subscript(args, "config");
      var endpoint :- Subscript(args, "endpoint");
      var mode :- Get(args, "mode", Str("auto"));
      Ok(Client.ApplyConfiguration(config, endpoint, mode))
  }

  /** The tool an operation belongs to. */
  function ToolOf(call: Client.Call): Tool {
    match call
    case GetVersion(_) => Version
    case ListContainers(_, _) => Containers
    case GetSystemStats(_) => Stats
    case GetServiceLogs(_, _, _) => Logs
    case RebootNode(_, _) => Reboot
    case GetKubernetesConfig(_) => Kubeconfig
    case ApplyConfiguration(_, _, _) => Apply
    case GetEtcdStatus(_) => Etcd
  }

  /** An operation's arguments, keyed by the schema property each one comes from. */
  function CallArgs(call: Client.Call): map<string, Value> {
    match call
    case GetVersion(e) => map["endpoint" := e]
    case ListContainers(n, e) => map["namespace" := n, "endpoint" := e]
    case GetSystemStats(e) => map["endpoint" := e]
    case GetServiceLogs(s, l, e) => map["service" := s, "tail_lines" := l, "endpoint" := e]
    case RebootNode(e, m) => map["endpoint" := e, "mode" := m]
    case GetKubernetesConfig(e) => map["endpoint" := e]
    case ApplyConfiguration(c, e, m) => map["config" := c, "endpoint" := e, "mode" := m]
    case GetEtcdStatus(e) => map["endpoint" := e]
  }

  /** What the schema says a property is bound to: the argument if given, else its default, else nothing. */
  function BindOne(p: Property, m: map<string, Value>): Value {
    if p.name in m then m[p.name] else p.default.GetOr(Null)
  }

  function Bind(props: seq<Property>, m: map<string, Value>): map<string, Value> {
    if |props| == 0 then map[] else Bind(props[1..], m)[props[0].name := BindOne(props[0], m)]
  }

  lemma BindTwo(a: Property, b: Property, m: map<string, Value>)
    requires a.name != b.name
    ensures Bind([a, b], m) == map[a.name := BindOne(a, m), b.name := BindOne(b, m)]
  {
    assert [a, b][1..] == [b];
    assert [b][1..] == [];
    assert Bind([b], m) == map[b.name := BindOne(b, m)];
    assert Bind([a, b], m) == Bind([b], m)[a.name := BindOne(a, m)];
  }

  lemma BindThree(a: Property, b: Property, c: Property, m: map<string, Value>)
    requires a.name != b.name && b.name != c.name && a.name != c.name
    ensures Bind([a, b, c], m) == map[a.name := BindOne(a, m), b.name := BindOne(b, m), c.name := BindOne(c, m)]
  {
    assert [a, b, c][1..] == [b, c];
    BindTwo(b, c, m);
  }

  /** The first required key the arguments lack. */
  function FirstMissing(required: seq<string>, m: map<string, Value>): (r: Option<string>)
    ensures r.None? <==> forall k :: k in required ==> k in m
    ensures r.Some? ==> r.value in required && r.value !in m
  {
    if |required| == 0 then None
    else if required[0] !in m then Some(required[0])
    else FirstMissing(required[1..], m)
  }

  /** On a mapping, a call goes through iff no required key is missing, and otherwise fails on the first missing one. */
  lemma RouteRequired(t: Tool, m: map<string, Value>)
    ensures Route(t, Dict(m)).Ok? <==> FirstMissing(Spec(t).required, m).None?
    ensures Route(t, Dict(m)).Err? ==> Route(t, Dict(m)).error == KeyError(Repr(FirstMissing(Spec(t).required, m).value))
  {
    match t
    case Logs =>
      assert FirstMissing(["service"], m).None? <==> "service" in m;
    case Reboot =>
      assert FirstMissing(["endpoint"], m).None? <==> "endpoint" in m;
    case Apply =>
      assert FirstMissing(["endpoint"], m).None? <==> "endpoint" in m;
      assert FirstMissing(["config", "endpoint"], m) ==
        if "config" !in m then Some("config") else FirstMissing(["endpoint"], m);
    case _ =>
  }

  /** A routed call belongs to the tool and receives each property's argument, or its default. */
  lemma RouteBinding(t: Tool, m: map<string, Value>)
    requires Route(t, Dict(m)).Ok?
    ensures ToolOf(Route(t, Dict(m)).value) == t
    ensures CallArgs(Route(t, Dict(m)).value) == Bind(Spec(t).properties, m)
  {
    var props := Spec(t).properties;
    match t
    case Containers =>
      BindTwo(props[0], props[1], m);
    case Logs =>
      BindThree(props[0], props[1], props[2], m);
    case Reboot =>
      BindTwo(props[0], props[1], m);
    case Apply =>
      BindThree(props[0], props[1], props[2], m);
    case _ =>
  }

  /** Anything but a mapping fails on the first key read: a required one by subscript, else by `get`. */
  lemma RouteOnOther(t: Tool, args: Value)
    requires !args.Dict?
    ensures Route(t, args) == Err(
      if |Spec(t).required| == 0 then AttributeError(TypeName(args), "get")
      else Subscript(args, Spec(t).required[0]).error)
  {
  }

  /** The fixed defaults: each optional argument left out takes its schema default, and a missing endpoint is None. */
  lemma RouteDefaults(m: map<string, Value>)
    requires "namespace" !in m && "tail_lines" !in m && "mode" !in m && "endpoint" !in m
    ensures Route(Containers, Dict(m)) == Ok(Client.ListContainers(Str("k8s.io"), Null))
    ensures "service" in m ==> Route(Logs, Dict(m)) == Ok(Client.GetServiceLogs(m["service"], Int(100), Null))
    ensures Route(Reboot, Dict(m["endpoint" := Str("n")])) == Ok(Client.RebootNode(Str("n"), Str("default")))
    ensures "config" in m ==>
      Route(Apply, Dict(m["endpoint" := Str("n")])) == Ok(Client.ApplyConfiguration(m["config"], Str("n"), Str("auto")))
  {
  }

  /**
   * Routing agrees with the advertised schema. On a mapping, a call goes
   * through iff every required key is present; the operation then belongs
   * to the tool and receives each property's argument or its default;
   * otherwise the error is the KeyError of the first missing required key.
   * Anything but a mapping fails on the first key read.
   */
  lemma RouteMatchesCatalog(t: Tool, args: Value)
    ensures args.Dict? ==>
      (Route(t, args).Ok? <==> FirstMissing(Spec(t).required, args.entries).None?)
    ensures args.Dict? && Route(t, args).Ok? ==>
      ToolOf(Route(t, args).value) == t && CallArgs(Route(t, args).value) == Bind(Spec(t).properties, args.entries)
    ensures args.Dict? && Route(t, args).Err? ==>
      Route(t, args).error == KeyError(Repr(FirstMissing(Spec(t).required, args.entries).value))
    ensures !args.Dict? ==> Route(t, args) == Err(
      if |Spec(t).required| == 0 then AttributeError(TypeName(args), "get")
      else Subscript(args, Spec(t).required[0]).error)
  {
    if args.Dict? {
      RouteRequired(t, args.entries);
      if Route(t, args).Ok? {
        RouteBinding(t, args.entries);
      }
    } else {
      RouteOnOther(t, args);
    }
  }
}
