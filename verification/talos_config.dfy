/**
 * `TalosConfig` (talos_client.py): the active context picked out of an
 * already-parsed talosconfig document, and the accessors for its endpoint
 * list and its base64-encoded TLS material. Reading the file and parsing the
 * YAML are outside the model; the constructor is given what it would find.
 */
module TalosConfig {
  import opened Wrappers
  import opened Values
  import Base64

  /** What the constructor finds at the configuration path. */
  datatype ConfigFile =
    | Missing                    // the path does not exist, so nothing is loaded
    | Unreadable(reason: string) // opening or parsing raised with this message
    | Parsed(document: Value)    // the YAML loader produced this value

  /** The three attributes the loader sets: `config`, `context_name` and `context`. */
  datatype Config = Config(document: Value, contextName: Value, context: Value)

  const EmptyDict: Value := Dict(map[])

  /** The attributes as the constructor initialises them, before any load. */
  const Unloaded: Config := Config(EmptyDict, Null, EmptyDict)

  /**
   * `load`: read the `context` key; when it names something, look it up in
   * `contexts`, falling back to an empty mapping. Any failure propagates.
   */
  function Load(document: Value): (r: Result<Config, Error>)
    ensures !document.Dict? ==> r == Err(AttributeError(TypeName(document), "get"))
    ensures r.Ok? ==> r.value.document == document
    ensures document.Dict? ==>
      var m := document.entries;
      var name := if "context" in m then m["context"] else Null;
      && (r.Ok? ==> r.value.contextName == name)
      && (!Truthy(name) ==> r == Ok(Config(document, name, EmptyDict)))
      && (Truthy(name) && name.Str? ==>
            var contexts := if "contexts" in m then m["contexts"] else EmptyDict;
            && (contexts.Dict? ==> r == Ok(Config(document, name,
                  if name.s in contexts.entries then contexts.entries[name.s] else EmptyDict)))
            && (!contexts.Dict? ==> r == Err(AttributeError(TypeName(contexts), "get"))))
  {
    match Get(document, "context", Null)
    case Err(e) => Err(e)
    case Ok(name) =>
      if !Truthy(name) then
        Ok(Config(document, name, EmptyDict))
      else
        match Get(document, "contexts", EmptyDict)
        case Err(e) => Err(e)
        case Ok(contexts) =>
          match GetByValue(contexts, name, EmptyDict)
          case Err(e) => Err(e)
          case Ok(context) => Ok(Config(document, name, context))
  }

  /** The constructor: a missing file leaves every attribute empty; otherwise the file is loaded. */
  function Open(file: ConfigFile): (r: Result<Config, Error>)
    ensures file.Missing? ==> r == Ok(Unloaded)
    ensures file.Unreadable? ==> r == Err(LoadError(file.reason))
    ensures file.Parsed? ==> r == Load(file.document)
  {
    match file
    case Missing => Ok(Unloaded)
    case Unreadable(reason) => Err(LoadError(reason))
    case Parsed(document) => Load(document)
  }

  /** `get_endpoints`: the context's `endpoints` entry as stored, or an empty list. */
  function Endpoints(c: Config): (r: Result<Value, Error>)
    ensures c.context.Dict? ==>
      r == Ok(if "endpoints" in c.context.entries then c.context.entries["endpoints"] else List([]))
    ensures !c.context.Dict? ==> r.Err?
  {
    Get(c.context, "endpoints", List([]))
  }

  predicate IsAscii(s: string) {
    forall i :: 0 <= i < |s| ==> s[i] as int < 128
  }

  /** `base64.b64decode` applied to a parsed value: only an ASCII string is accepted. */
  function B64Decode(v: Value): (r: Result<seq<Base64.byte>, Error>)
    ensures r.Ok? ==> v.Str? && (|r.value| == 0 <==> |v.s| == 0)
  {
    match v
    case Str(s) =>
      if !IsAscii(s) then Err(ValueError("string argument should contain only ASCII characters"))
      else
        (match Base64.Decode(s)
         case Ok(bytes) => Ok(bytes)
         case Err(f) => Err(BinasciiError(Base64.FailureMessage(f))))
    case _ => Err(TypeError("argument should be a bytes-like object or ASCII string, not '" + TypeName(v) + "'"))
  }

  /** The shared body of the three credential getters: absent or falsy is `None`, otherwise decoded. */
  function Credential(c: Config, field: string): (r: Result<Option<seq<Base64.byte>>, Error>)
    ensures r.Ok? && r.value.Some? ==> |r.value.value| > 0
    ensures c.context.Dict? ==>
      (r == Ok(None) <==> !(field in c.context.entries && Truthy(c.context.entries[field])))
    ensures !c.context.Dict? ==> r == Err(AttributeError(TypeName(c.context), "get"))
  {
    match Get(c.context, field, Null)
    case Err(e) => Err(e)
    case Ok(v) =>
      if !Truthy(v) then Ok(None)
      else
        match B64Decode(v)
        case Err(e) => Err(e)
        case Ok(bytes) => Ok(Some(bytes))
  }

  /**
   * A set field is decoded as base64: its bytes when the text decodes, and
   * otherwise the error decoding raises for a non-string, for a string with
   * a non-ASCII character, or for malformed base64 text.
   */
  lemma CredentialOfField(c: Config, field: string)
    ensures c.context.Dict? && field in c.context.entries && Truthy(c.context.entries[field]) ==>
      var v, r := c.context.entries[field], Credential(c, field);
      && (!v.Str? ==> r == Err(TypeError("argument should be a bytes-like object or ASCII string, not '" + TypeName(v) + "'")))
      && (v.Str? && !IsAscii(v.s) ==> r == Err(ValueError("string argument should contain only ASCII characters")))
      && (v.Str? && IsAscii(v.s) && Base64.Decode(v.s).Ok? ==> r == Ok(Some(Base64.Decode(v.s).value)))
      && (v.Str? && IsAscii(v.s) && Base64.Decode(v.s).Err? ==> r == Err(BinasciiError(Base64.FailureMessage(Base64.Decode(v.s).error))))
  {
  }

  /** `get_ca_cert`. */
  function CaCert(c: Config): Result<Option<seq<Base64.byte>>, Error> {
    Credential(c, "ca")
  }

  /** `get_client_cert`. */
  function ClientCert(c: Config): Result<Option<seq<Base64.byte>>, Error> {
    Credential(c, "crt")
  }

  /** `get_client_key`. */
  function ClientKey(c: Config): Result<Option<seq<Base64.byte>>, Error> {
    Credential(c, "key")
  }

  lemma EncodeIsAscii(b: seq<Base64.byte>)
    ensures IsAscii(Base64.Encode(b))
  {
    var s := Base64.Encode(b);
    forall i | 0 <= i < |s|
      ensures s[i] as int < 128
    {
      assert Base64.IsDataChar(s[i]) || s[i] == Base64.Pad;
    }
  }

  /** A credential stored as the encoding of non-empty material reads back as exactly that material. */
  lemma CredentialRoundTrip(c: Config, field: string, material: seq<Base64.byte>)
    requires c.context.Dict? && field in c.context.entries
    requires c.context.entries[field] == Str(Base64.Encode(material))
    requires |material| > 0
    ensures Credential(c, field) == Ok(Some(material))
  {
    var text := Base64.Encode(material);
    EncodeIsAscii(material);
    Base64.DecodeEncode(material);
    assert |text| > 0 by {
      assert |Base64.Decode(text).value| > 0;
    }
    CredentialOfField(c, field);
  }

  // ------------------------------------------------------------ typed documents

  /** A context as the cluster tooling writes it; empty material stands for an omitted field. */
  datatype Context = Context(endpoints: seq<string>, ca: seq<Base64.byte>, crt: seq<Base64.byte>, key: seq<Base64.byte>)

  /** A talosconfig document: the current context's name and the named contexts. */
  datatype TalosFile = TalosFile(current: string, contexts: map<string, Context>)

  function Strs(xs: seq<string>): (r: seq<Value>)
    ensures |r| == |xs| && forall i :: 0 <= i < |xs| ==> r[i] == Str(xs[i])
  {
    seq(|xs|, i requires 0 <= i < |xs| => Str(xs[i]))
  }

  function Field(name: string, material: seq<Base64.byte>): map<string, Value> {
    if |material| == 0 then map[] else map[name := Str(Base64.Encode(material))]
  }

  /** The parsed form of a context: credentials base64-encoded, empty ones left out. */
  function ContextValue(c: Context): Value {
    Dict(map["endpoints" := List(Strs(c.endpoints))] + Field("ca", c.ca) + Field("crt", c.crt) + Field("key", c.key))
  }

  /** The parsed form of a whole document. */
  function Render(f: TalosFile): Value {
    Dict(map["context" := Str(f.current),
             "contexts" := Dict(map n | n in f.contexts :: ContextValue(f.contexts[n]))])
  }

  /** The context a loader should end up with: the named one when the name is set and known, else nothing. */
  function Active(f: TalosFile): Context {
    if f.current != "" && f.current in f.contexts then f.contexts[f.current] else Context([], [], [], [])
  }

  function Material(b: seq<Base64.byte>): Option<seq<Base64.byte>> {
    if |b| == 0 then None else Some(b)
  }

  lemma CredentialOfContext(cfg: Config, c: Context, field: string, material: seq<Base64.byte>)
    requires cfg.context == ContextValue(c)
    requires field in {"ca", "crt", "key"}
    requires material == (if field == "ca" then c.ca else if field == "crt" then c.crt else c.key)
    ensures Credential(cfg, field) == Ok(Material(material))
  {
    var m := cfg.context.entries;
    if |material| > 0 {
      assert field in m && m[field] == Str(Base64.Encode(material));
      CredentialRoundTrip(cfg, field, material);
    } else {
      assert field !in m;
    }
  }

  /** Loading a rendered document selects the current context, or nothing when the name is empty or unknown. */
  lemma LoadRenderedContext(f: TalosFile)
    ensures Load(Render(f)) == Ok(Config(Render(f), Str(f.current),
      if f.current != "" && f.current in f.contexts then ContextValue(f.contexts[f.current]) else EmptyDict))
  {
  }

  /** The accessors read a rendered context back unchanged. */
  lemma AccessorsOfContext(cfg: Config, a: Context)
    requires cfg.context == ContextValue(a)
    ensures Endpoints(cfg) == Ok(List(Strs(a.endpoints)))
    ensures CaCert(cfg) == Ok(Material(a.ca))
    ensures ClientCert(cfg) == Ok(Material(a.crt))
    ensures ClientKey(cfg) == Ok(Material(a.key))
  {
    CredentialOfContext(cfg, a, "ca", a.ca);
    CredentialOfContext(cfg, a, "crt", a.crt);
    CredentialOfContext(cfg, a, "key", a.key);
  }

  /** With no context selected, there are no endpoints and no credentials. */
  lemma AccessorsOfNothing(cfg: Config)
    requires cfg.context == EmptyDict
    ensures Endpoints(cfg) == Ok(List([]))
    ensures CaCert(cfg) == Ok(None) && ClientCert(cfg) == Ok(None) && ClientKey(cfg) == Ok(None)
  {
  }

  /**
   * Loading a rendered document reads back the current context's endpoints
   * and credentials unchanged; an empty or unknown current name yields no
   * endpoints and no credentials.
   */
  lemma LoadRendered(f: TalosFile)
    ensures Load(Render(f)).Ok?
    ensures var c := Load(Render(f)).value;
      && c.contextName == Str(f.current)
      && Endpoints(c) == Ok(List(Strs(Active(f).endpoints)))
      && CaCert(c) == Ok(Material(Active(f).ca))
      && ClientCert(c) == Ok(Material(Active(f).crt))
      && ClientKey(c) == Ok(Material(Active(f).key))
  {
    LoadRenderedContext(f);
    var c := Load(Render(f)).value;
    if f.current != "" && f.current in f.contexts {
      AccessorsOfContext(c, Active(f));
    } else {
      AccessorsOfNothing(c);
      assert Strs([]) == [];
    }
  }

  // ------------------------------------------------------------ the test fixture

  const FixtureContext: Value := Dict(map[
    "endpoints" := List([Str("192.168.1.10:50000")]),
    "ca" := Str("Y2EtY2VydA=="),
    "crt" := Str("Y2xpZW50LWNlcnQ="),
    "key" := Str("Y2xpZW50LWtleQ==")])

  lemma FixtureTextsAreAscii()
    ensures IsAscii("Y2EtY2VydA==") && IsAscii("Y2xpZW50LWNlcnQ=") && IsAscii("Y2xpZW50LWtleQ==")
  {
  }

  /** The single-context document the configuration test writes. */
  const Fixture: Value := Dict(map[
    "context" := Str("test-cluster"),
    "contexts" := Dict(map["test-cluster" := FixtureContext])])

  /** What loading the fixture should produce. */
  const FixtureConfig: Config := Config(Fixture, Str("test-cluster"), FixtureContext)

  lemma FixtureSelects()
    ensures Open(Parsed(Fixture)) == Ok(FixtureConfig)
  {
  }

  /** The fixture selects `test-cluster`, its one endpoint and the decoded CA certificate. */
  lemma FixtureLoads()
    ensures Open(Parsed(Fixture)) == Ok(FixtureConfig)
    ensures FixtureConfig.contextName == Str("test-cluster")
    ensures Endpoints(FixtureConfig) == Ok(List([Str("192.168.1.10:50000")]))
    ensures CaCert(FixtureConfig) == Ok(Some([99, 97, 45, 99, 101, 114, 116]))
  {
    FixtureSelects();
    FixtureTextsAreAscii();
    Base64.CaVector();
    CredentialOfField(FixtureConfig, "ca");
  }

  /** The fixture's client certificate and key decode to the text they encode. */
  lemma FixtureClientMaterial()
    ensures ClientCert(FixtureConfig) == Ok(Some([99, 108, 105, 101, 110, 116, 45, 99, 101, 114, 116]))
    ensures ClientKey(FixtureConfig) == Ok(Some([99, 108, 105, 101, 110, 116, 45, 107, 101, 121]))
  {
    FixtureClientCert();
    FixtureClientKey();
  }

  lemma FixtureClientCert()
    ensures ClientCert(FixtureConfig) == Ok(Some([99, 108, 105, 101, 110, 116, 45, 99, 101, 114, 116]))
  {
    FixtureTextsAreAscii();
    Base64.CertVector();
    CredentialOfField(FixtureConfig, "crt");
  }

  lemma FixtureClientKey()
    ensures ClientKey(FixtureConfig) == Ok(Some([99, 108, 105, 101, 110, 116, 45, 107, 101, 121]))
  {
    FixtureTextsAreAscii();
    Base64.KeyVector();
    CredentialOfField(FixtureConfig, "key");
  }

  /** Without a file, the configuration is empty and no context is named. */
  lemma MissingFileLoadsNothing()
    ensures Open(Missing).Ok?
    ensures Open(Missing).value.document == Dict(map[]) && Open(Missing).value.contextName == Null
    ensures Open(Missing).value.context == Dict(map[])
    ensures Endpoints(Open(Missing).value) == Ok(List([]))
  {
  }
}
