# Talos MCP server: configuration, channel and dispatch model

The Talos MCP server exposes eight Talos Linux node operations as MCP tools: version, container list, system stats, service logs, reboot, kubeconfig, etcd status and apply-config. Each tool call goes through a `TalosClient`. The client reads a talosconfig document, picks its active context, and lazily opens one cached gRPC channel. That channel is TLS when the context carries a CA certificate, a client certificate and a client key, and insecure otherwise.

This project is a Dafny model of that core.

- `wrappers.dfy` (`Wrappers`): `Option` and `Result`.
- `values.dfy` (`Values`): Python values as produced by the YAML loader and the MCP argument decoder. This covers `None`, bool, int, str, list and str-keyed dict, with Python truthiness. It also models the exact error behaviour of `d.get(k, default)`, `d[k]`, `xs[0]`, and a dict lookup with an arbitrary key. This includes an unhashable key or a non-dict receiver.
- `base64.dfy` (`Base64`): the base64 alphabet and decoder of section 4 of RFC 4648, with an encoder. The round trip `Decode(Encode(b)) == Ok(b)` is proved for every byte string, along with the three credential vectors the tests use.
- `talos_config.dfy` (`TalosConfig`): the constructor and `load`, that is, selecting the active context, and the four getters. It also has a typed talosconfig (`TalosFile`) and its rendering as a parsed document. Loading a rendered document reads back exactly the active context's endpoints and credentials.
- `talos_client.dfy` (`TalosClient`):
  - `connect` as a pure transition on `Client(config, channel: Option<Channel>)`, with target selection (`endpoint or endpoints[0]`) and TLS selection;
  - `close`;
  - the eight operations, each of which is `connect` on its endpoint argument followed by re-raising;
  - sequences of operations, in which one cached channel serves every later call whatever endpoint it names.
- `tools.dfy` (`Tools`):
  - the `list_tools` catalog, giving property names, kinds, defaults and `required` lists;
  - the name dispatch of `call_tool`;
  - the argument reads of each branch, in source order.

  Routing is proved to agree with the catalog. A call goes through iff every required key is present. Each argument is then bound to the given value, else the schema default, else `None`, and the first missing required key gives the KeyError.
- `server.py`'s `call_tool` is modelled in `server.dfy` (`Server`). This covers:
  - the lazy, at-most-once client construction, which sits outside the `try`;
  - the single-item replies;
  - the `Unknown tool:` fallback;
  - the `Error executing <name>: <str(e)>` capture;
  - a session of requests.
- `prompts.dfy` (`Prompts`): `list_prompts` and the defaults of `get_prompt`.

The client has no more machinery than that. There are:
- no per-endpoint channel pools;
- no multi-node fan-out or partial-failure aggregation;
- no retries or timeouts;
- no typed error taxonomy;
- no guard that refuses destructive operations without an explicit target.

The code has one cached channel per client and ignores the requested endpoint once it is cached (`TalosClient.RebootUsesCachedTarget`). A reboot whose endpoint argument is present but empty falls back to the first configured endpoint (`TalosClient.DefaultTargetIsFirstEndpoint`). Once the client exists, every failure becomes one error text; a failure to load the configuration while creating it escapes `call_tool` (`Server.LoadFailureRaisesEveryTime`).

## Model

| member | source | states |
|---|---|---|
| Base64.Decode | src/talos_mcp_server/talos_client.py:61 | decoding succeeds only on a length that is a multiple of four, and yields no bytes exactly for the empty string; a bad length fails with the count of data characters when there is exactly one too many of them, and with the padding error otherwise |
| Base64.DecodeQuadShape | src/talos_mcp_server/talos_client.py:61 | an accepted quantum starts with two data characters, has padding only if it is the last one, and yields one byte fewer per `=` |
| Base64.DecodeEncode | src/talos_mcp_server/talos_client.py:57-76 | decoding inverts encoding for every byte string, so stored credential material is read back unchanged |
| Base64.CaVector | tests/test_server.py:24-37 | `Y2EtY2VydA==` decodes to the bytes of `ca-cert` |
| Base64.CertVector | tests/test_server.py:25 | `Y2xpZW50LWNlcnQ=` decodes to the bytes of `client-cert` |
| Base64.KeyVector | tests/test_server.py:26 | `Y2xpZW50LWtleQ==` decodes to the bytes of `client-key` |
| Base64.ExcessVector | src/talos_mcp_server/talos_client.py:61 | `Y2EtY`, five data characters, fails with the count of data characters |
| Base64.ExcessMessage | src/talos_mcp_server/talos_client.py:61 | that failure reads `Invalid base64-encoded string: number of data characters (5) cannot be 1 more than a multiple of 4` |
| TalosConfig.MissingFileLoadsNothing | src/talos_mcp_server/talos_client.py:20-34 | without a file the configuration is `{}`, the context name is None, the context is `{}` and there are no endpoints, as tests/test_server.py:41-45 expect |
| TalosConfig.Load | src/talos_mcp_server/talos_client.py:36-51 | the context name is the document's `context` entry or None; a falsy name keeps the context `{}`; otherwise the context is `contexts[name]`, or `{}` when the name or `contexts` is absent; a non-mapping document or `contexts` value raises |
| TalosConfig.Endpoints | src/talos_mcp_server/talos_client.py:53-55 | the context's `endpoints` entry unchanged, or `[]` when absent |
| TalosConfig.B64Decode | src/talos_mcp_server/talos_client.py:61 | only a string is decoded; a non-empty string never decodes to nothing |
| TalosConfig.Credential | src/talos_mcp_server/talos_client.py:57-76 | the getter yields None exactly when the field is absent or falsy; a non-mapping context raises the AttributeError of `.get`; any material it yields is non-empty |
| TalosConfig.CredentialOfField | src/talos_mcp_server/talos_client.py:57-76 | a set field yields the base64 decoding of its text; a non-string raises TypeError, a non-ASCII string ValueError, and malformed text the decoder's binascii error |
| TalosConfig.CredentialRoundTrip | src/talos_mcp_server/talos_client.py:57-76 | a field holding the encoding of non-empty material reads back as exactly that material |
| TalosConfig.LoadRendered | src/talos_mcp_server/talos_client.py:36-76 | loading a rendered talosconfig reads back the current context's endpoints and credentials unchanged; an empty or unknown current name gives no endpoints and no credentials |
| TalosConfig.FixtureLoads | tests/test_server.py:16-39 | the test document selects `test-cluster`, its one endpoint and the decoded CA certificate |
| TalosConfig.FixtureClientMaterial | tests/test_server.py:25-26 | the test document's client certificate and key decode to `client-cert` and `client-key` |
| TalosClient.Build | src/talos_mcp_server/talos_client.py:91-116 | a channel is built iff endpoints load and are non-empty, the target resolves and all three getters succeed; empty endpoints give `No endpoints configured`; the channel is TLS iff all three credentials are non-empty, and then carries CA, key and chain in their places |
| TalosClient.Connect | src/talos_mcp_server/talos_client.py:86-116 | a cached channel is returned unchanged for any endpoint; otherwise the built channel is cached; a failure leaves the client unchanged |
| TalosClient.Close | src/talos_mcp_server/talos_client.py:118-122 | the cache is cleared and the configuration kept; closing an unconnected client changes nothing |
| TalosClient.Invoke | src/talos_mcp_server/talos_client.py:124-305 | every operation first connects on its own endpoint argument: it runs on the cached channel if there is one, otherwise on a channel built for that endpoint and then cached; a connection error is re-raised and leaves the client without a channel |
| TalosClient.CachedChannelIsFixed | src/talos_mcp_server/talos_client.py:89-90 | once a channel is cached, every later operation runs on it and the client never changes |
| TalosClient.SuccessfulCallsShareChannel | src/talos_mcp_server/talos_client.py:124-305 | all successful operations of one client run on one and the same channel |
| TalosClient.CloseThenConnect | src/talos_mcp_server/talos_client.py:118-122 | after closing, the next connection is built afresh from the configuration |
| TalosClient.RebootUsesCachedTarget | src/talos_mcp_server/talos_client.py:221-240 | a reboot of a second node after connecting to a first one runs on the first node's channel |
| TalosClient.DefaultTargetIsFirstEndpoint | src/talos_mcp_server/talos_client.py:92-96 | with a falsy endpoint argument (None or empty), an operation on a fresh client targets the first configured endpoint |
| TalosClient.BuildOfMaterial | src/talos_mcp_server/talos_client.py:91-116 | given the endpoints and material the getters return, a channel is built iff an endpoint is listed; it targets the endpoint argument when truthy and the first endpoint otherwise; it is TLS iff all three materials are non-empty, and then carries them in their places |
| TalosClient.ConnectRendered | src/talos_mcp_server/talos_client.py:81-116 | over a rendered talosconfig, the constructor succeeds with no channel, and a fresh client connects iff the active context lists an endpoint; it targets the given or the first endpoint; it is TLS iff all three credentials are set, with exactly that material |
| TalosClient.OneNodeFixture | tests/test_server.py:52-71 | the client test's document gives context `test-cluster`, no channel yet, and an insecure channel to its endpoint |
| TalosClient.TwoNodesFixture | tests/test_server.py:153-180 | the integration document lists two endpoints, and a fresh client opens a TLS channel to the first with the decoded material |
| Tools.ParseTool | src/talos_mcp_server/server.py:182-296 | a name selects a tool exactly when it is that tool's name; every other name selects none |
| Tools.ParseName | src/talos_mcp_server/server.py:182-296 | every tool is reached through its own name |
| Tools.ListTools | src/talos_mcp_server/server.py:30-169 | eight specifications, in catalog order, under the names dispatch uses |
| Tools.CatalogNamesDistinct | src/talos_mcp_server/server.py:33-169 | the eight advertised names are pairwise distinct |
| Tools.CatalogCoversTools | src/talos_mcp_server/server.py:33-169 | every dispatchable tool is advertised |
| Tools.SchemaWellFormed | src/talos_mcp_server/server.py:33-169 | property names are distinct per tool, each required key is a declared property without a default, and each default has its property's type |
| Tools.ListedNames | tests/test_server.py:116-135 | the catalog contains the four names the server test expects |
| Tools.RouteRequired | src/talos_mcp_server/server.py:228-283 | on a mapping, routing succeeds iff no required key is missing; otherwise it fails with the KeyError of the first missing key in source order |
| Tools.RouteBinding | src/talos_mcp_server/server.py:182-290 | a routed call belongs to its tool and binds each schema property to the argument, else the default, else None |
| Tools.RouteOnOther | src/talos_mcp_server/server.py:182-283 | non-mapping arguments fail on the first read: the first required key by subscript, else `.get` |
| Tools.RouteDefaults | src/talos_mcp_server/server.py:193-281 | omitted optional arguments take `k8s.io`, `100`, `default` and `auto`, and a missing endpoint is None |
| Tools.RouteMatchesCatalog | src/talos_mcp_server/server.py:33-290 | dispatch and catalog agree on required keys, defaults and the arguments each operation receives |
| Server.CallTool | src/talos_mcp_server/server.py:171-303 | a failed lazy construction raises and keeps no client; every other reply is exactly one item; the configuration and a cached channel are never replaced; an unknown name gives `Unknown tool: <name>` without touching the channel; an operation's text appears only for a successfully routed call |
| Server.KnownToolReply | src/talos_mcp_server/server.py:181-303 | for a known tool, an argument or connection error becomes `Error executing <name>: <message>`, and otherwise the operation's text is returned |
| Server.RebootWithoutEndpoint | src/talos_mcp_server/server.py:240-303 | a reboot without `endpoint` answers `Error executing talos_reboot: 'endpoint'` and leaves the client unchanged |
| Server.NoEndpointsReply | src/talos_mcp_server/server.py:298-303 | with no endpoints configured, every validly argued known tool answers the `No endpoints configured` error text |
| Server.ClientIsKept | src/talos_mcp_server/server.py:174-179 | once a client exists, no request raises, its configuration never changes and a cached channel survives |
| Server.ClientBuiltOnFirstRequest | src/talos_mcp_server/server.py:174-179 | with a loadable configuration, the first request builds the client from it and every request gets one item |
| Server.LoadFailureRaisesEveryTime | src/talos_mcp_server/server.py:177-181 | while the configuration cannot load, every request raises the load error and no client is kept |
| Prompts.GetPrompt | src/talos_mcp_server/server.py:334-379 | exactly the two listed names succeed, any other fails with `Unknown prompt: <name>`; the health check covers the given `endpoints`, else `all configured` for any other non-empty mapping, else `all` for None or `{}`; the upgrade plan targets the given `target_version`, else `latest` |
| Prompts.GetPromptListed | src/talos_mcp_server/server.py:305-379 | a prompt can be fetched exactly when it is listed |
| Prompts.GetPromptUsesListedArgument | src/talos_mcp_server/server.py:305-358 | a listed prompt substitutes its listed argument whenever the caller supplies it |
| Prompts.EmptyArgumentsAreAbsent | src/talos_mcp_server/server.py:336-337 | `{}` behaves as None; the health check then covers `all`; a mapping without `endpoints` gives `all configured` exactly when it is non-empty |
| Prompts.RequiredTargetVersionDefaults | src/talos_mcp_server/server.py:323-358 | `target_version` is listed as required, yet a missing one becomes `latest` |

## Left out

- Reading and YAML-parsing the configuration file: the constructor receives the parsed value, or the error message the read raised (`TalosConfig.ConfigFile`).
- The `TALOSCONFIG` environment variable and the home-directory default path: the file found there is a parameter.
- gRPC: a channel is a value recording its target and TLS material. Creating one is assumed not to fail, so a non-string target that the library would reject is kept as given. Closing the underlying channel is not modelled.
- The operations' hard-coded sample payloads, and the text `call_tool` renders from them: a successful reply is represented by the operation it renders (`Server.Content.Rendered`). The text depends only on the operation's arguments. The system-stats text divides by `1e9` in floating point, which is not modelled.
- Logging, asyncio, the MCP decorators, `stdio_server`, `run_server`, `main`/argparse, and `talos_client.main`: none affects the values computed.
- Tool descriptions, the schemas' `"type": "object"`, the prompt descriptions and the prompt message texts: a prompt is represented by its one substituted parameter.
- Python floats, byte strings and non-string dict keys as parsed values.
- `Values.GetByValue` looks up a non-string key as absent. This is exact only because dicts in the model have string keys.
- Base64.Decode: implements the strict alphabet and padding of section 4 of RFC 4648. CPython's default `b64decode` discards characters outside the alphabet and stops at complete padding, so some inputs it accepts are rejected here, and some it rejects fail here for another reason. On well-formed input the two agree, and on text made only of alphabet characters they fail with the same message.
- Base64.FailureMessage: a character outside the alphabet, or padding in the wrong place, is reported as `Only base64 data is allowed`. That is CPython's message for `validate=True`; the default `b64decode` that the getters call never raises it, because it skips such characters instead.
- TalosConfig.B64Decode: the ASCII check and its message, the type error, and the messages for a bad length follow CPython; the message for an invalid character does not (see `Base64.FailureMessage`). A `bytes` argument is not modelled, since parsed values have no bytes.
- Values.Message: exception texts follow CPython for the errors the model raises, except the base64 invalid-character text noted above. They are written out rather than taken from the interpreter.
