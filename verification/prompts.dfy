/**
 * The server's prompt catalog (`list_prompts`) and `get_prompt` (server.py).
 * Each prompt is fixed text with one parameter substituted; the model keeps
 * which prompt was produced and the value of that parameter.
 */
module Prompts {
  import opened Wrappers
  import opened Values

  datatype PromptArgument = PromptArgument(name: string, required: bool)

  datatype PromptSpec = PromptSpec(name: string, arguments: seq<PromptArgument>)

  /** `list_prompts`. */
  const ListPrompts: seq<PromptSpec> := [
    PromptSpec("cluster-health-check", [PromptArgument("endpoints", false)]),
    PromptSpec("upgrade-plan", [PromptArgument("target_version", true)])
  ]

  /** The prompt `get_prompt` produces, by its substituted parameter. */
  datatype Prompt =
    | HealthCheck(nodes: string)
    | UpgradePlan(targetVersion: string)

  /** Python truthiness of the optional arguments mapping: `None` and `{}` are both false. */
  predicate Given(arguments: Option<map<string, string>>) {
    arguments.Some? && |arguments.value| > 0
  }

  /** `arguments.get(key, fallback) if arguments else otherwise`. */
  function Lookup(arguments: Option<map<string, string>>, key: string, fallback: string, otherwise: string): (r: string)
    ensures Given(arguments) && key in arguments.value ==> r == arguments.value[key]
    ensures Given(arguments) && key !in arguments.value ==> r == fallback
    ensures !Given(arguments) ==> r == otherwise
  {
    if Given(arguments) then
      if key in arguments.value then arguments.value[key] else fallback
    else otherwise
  }

  /**
   * `get_prompt`: the health check covers the given `endpoints`, else "all
   * configured" when some other argument is given, else "all"; the upgrade
   * plan targets the given `target_version`, else "latest".
   */
  function GetPrompt(name: string, arguments: Option<map<string, string>>): (r: Result<Prompt, Error>)
    ensures r.Err? <==> name != "cluster-health-check" && name != "upgrade-plan"
    ensures r.Err? ==> r.error == ValueError("Unknown prompt: " + name)
    ensures name == "cluster-health-check" && arguments.Some? && "endpoints" in arguments.value ==>
      r == Ok(HealthCheck(arguments.value["endpoints"]))
    ensures name == "cluster-health-check" && arguments.Some? && |arguments.value| > 0 && "endpoints" !in arguments.value ==>
      r == Ok(HealthCheck("all configured"))
    ensures name == "cluster-health-check" && (arguments.None? || arguments.value == map[]) ==>
      r == Ok(HealthCheck("all"))
    ensures name == "upgrade-plan" ==>
      r == Ok(UpgradePlan(if arguments.Some? && "target_version" in arguments.value
                          then arguments.value["target_version"] else "latest"))
  {
    if name == "cluster-health-check" then
      Ok(HealthCheck(Lookup(arguments, "endpoints", "all configured", "all")))
    else if name == "upgrade-plan" then
      Ok(UpgradePlan(Lookup(arguments, "target_version", "latest", "latest")))
    else
      Err(ValueError("Unknown prompt: " + name))
  }

  function Parameter(p: Prompt): string {
    match p
    case HealthCheck(nodes) => nodes
    case UpgradePlan(target) => target
  }

  /** A prompt can be fetched exactly when it is listed. */
  lemma GetPromptListed(name: string, arguments: Option<map<string, string>>)
    ensures GetPrompt(name, arguments).Ok? <==> exists i :: 0 <= i < |ListPrompts| && ListPrompts[i].name == name
  {
    if GetPrompt(name, arguments).Ok? {
      assert name == ListPrompts[0].name || name == ListPrompts[1].name;
    }
  }

  /** A listed prompt substitutes its one listed argument whenever the caller supplies it. */
  lemma GetPromptUsesListedArgument(i: nat, arguments: map<string, string>)
    requires i < |ListPrompts|
    requires ListPrompts[i].arguments[0].name in arguments
    ensures GetPrompt(ListPrompts[i].name, Some(arguments)).Ok?
    ensures Parameter(GetPrompt(ListPrompts[i].name, Some(arguments)).value) == arguments[ListPrompts[i].arguments[0].name]
  {
    assert |arguments| > 0 by {
      assert ListPrompts[i].arguments[0].name in arguments.Keys;
    }
  }

  /**
   * An empty mapping counts as no arguments: the health check then covers
   * "all", not the "all configured" that every other mapping without
   * `endpoints` gives.
   */
  lemma EmptyArgumentsAreAbsent(name: string, arguments: map<string, string>)
    ensures GetPrompt(name, Some(map[])) == GetPrompt(name, None)
    ensures GetPrompt("cluster-health-check", None) == Ok(HealthCheck("all"))
    ensures "endpoints" !in arguments ==>
      (GetPrompt("cluster-health-check", Some(arguments)) == Ok(HealthCheck("all configured")) <==> arguments != map[])
  {
    if "endpoints" !in arguments && arguments != map[] {
      assert |arguments| > 0;
    }
  }

  /** The upgrade plan's target version is listed as required, yet a missing one silently becomes "latest". */
  lemma RequiredTargetVersionDefaults(arguments: Option<map<string, string>>)
    requires arguments.None? || "target_version" !in arguments.value
    ensures ListPrompts[1].name == "upgrade-plan" && ListPrompts[1].arguments[0] == PromptArgument("target_version", true)
    ensures GetPrompt("upgrade-plan", arguments) == Ok(UpgradePlan("latest"))
  {
  }
}
