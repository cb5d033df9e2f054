/** Values shared by the routing decision and its execution (src/router/protocol). */
module RouterProtocol {
  import opened Options

  datatype ModelRef = ModelRef(provider: string, model: string)

  datatype ScenarioType = DefaultScenario | SubagentScenario | ExplicitScenario

  datatype Resolution = ByExplicit | ByScenario | ByTokenSaver | ByCustom | ByFallback

  datatype Message = Message(role: string, text: string)

  datatype Patch = Patch(messages: seq<Message>, tools: Option<seq<string>>, systemPrompt: Option<string>)

  datatype Mutations = Mutations(promptTier: Option<string>, subagentModelOverride: bool, subagentTagStripped: bool)

  datatype Decision = Decision(
    provider: string,
    model: string,
    scenarioType: ScenarioType,
    tier: Option<string>,
    isSubagent: bool,
    orchestrating: bool,
    resolvedFrom: Resolution,
    mutations: Mutations,
    patch: Option<Patch>)

  datatype Request = Request(
    provider: string,
    model: string,
    messages: seq<Message>,
    tools: Option<seq<string>>,
    systemPrompt: Option<string>)
}
