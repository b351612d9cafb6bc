/** The agent configuration builder (`create_agent` / `createAgent`) and the
    task runner (`run_agent` / `runAgent`). The agent library itself is
    external: an agent is the configuration it was built from, and running a
    task is an uninterpreted `backend` from (agent, task) to an output or a
    raised error. */
module AgentConfig {
  import opened Outcomes

  const DefaultSystemPrompt := "You are a helpful AI assistant running in a secure E2B sandbox."
  const DefaultModel := "claude-sonnet-4-5-20250929"

  /** The tool grants handed to the agent. */
  datatype Permissions = Permissions(bash: bool, read: bool, write: bool, edit: bool, web: bool)

  /** Shell, file read, write and edit allowed; outbound web access denied. */
  const SandboxPermissions := Permissions(bash := true, read := true, write := true, edit := true, web := false)

  /** A configured agent. */
  datatype Agent = Agent(apiKey: string, model: string, systemPrompt: string, permissions: Permissions)

  /** What one agent run yields; only its `output` is used. */
  datatype RunOutput = RunOutput(output: string)

  /** The agent backend: runs one task with one agent, or raises with a reason. */
  type Backend = (Agent, string) -> Result<RunOutput, string>

  /** An omitted prompt or model (`None` in Python, `undefined` in TypeScript)
      is replaced by its default; a supplied one, even the empty string, is
      kept. The permissions never depend on the arguments. */
  function CreateAgent(apiKey: string, systemPrompt: Option<string>, model: Option<string>): (a: Agent)
    ensures a.apiKey == apiKey
    ensures systemPrompt.None? ==> a.systemPrompt == DefaultSystemPrompt
    ensures systemPrompt.Some? ==> a.systemPrompt == systemPrompt.value
    ensures model.None? ==> a.model == DefaultModel
    ensures model.Some? ==> a.model == model.value
    ensures a.permissions.bash && a.permissions.read && a.permissions.write && a.permissions.edit
    ensures !a.permissions.web
  {
    var prompt := if systemPrompt.None? then DefaultSystemPrompt else systemPrompt.value;
    Agent(apiKey, model.GetOr(DefaultModel), prompt, SandboxPermissions)
  }

  /** True of exactly the agents the builder can produce. */
  predicate IsSandboxAgent(a: Agent) {
    a.permissions == SandboxPermissions
  }

  /** The builder's image is exactly the sandbox-configured agents, and every
      such agent is rebuilt from its own fields. */
  lemma BuilderImage(a: Agent)
    ensures IsSandboxAgent(a) <==> a == CreateAgent(a.apiKey, Some(a.systemPrompt), Some(a.model))
  {
  }

  /** Omitting the prompt and model is the same as passing their defaults. */
  lemma OmittedEqualsDefault(apiKey: string)
    ensures CreateAgent(apiKey, None, None) == CreateAgent(apiKey, Some(DefaultSystemPrompt), Some(DefaultModel))
  {
  }

  /** Two configurations built from the same key, prompt and model are equal,
      and the builder loses none of a supplied argument. */
  lemma CreateAgentInjective(k1: string, p1: Option<string>, m1: Option<string>,
                             k2: string, p2: Option<string>, m2: Option<string>)
    requires CreateAgent(k1, p1, m1) == CreateAgent(k2, p2, m2)
    ensures k1 == k2
    ensures p1.Some? && p2.Some? ==> p1 == p2
    ensures m1.Some? && m2.Some? ==> m1 == m2
  {
  }

  /** What the task runner answers, and the tasks it sent to the agent backend. */
  datatype Ran = Ran(result: Result<string, Error>, requests: seq<string>)

  /** The task runner passes one task through: it sends exactly one run request,
      returns the run's `output` unchanged, and re-raises a failure unchanged,
      without retry. */
  function RunAgent(agent: Agent, task: string, backend: Backend): (r: Ran)
    ensures r.requests == [task]
    ensures r.result.Success? <==> backend(agent, task).Success?
    ensures r.result.Success? ==> r.result.value == backend(agent, task).value.output
    ensures r.result.Failure? ==> r.result.error == Raised(backend(agent, task).error)
  {
    match backend(agent, task)
    case Success(run) => Ran(Success(run.output), [task])
    case Failure(reason) => Ran(Failure(Raised(reason)), [task])
  }
}
