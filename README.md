# Persistent E2B sandbox session manager: a Dafny model

The E2B examples of the agent SDK plugin keep one long-lived E2B sandbox and
one Claude agent in a `PersistentSandbox` object. The Python version
(`e2b_persistent.py`) and the TypeScript version (`e2b-persistent.ts`) behave
the same way. The object has three nullable fields: `sandbox`, `agent` and
`sandbox_id` / `sandboxId`. It has five operations:

- `initialize` creates the sandbox, stores it, stores its id, builds the agent
  and stores it, in that order, then returns the id.
- `execute` refuses with "Sandbox not initialized. Call initialize() first."
  while no agent is stored. Otherwise it runs the agent on the task and
  returns the run's `output`.
- `health_check` / `healthCheck` reports whether a sandbox is stored. It
  never contacts the backend.
- `get_sandbox_id` / `getSandboxId` returns the stored id.
- `shutdown` does nothing when no sandbox is stored. Otherwise it closes the
  sandbox and, once the close has returned, clears all three fields.

The agent configuration builder `create_agent` / `createAgent` fills in a
default system prompt and model and always grants bash, read, write and edit
but not web. The task runner `run_agent` / `runAgent` passes one task through
to the agent.

The model has four modules:

- `Outcomes` (Outcomes.dfy): `Option`, `Result`, and the errors the programs
  raise.
- `AgentConfig` (AgentConfig.dfy): the builder and the task runner.
- `SessionModel` (SessionModel.dfy): the manager as a state machine over
  `Session` values, one step function per operation. It also holds lemmas
  about arbitrary call sequences (`Replay`).
- `Persistent` (PersistentSandbox.dfy): the class `PersistentSandbox`. Its
  fields are `Option`s and a ghost log of every backend request. Each method
  assigns the fields in the source's order and is proved equal to its step
  function. The module also holds the example server `RunPersistentServer`,
  with its loop over tasks and its shutdown in `finally`, and
  `RunDemoServer`, which runs it on the source's three tasks.

The external services are parameters:

- The outcome of sandbox creation is `created: Result<Sandbox, string>`.
- The agent constructor raising is `agentError: Option<string>`.
- The agent backend is an uninterpreted function
  `(Agent, string) -> Result<RunOutput, string>`.
- A close that raises is `closeError: Option<string>`.

A sandbox handle is an identity plus the id the backend reports.

The model follows what the code does, including these behaviours:

- There is no `Closed` phase. A shutdown whose close returned puts the object
  back in its initial state, and it can be initialised again.
- A close that raises leaves the three fields as they were, and the error propagates.
  The code does not clean up after a failed close.
- If the agent constructor raises, the new sandbox and id are already stored
  and the agent field keeps its previous value. On a new object that value is
  absent.
- A second `initialize` overwrites the fields without closing the first
  sandbox (`SessionModel.ReinitializeLeaks`).

## Model

| member | source | states |
|---|---|---|
| `AgentConfig.CreateAgent` | plugins/agent-sdk-dev/examples/e2b-python/src/agent.py:5-54 | the key is kept; an omitted prompt becomes "You are a helpful AI assistant running in a secure E2B sandbox."; a supplied prompt, even "", is kept; an omitted model becomes "claude-sonnet-4-5-20250929"; permissions are always bash, read, write and edit allowed and web denied |
| `AgentConfig.BuilderImage` | plugins/agent-sdk-dev/examples/e2b-typescript/src/agent.ts:16-28 | an agent is produced by the builder exactly when its permissions are the fixed sandbox grants, and then the builder rebuilds it from its own fields |
| `AgentConfig.OmittedEqualsDefault` | plugins/agent-sdk-dev/examples/e2b-typescript/src/agent.ts:10-14 | leaving out the prompt and model gives the same configuration as passing the two defaults |
| `AgentConfig.CreateAgentInjective` | plugins/agent-sdk-dev/examples/e2b-typescript/src/agent.ts:16-20 | equal configurations come from the same key and the same supplied prompt and model: nothing supplied is lost |
| `AgentConfig.RunAgent` | plugins/agent-sdk-dev/examples/e2b-python/src/agent.py:57-73 | sends exactly one run request for the task (no retry); succeeds exactly when that run does and returns its `output` unchanged; otherwise re-raises the run's error unchanged |
| `SessionModel.TemplateOrDefault` | plugins/agent-sdk-dev/examples/e2b-typescript/deploy/e2b-persistent.ts:11-14 | an undefined template becomes "anthropic-claude-code"; a given one is used as is |
| `SessionModel.InitStep` | plugins/agent-sdk-dev/examples/e2b-typescript/deploy/e2b-persistent.ts:11-27 | one create request per call; a failed create changes no field; a successful create stores the sandbox and its id; a failed agent build leaves the agent as it was; success exactly when both succeed, and then the agent is the default-built one and the returned id is the stored id |
| `SessionModel.ExecuteStep` | plugins/agent-sdk-dev/examples/e2b-typescript/deploy/e2b-persistent.ts:29-41 | no field changes; with no agent the result is NotInitialized and no request is made; with an agent exactly one run request is made and its output or error is returned |
| `SessionModel.ExecuteIsRunAgent` | plugins/agent-sdk-dev/examples/e2b-typescript/src/agent.ts:46-57 | with an agent stored, execute answers exactly what the task runner answers for that agent and task, and sends the same single run request |
| `SessionModel.ShutdownStep` | plugins/agent-sdk-dev/examples/e2b-typescript/deploy/e2b-persistent.ts:58-67 | with no sandbox it changes nothing and requests nothing; with one it requests exactly one close of that sandbox, then is back in the initial state if the close returned and unchanged, with the close error, if it raised |
| `SessionModel.ApplyKeepsConsistent` | plugins/agent-sdk-dev/examples/e2b-typescript/deploy/e2b-persistent.ts:6-67 | every operation keeps the invariant: the id is the stored sandbox's id, and an agent is stored only beside a sandbox and was built with the default prompt and model |
| `SessionModel.ReplayKeepsConsistent` | plugins/agent-sdk-dev/examples/e2b-python/deploy/e2b_persistent.py:18-94 | every sequence of initialize, execute and shutdown calls, with any backend answers, keeps that invariant |
| `SessionModel.ReachableIsConsistent` | plugins/agent-sdk-dev/examples/e2b-python/deploy/e2b_persistent.py:42-48 | every state reachable from a new manager satisfies the invariant, so an agent or an id without a sandbox never occurs |
| `SessionModel.ConsistentIsReachable` | plugins/agent-sdk-dev/examples/e2b-python/deploy/e2b_persistent.py:42-48 | conversely every state satisfying the invariant is reachable, including a sandbox and id with no agent after a failed agent build |
| `SessionModel.NoAgentUseWithoutInit` | plugins/agent-sdk-dev/examples/e2b-python/deploy/e2b_persistent.py:63-64 | from a state with no agent, calls that include no successful initialize never store an agent and never send a run request |
| `SessionModel.ReplayExecs` | plugins/agent-sdk-dev/examples/e2b-python/deploy/e2b_persistent.py:53-69 | with an agent stored, any number of execute calls leave the state as it was and run each task exactly once, in order |
| `SessionModel.InitExecShutdown` | plugins/agent-sdk-dev/examples/e2b-python/deploy/e2b_persistent.py:23-94 | initialize, any executes, then a shutdown whose close returns: back in the initial state, with requests exactly one create, each task once, and one close of the created sandbox |
| `SessionModel.ShutdownIdempotent` | plugins/agent-sdk-dev/examples/e2b-python/deploy/e2b_persistent.py:86-94 | after a shutdown whose close returned, a second shutdown makes no close request and changes nothing |
| `SessionModel.ExecuteAfterShutdownRefused` | plugins/agent-sdk-dev/examples/e2b-typescript/deploy/e2b-persistent.ts:29-67 | from any reachable state, after a completed shutdown execute is refused with NotInitialized and the health check reports false |
| `SessionModel.HealthyAfterInit` | plugins/agent-sdk-dev/examples/e2b-typescript/deploy/e2b-persistent.ts:11-52 | right after a successful initialize the health check reports true and the stored id is the one returned |
| `SessionModel.ReinitializeLeaks` | plugins/agent-sdk-dev/examples/e2b-python/deploy/e2b_persistent.py:42-43 | two initializations then a shutdown create two sandboxes but close only the second |
| `Persistent.PersistentSandbox.constructor` | plugins/agent-sdk-dev/examples/e2b-python/deploy/e2b_persistent.py:18-21 | sandbox, agent and sandbox id all start absent, and nothing has been requested |
| `Persistent.PersistentSandbox.Initialize` | plugins/agent-sdk-dev/examples/e2b-python/deploy/e2b_persistent.py:23-51 | the new fields, the result and the logged requests are those of `InitStep` on the old fields, with the default template when none is given; the invariant is kept |
| `Persistent.PersistentSandbox.Execute` | plugins/agent-sdk-dev/examples/e2b-python/deploy/e2b_persistent.py:53-69 | no field changes; the result and the logged requests are those of `ExecuteStep` |
| `Persistent.PersistentSandbox.HealthCheck` | plugins/agent-sdk-dev/examples/e2b-python/deploy/e2b_persistent.py:71-80 | true exactly when a sandbox is stored; reads only the object's own fields and changes nothing |
| `Persistent.PersistentSandbox.GetSandboxId` | plugins/agent-sdk-dev/examples/e2b-python/deploy/e2b_persistent.py:82-84 | returns the stored id without changing anything; in a consistent state it is present exactly when a sandbox is, and is that sandbox's id |
| `Persistent.PersistentSandbox.Shutdown` | plugins/agent-sdk-dev/examples/e2b-python/deploy/e2b_persistent.py:86-94 | the new fields, the result and the logged requests are those of `ShutdownStep` on the old fields; the invariant is kept |
| `Persistent.UseAfterShutdown` | plugins/agent-sdk-dev/examples/e2b-typescript/deploy/e2b-persistent.ts:11-67 | a client of the class: initialize returns the sandbox's id; two executes of one task both answer what the task runner answers (equal to each other only because the backend is modelled as a function of agent and task); after shutdown execute is refused with "Sandbox not initialized. Call initialize() first." and the health check is false |
| `Persistent.RunDemoServer` | plugins/agent-sdk-dev/examples/e2b-python/deploy/e2b_persistent.py:102-131 | the server on its own three tasks: a missing key fails with "E2B_API_KEY and ANTHROPIC_API_KEY must be set"; success exactly when every step succeeds, and then the three outputs are those of "Create a simple web server", "Write tests for the web server" and "Add error handling to the server", in order |
| `Persistent.FirstFailure` | plugins/agent-sdk-dev/examples/e2b-typescript/deploy/e2b-persistent.ts:99-107 | the position where the task loop stops: every earlier task's run succeeds and the task there fails, or it is the number of tasks when none fails |
| `Persistent.RunPersistentServer` | plugins/agent-sdk-dev/examples/e2b-python/deploy/e2b_persistent.py:97-146 | a missing or empty key fails with no request; a failed create leaves nothing to close; once a sandbox exists, the requests are its creation, the runs up to and including the first failing task, and a close of that sandbox on every path; a raising close replaces the error in flight and leaves the fields exactly as initialize set them; otherwise the object ends in its initial state; success exactly when both keys are set and creation, the agent build, every task and the close succeed, and then every task's output is reported in order and the health check is true |

## Left out

- Printing and logging: the `print` / `console.log` calls themselves are not modelled. The exception messages (`Outcomes.Message`), the outputs of a fully successful server run and its health result (`Persistent.Report`) are modelled; the outputs printed before a task that fails are not returned.
- Timing: `asyncio.sleep` and `setTimeout` between tasks are not modelled.
- Asynchrony: each `await` is a sequential step. The code has no concurrency.
- The E2B API key and `timeout: 0`, which the TypeScript version passes to `Sandbox.create`, are not part of the create request. The Python version ignores the key.
- Internals of the E2B sandbox and the agent library are not modelled. A sandbox is an identity plus an id. Closing it is a logged request that may raise. An agent run is an uninterpreted function of the agent and the task: the backend is assumed to give the same answer for the same agent and task and to ignore earlier runs. A real model call can answer differently or fail the second time. `Persistent.UseAfterShutdown`'s `first == second`, and equal outputs for repeated tasks in `Persistent.RunPersistentServer`, come from that assumption and not from the code.
- Reading `.id` on a created sandbox is assumed not to raise.
- The agent is stored as the configuration it was built from. The SDK object's other options, which are commented out in the source, are not modelled.
- Python truthiness: `if not self.agent` and `if not self.sandbox` are modelled as absence tests, because neither object defines a false value.
- AgentConfig.CreateAgent: an explicit Python `model=None`, which Python would pass through, is not modelled. The model parameter is either omitted or a string.
- The environment variables of the example server are `Option` parameters, and the server takes its tasks as a parameter; `Persistent.RunDemoServer` runs it on the source's fixed list `DemoTasks`.
- The ephemeral deployment scripts and the CLI entry points (`e2b_ephemeral.py`, `e2b-ephemeral.ts`, `main.py`, `index.ts`) are not part of this model. They are one-shot glue with no state of their own.
