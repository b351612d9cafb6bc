/** The `PersistentSandbox` class and the example server that drives it.
    The class keeps the three nullable fields and updates them in the order
    the source does; each method is proved against the step function of
    SessionModel that it implements. A ghost log records every request sent
    to the sandbox and agent backends. */
module Persistent {
  import opened Outcomes
  import opened AgentConfig
  import opened SessionModel

  class PersistentSandbox {
    var sandbox: Option<Sandbox>
    var agent: Option<Agent>
    var sandboxId: Option<string>
    /** Every request this manager has sent to a backend, oldest first. */
    ghost var calls: seq<Call>

    /** The three fields as a value. */
    function State(): Session
      reads this
    {
      Session(sandbox, agent, sandboxId)
    }

    /** All three fields start absent, and nothing has been requested. */
    constructor()
      ensures State() == Fresh && Consistent(State()) && calls == []
    {
      sandbox := None;
      agent := None;
      sandboxId := None;
      calls := [];
    }

    /** Creates the sandbox from `template` (the default when omitted), stores
        it and then its id, builds the agent with the Anthropic key and stores
        it, and returns the stored id. A creation failure propagates before any
        field is assigned; an agent-construction failure propagates after the
        sandbox and id were stored. Nothing guards against a second call: it
        overwrites the fields without closing the earlier sandbox. The E2B key
        is not used by this model. */
    method Initialize(e2bApiKey: string, anthropicApiKey: string, template: Option<string>,
                      created: Result<Sandbox, string>, agentError: Option<string>)
      returns (r: Result<string, Error>)
      modifies this
      ensures var st := InitStep(old(State()), anthropicApiKey, TemplateOrDefault(template), created, agentError);
              State() == st.state && r == st.result && calls == old(calls) + st.calls
      ensures Consistent(old(State())) ==> Consistent(State())
    {
      calls := calls + [CreateSandbox(TemplateOrDefault(template))];
      if created.Failure? {
        return Failure(Raised(created.error));
      }
      sandbox := Some(created.value);
      sandboxId := Some(sandbox.value.id);
      if agentError.Some? {
        return Failure(Raised(agentError.value));
      }
      agent := Some(CreateAgent(anthropicApiKey, None, None));
      r := Success(sandboxId.value);
    }

    /** Runs one task with the stored agent and returns its output; raises
        NotInitialized, without running anything, when no agent is stored.
        Changes no field, so it may be called again and again. */
    method Execute(task: string, backend: Backend) returns (r: Result<string, Error>)
      modifies this`calls
      ensures State() == old(State())
      ensures var st := ExecuteStep(old(State()), task, backend);
              r == st.result && calls == old(calls) + st.calls
    {
      if agent.None? {
        return Failure(NotInitialized);
      }
      calls := calls + [RunTask(task)];
      var run := backend(agent.value, task);
      if run.Failure? {
        return Failure(Raised(run.error));
      }
      r := Success(run.value.output);
    }

    /** Reports whether a sandbox is stored; it asks no backend and changes nothing. */
    method HealthCheck() returns (healthy: bool)
      ensures healthy <==> sandbox.Some?
    {
      if sandbox.None? {
        return false;
      }
      healthy := true;
    }

    /** Reads the stored id back; in a consistent state it is present exactly
        when a sandbox is, and is that sandbox's id. */
    method GetSandboxId() returns (id: Option<string>)
      ensures id == sandboxId
      ensures Consistent(State()) ==> (id.Some? <==> Healthy(State()))
      ensures Consistent(State()) && sandbox.Some? ==> id == Some(sandbox.value.id)
    {
      id := sandboxId;
    }

    /** With a sandbox stored, closes it and, once the close has returned,
        clears all three fields; a close that raises leaves them set. With no
        sandbox stored it does nothing. */
    method Shutdown(closeError: Option<string>) returns (r: Result<(), Error>)
      modifies this
      ensures var st := ShutdownStep(old(State()), closeError);
              State() == st.state && r == st.result && calls == old(calls) + st.calls
      ensures Consistent(old(State())) ==> Consistent(State())
    {
      if sandbox.Some? {
        calls := calls + [CloseSandbox(sandbox.value)];
        if closeError.Some? {
          return Failure(Raised(closeError.value));
        }
        sandbox := None;
        agent := None;
        sandboxId := None;
      }
      r := Success(());
    }
  }

  /** A client of the class alone: initialize, the same task twice, shutdown,
      then the task again. Both runs answer what the task runner answers (the
      same answer twice, because the backend is a function of agent and task);
      the last call is refused. */
  method UseAfterShutdown(e2bApiKey: string, anthropicApiKey: string, sb: Sandbox, task: string, backend: Backend)
    returns (id: Result<string, Error>, first: Result<string, Error>, second: Result<string, Error>,
             after: Result<string, Error>, healthyAfter: bool)
    ensures id == Success(sb.id)
    ensures first == second == RunAgent(CreateAgent(anthropicApiKey, None, None), task, backend).result
    ensures after == Failure(NotInitialized) && !healthyAfter
    ensures Message(after.error) == "Sandbox not initialized. Call initialize() first."
  {
    var manager := new PersistentSandbox();
    id := manager.Initialize(e2bApiKey, anthropicApiKey, None, Success(sb), None);
    first := manager.Execute(task, backend);
    second := manager.Execute(task, backend);
    var closed := manager.Shutdown(None);
    after := manager.Execute(task, backend);
    healthyAfter := manager.HealthCheck();
  }

  /** The tasks the example server runs. */
  const DemoTasks := ["Create a simple web server", "Write tests for the web server", "Add error handling to the server"]

  /** What the example server shows the operator: each task's output and the health check. */
  datatype Report = Report(outputs: seq<string>, healthy: bool)

  /** An environment variable that is set and not empty. */
  predicate KeyPresent(key: Option<string>) {
    key.Some? && key.value != ""
  }

  predicate KeysPresent(e2bApiKey: Option<string>, anthropicApiKey: Option<string>) {
    KeyPresent(e2bApiKey) && KeyPresent(anthropicApiKey)
  }

  /** The index of the first task whose run raises, or |tasks| when none does. */
  function FirstFailure(a: Agent, tasks: seq<string>, backend: Backend): (k: nat)
    ensures k <= |tasks|
    ensures forall i :: 0 <= i < k ==> backend(a, tasks[i]).Success?
    ensures k < |tasks| ==> backend(a, tasks[k]).Failure?
    decreases |tasks|
  {
    if tasks == [] then 0
    else if backend(a, tasks[0]).Failure? then 0
    else 1 + FirstFailure(a, tasks[1..], backend)
  }

  /** The example server: check both keys, then initialize, execute each task
      in order, run the health check, and shut down in a `finally`, so the
      sandbox is closed on every path once it exists. An error raised by the
      close replaces any error already propagating. */
  method RunPersistentServer(e2bApiKey: Option<string>, anthropicApiKey: Option<string>, templateEnv: Option<string>,
                             tasks: seq<string>, created: Result<Sandbox, string>, agentError: Option<string>,
                             backend: Backend, closeError: Option<string>)
    returns (r: Result<Report, Error>, ghost final: Session, ghost calls: seq<Call>)
    ensures !KeysPresent(e2bApiKey, anthropicApiKey) ==>
              r == Failure(MissingKeys) && final == Fresh && calls == []
    ensures KeysPresent(e2bApiKey, anthropicApiKey) && created.Failure? ==>
              r == Failure(Raised(created.error)) && final == Fresh &&
              calls == [CreateSandbox(TemplateOrDefault(templateEnv))]
    ensures KeysPresent(e2bApiKey, anthropicApiKey) && created.Success? ==>
              var a := CreateAgent(anthropicApiKey.value, None, None);
              var k := FirstFailure(a, tasks, backend);
              var ran := if agentError.Some? then 0 else if k < |tasks| then k + 1 else |tasks|;
              calls == [CreateSandbox(TemplateOrDefault(templateEnv))] + RunCalls(tasks[..ran]) + [CloseSandbox(created.value)]
    ensures KeysPresent(e2bApiKey, anthropicApiKey) && created.Success? && closeError.Some? ==>
              r == Failure(Raised(closeError.value)) &&
              final == InitStep(Fresh, anthropicApiKey.value, TemplateOrDefault(templateEnv), created, agentError).state
    ensures closeError.None? ==> final == Fresh
    ensures KeysPresent(e2bApiKey, anthropicApiKey) && created.Success? && closeError.None? && agentError.Some? ==>
              r == Failure(Raised(agentError.value))
    ensures KeysPresent(e2bApiKey, anthropicApiKey) && created.Success? && closeError.None? && agentError.None? ==>
              var a := CreateAgent(anthropicApiKey.value, None, None);
              var k := FirstFailure(a, tasks, backend);
              k < |tasks| ==> r == Failure(Raised(backend(a, tasks[k]).error))
    ensures KeysPresent(e2bApiKey, anthropicApiKey) && created.Success? && agentError.None? && closeError.None? &&
            FirstFailure(CreateAgent(anthropicApiKey.value, None, None), tasks, backend) == |tasks| ==>
              r.Success?
    ensures r.Success? ==>
              KeysPresent(e2bApiKey, anthropicApiKey) && created.Success? && agentError.None? && closeError.None? &&
              var a := CreateAgent(anthropicApiKey.value, None, None);
              r.value.healthy && |r.value.outputs| == |tasks| &&
              forall i :: 0 <= i < |tasks| ==> backend(a, tasks[i]) == Success(RunOutput(r.value.outputs[i]))
  {
    if !KeyPresent(e2bApiKey) || !KeyPresent(anthropicApiKey) {
      return Failure(MissingKeys), Fresh, [];
    }
    var manager := new PersistentSandbox();
    var failure: Option<Error> := None;
    var outputs: seq<string> := [];
    var healthy := false;
    var id := manager.Initialize(e2bApiKey.value, anthropicApiKey.value, templateEnv, created, agentError);
    if id.Failure? {
      failure := Some(id.error);
    } else {
      ghost var a := CreateAgent(anthropicApiKey.value, None, None);
      ghost var k := FirstFailure(a, tasks, backend);
      ghost var ready := manager.State();
      var i := 0;
      while i < |tasks| && failure.None?
        invariant 0 <= i <= |tasks|
        invariant manager.State() == ready
        invariant failure.None? ==> i <= k
        invariant failure.Some? ==> i == k + 1 && failure.value == Raised(backend(a, tasks[k]).error)
        invariant |outputs| == i || (failure.Some? && |outputs| == k)
        invariant forall j :: 0 <= j < |outputs| ==> backend(a, tasks[j]) == Success(RunOutput(outputs[j]))
        invariant manager.calls == [CreateSandbox(TemplateOrDefault(templateEnv))] + RunCalls(tasks[..i])
      {
        var result := manager.Execute(tasks[i], backend);
        assert RunCalls(tasks[..i + 1]) == RunCalls(tasks[..i]) + [RunTask(tasks[i])];
        if result.Failure? {
          failure := Some(result.error);
        } else {
          outputs := outputs + [result.value];
        }
        i := i + 1;
      }
      if failure.None? {
        healthy := manager.HealthCheck();
      }
    }
    var closed := manager.Shutdown(closeError);
    if closed.Failure? {
      r := Failure(closed.error);
    } else if failure.Some? {
      r := Failure(failure.value);
    } else {
      r := Success(Report(outputs, healthy));
    }
    final := manager.State();
    calls := manager.calls;
  }

  /** The example server on its own three tasks. A missing key is reported
      with the source's message; when every step succeeds the operator sees
      one output per task, in order. */
  method RunDemoServer(e2bApiKey: Option<string>, anthropicApiKey: Option<string>, templateEnv: Option<string>,
                       created: Result<Sandbox, string>, agentError: Option<string>,
                       backend: Backend, closeError: Option<string>)
    returns (r: Result<Report, Error>)
    ensures !KeysPresent(e2bApiKey, anthropicApiKey) ==>
              r.Failure? && Message(r.error) == "E2B_API_KEY and ANTHROPIC_API_KEY must be set"
    ensures r.Success? ==>
              KeysPresent(e2bApiKey, anthropicApiKey) && created.Success? && agentError.None? && closeError.None? &&
              var a := CreateAgent(anthropicApiKey.value, None, None);
              |r.value.outputs| == 3 &&
              backend(a, "Create a simple web server") == Success(RunOutput(r.value.outputs[0])) &&
              backend(a, "Write tests for the web server") == Success(RunOutput(r.value.outputs[1])) &&
              backend(a, "Add error handling to the server") == Success(RunOutput(r.value.outputs[2]))
    ensures KeysPresent(e2bApiKey, anthropicApiKey) && created.Success? && agentError.None? && closeError.None? &&
            (forall i :: 0 <= i < |DemoTasks| ==> backend(CreateAgent(anthropicApiKey.value, None, None), DemoTasks[i]).Success?) ==>
              r.Success?
  {
    ghost var final, calls;
    r, final, calls := RunPersistentServer(e2bApiKey, anthropicApiKey, templateEnv, DemoTasks,
                                           created, agentError, backend, closeError);
  }
}
