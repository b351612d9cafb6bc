/** The persistent sandbox session manager as a state machine over values.
    A `Session` is the three nullable fields of `PersistentSandbox`; each step
    function gives the new fields, what the caller receives, and the requests
    made to the two backends. The class in PersistentSandbox.dfy is proved
    against these functions; the lemmas below are about runs of them. */
module SessionModel {
  import opened Outcomes
  import opened AgentConfig

  const DefaultTemplate := "anthropic-claude-code"

  /** An E2B sandbox handle: an identity of its own and the id the backend reports. */
  datatype Sandbox = Sandbox(handle: nat, id: string)

  /** The fields `sandbox`, `agent` and `sandbox_id` / `sandboxId`. */
  datatype Session = Session(sandbox: Option<Sandbox>, agent: Option<Agent>, sandboxId: Option<string>)

  /** The state of a newly constructed manager, and again after a completed shutdown. */
  const Fresh := Session(None, None, None)

  /** A request sent to a backend. */
  datatype Call =
    | CreateSandbox(template: string)
    | RunTask(task: string)
    | CloseSandbox(sandbox: Sandbox)

  /** One step: the new fields, the caller's result, the backend requests made. */
  datatype Step<T> = Step(state: Session, result: Result<T, Error>, calls: seq<Call>)

  /** `template` falls back to the default when it is omitted or undefined
      (an unset `E2B_TEMPLATE`); a supplied value is used as given. */
  function TemplateOrDefault(template: Option<string>): (t: string)
    ensures template.None? ==> t == DefaultTemplate
    ensures template.Some? ==> t == template.value
  {
    template.GetOr(DefaultTemplate)
  }

  /** `initialize`: create the sandbox, store it and its id, then build and store
      the agent, then return the stored id. `created` is what the sandbox backend
      answers; `agentError` is set when the agent constructor raises. */
  function InitStep(s: Session, anthropicApiKey: string, template: string,
                    created: Result<Sandbox, string>, agentError: Option<string>): (st: Step<string>)
    ensures st.calls == [CreateSandbox(template)]
    ensures created.Failure? ==> st.state == s && st.result == Failure(Raised(created.error))
    ensures created.Success? ==>
              st.state.sandbox == Some(created.value) && st.state.sandboxId == Some(created.value.id)
    ensures created.Success? && agentError.Some? ==>
              st.state.agent == s.agent && st.result == Failure(Raised(agentError.value))
    ensures st.result.Success? <==> created.Success? && agentError.None?
    ensures st.result.Success? ==>
              st.state.agent == Some(CreateAgent(anthropicApiKey, None, None)) &&
              st.state.sandboxId == Some(st.result.value)
  {
    match created
    case Failure(reason) => Step(s, Failure(Raised(reason)), [CreateSandbox(template)])
    case Success(sb) =>
      var withSandbox := s.(sandbox := Some(sb), sandboxId := Some(sb.id));
      if agentError.Some? then
        Step(withSandbox, Failure(Raised(agentError.value)), [CreateSandbox(template)])
      else
        var ready := withSandbox.(agent := Some(CreateAgent(anthropicApiKey, None, None)));
        Step(ready, Success(ready.sandboxId.value), [CreateSandbox(template)])
  }

  /** `execute`: refused while no agent is stored, without contacting the agent
      backend; otherwise one run of the stored agent. No field changes. */
  function ExecuteStep(s: Session, task: string, backend: Backend): (st: Step<string>)
    ensures st.state == s
    ensures s.agent.None? ==> st.result == Failure(NotInitialized) && st.calls == []
    ensures s.agent.Some? ==> st.calls == [RunTask(task)]
    ensures s.agent.Some? ==>
              (st.result.Success? <==> backend(s.agent.value, task).Success?) &&
              (st.result.Success? ==> st.result.value == backend(s.agent.value, task).value.output) &&
              (st.result.Failure? ==> st.result.error == Raised(backend(s.agent.value, task).error))
  {
    if s.agent.None? then
      Step(s, Failure(NotInitialized), [])
    else
      match backend(s.agent.value, task)
      case Success(run) => Step(s, Success(run.output), [RunTask(task)])
      case Failure(reason) => Step(s, Failure(Raised(reason)), [RunTask(task)])
  }

  /** With an agent stored, `execute` answers exactly what the task runner
      `run_agent` / `runAgent` answers for that agent and task, and sends the
      same single run request. */
  lemma ExecuteIsRunAgent(s: Session, task: string, backend: Backend)
    requires s.agent.Some?
    ensures var ran := RunAgent(s.agent.value, task, backend);
            var st := ExecuteStep(s, task, backend);
            st.result == ran.result && st.calls == [RunTask(ran.requests[0])] && |ran.requests| == 1
  {
  }

  /** `health_check` / `healthCheck`: a local test of the stored sandbox, no probe. */
  predicate Healthy(s: Session) {
    s.sandbox.Some?
  }

  /** `shutdown`: with a sandbox present, close it once and, only if the close
      returns, clear all three fields; with none, do nothing at all.
      `closeError` is set when the close raises. */
  function ShutdownStep(s: Session, closeError: Option<string>): (st: Step<()>)
    ensures s.sandbox.None? ==> st == Step(s, Success(()), [])
    ensures s.sandbox.Some? ==> st.calls == [CloseSandbox(s.sandbox.value)]
    ensures s.sandbox.Some? && closeError.None? ==> st.state == Fresh && st.result.Success?
    ensures s.sandbox.Some? && closeError.Some? ==>
              st.state == s && st.result == Failure(Raised(closeError.value))
  {
    match s.sandbox
    case None => Step(s, Success(()), [])
    case Some(sb) =>
      if closeError.Some? then Step(s, Failure(Raised(closeError.value)), [CloseSandbox(sb)])
      else Step(Fresh, Success(()), [CloseSandbox(sb)])
  }

  /** One call of the manager, with what the outside world answers to it. */
  datatype Op =
    | Init(anthropicApiKey: string, template: string, created: Result<Sandbox, string>, agentError: Option<string>)
    | Exec(task: string)
    | Stop(closeError: Option<string>)

  /** The end state of a sequence of calls and every backend request it made. */
  datatype Trace = Trace(state: Session, calls: seq<Call>)

  function Apply(s: Session, op: Op, backend: Backend): Trace {
    match op
    case Init(key, template, created, agentError) =>
      var st := InitStep(s, key, template, created, agentError); Trace(st.state, st.calls)
    case Exec(task) =>
      var st := ExecuteStep(s, task, backend); Trace(st.state, st.calls)
    case Stop(closeError) =>
      var st := ShutdownStep(s, closeError); Trace(st.state, st.calls)
  }

  function Replay(s: Session, ops: seq<Op>, backend: Backend): Trace
    decreases |ops|
  {
    if ops == [] then Trace(s, [])
    else
      var first := Apply(s, ops[0], backend);
      var rest := Replay(first.state, ops[1..], backend);
      Trace(rest.state, first.calls + rest.calls)
  }

  /** The invariant the order of assignments keeps: the stored id is the stored
      sandbox's id, and an agent is stored only beside a sandbox, and only one
      the builder made with the default prompt and model. */
  predicate Consistent(s: Session) {
    && s.sandboxId == (if s.sandbox.Some? then Some(s.sandbox.value.id) else None)
    && (s.agent.Some? ==> s.sandbox.Some? && s.agent.value == CreateAgent(s.agent.value.apiKey, None, None))
  }

  lemma ApplyKeepsConsistent(s: Session, op: Op, backend: Backend)
    requires Consistent(s)
    ensures Consistent(Apply(s, op, backend).state)
  {
  }

  /** Every call sequence keeps the invariant. */
  lemma {:induction false} ReplayKeepsConsistent(s: Session, ops: seq<Op>, backend: Backend)
    requires Consistent(s)
    ensures Consistent(Replay(s, ops, backend).state)
    decreases |ops|
  {
    if ops != [] {
      ApplyKeepsConsistent(s, ops[0], backend);
      ReplayKeepsConsistent(Apply(s, ops[0], backend).state, ops[1..], backend);
    }
  }

  /** Every state reachable from a new manager is consistent: in particular an
      agent without a sandbox, or an id without a sandbox, is unreachable. */
  lemma ReachableIsConsistent(ops: seq<Op>, backend: Backend)
    ensures Consistent(Replay(Fresh, ops, backend).state)
  {
    ReplayKeepsConsistent(Fresh, ops, backend);
  }

  /** A call sequence that reaches a given consistent state from a new manager. */
  function Witness(s: Session): seq<Op> {
    match s.sandbox
    case None => []
    case Some(sb) =>
      match s.agent
      case None => [Init("", DefaultTemplate, Success(sb), Some("agent construction failed"))]
      case Some(a) => [Init(a.apiKey, DefaultTemplate, Success(sb), None)]
  }

  /** Conversely every consistent state is reachable, including the partial
      one an agent-construction failure leaves: a sandbox and id, no agent. */
  lemma ConsistentIsReachable(s: Session, backend: Backend)
    requires Consistent(s)
    ensures Replay(Fresh, Witness(s), backend).state == s
  {
  }

  /** Running two call sequences one after the other is running their concatenation. */
  lemma {:induction false} ReplayAppend(s: Session, a: seq<Op>, b: seq<Op>, backend: Backend)
    ensures var ra := Replay(s, a, backend);
            var rb := Replay(ra.state, b, backend);
            Replay(s, a + b, backend) == Trace(rb.state, ra.calls + rb.calls)
    decreases |a|
  {
    if a == [] {
      assert a + b == b;
    } else {
      assert (a + b)[0] == a[0];
      assert (a + b)[1..] == a[1..] + b;
      ReplayAppend(Apply(s, a[0], backend).state, a[1..], b, backend);
    }
  }

  /** An initialize whose sandbox creation and agent build both succeed. */
  predicate StoresAgent(op: Op) {
    op.Init? && op.created.Success? && op.agentError.None?
  }

  /** A successful initialize is the only way to store an agent: from a state
      without one, calls that include no successful initialize leave no agent
      stored and send no run request. */
  lemma {:induction false} NoAgentUseWithoutInit(s: Session, ops: seq<Op>, backend: Backend)
    requires s.agent.None?
    requires forall i :: 0 <= i < |ops| ==> !StoresAgent(ops[i])
    ensures Replay(s, ops, backend).state.agent.None?
    ensures forall c :: c in Replay(s, ops, backend).calls ==> !c.RunTask?
    decreases |ops|
  {
    if ops != [] {
      assert !StoresAgent(ops[0]);
      var first := Apply(s, ops[0], backend);
      assert first.state.agent.None?;
      assert forall c :: c in first.calls ==> !c.RunTask?;
      NoAgentUseWithoutInit(first.state, ops[1..], backend);
    }
  }

  /** The calls made by executing `tasks` in order, one agent run each. */
  function Execs(tasks: seq<string>): seq<Op> {
    seq(|tasks|, i requires 0 <= i < |tasks| => Exec(tasks[i]))
  }

  function RunCalls(tasks: seq<string>): seq<Call> {
    seq(|tasks|, i requires 0 <= i < |tasks| => RunTask(tasks[i]))
  }

  /** With an agent stored, repeated execute calls leave every field as it was
      and run each task once, in order. */
  lemma {:induction false} ReplayExecs(s: Session, tasks: seq<string>, backend: Backend)
    requires s.agent.Some?
    ensures Replay(s, Execs(tasks), backend) == Trace(s, RunCalls(tasks))
    decreases |tasks|
  {
    if tasks != [] {
      assert Execs(tasks)[0] == Exec(tasks[0]);
      assert Execs(tasks)[1..] == Execs(tasks[1..]);
      assert RunCalls(tasks) == [RunTask(tasks[0])] + RunCalls(tasks[1..]);
      ReplayExecs(s, tasks[1..], backend);
    }
  }

  /** initialize, any number of executes, then a shutdown whose close returns:
      the manager is back in its initial state, one sandbox was created, each
      task ran once, and exactly that sandbox was closed. */
  lemma InitExecShutdown(s: Session, key: string, template: string, sb: Sandbox,
                         tasks: seq<string>, backend: Backend)
    ensures var r := Replay(s, [Init(key, template, Success(sb), None)] + Execs(tasks) + [Stop(None)], backend);
            r.state == Fresh && r.calls == [CreateSandbox(template)] + RunCalls(tasks) + [CloseSandbox(sb)]
  {
    var init := [Init(key, template, Success(sb), None)];
    var ready := Apply(s, init[0], backend).state;
    assert Replay(s, init, backend) == Trace(ready, [CreateSandbox(template)]);
    ReplayExecs(ready, tasks, backend);
    ReplayAppend(s, init, Execs(tasks), backend);
    ReplayAppend(s, init + Execs(tasks), [Stop(None)], backend);
    assert Replay(ready, [Stop(None)], backend) == Trace(Fresh, [CloseSandbox(sb)]);
  }

  /** A second shutdown after one whose close returned makes no close call and
      changes nothing. */
  lemma ShutdownIdempotent(s: Session, again: Option<string>)
    ensures var first := ShutdownStep(s, None);
            ShutdownStep(first.state, again) == Step(first.state, Success(()), [])
  {
  }

  /** After a shutdown whose close returned, execute is refused and the health
      check reports false, from any reachable state. */
  lemma ExecuteAfterShutdownRefused(s: Session, task: string, backend: Backend)
    requires Consistent(s)
    ensures var down := ShutdownStep(s, None).state;
            ExecuteStep(down, task, backend).result == Failure(NotInitialized) && !Healthy(down)
  {
  }

  /** Right after a successful initialize the health check reports true, and
      the id returned is the one `get_sandbox_id` reads back. */
  lemma HealthyAfterInit(s: Session, key: string, template: string,
                         created: Result<Sandbox, string>, agentError: Option<string>)
    ensures var st := InitStep(s, key, template, created, agentError);
            st.result.Success? ==> Healthy(st.state) && st.state.sandboxId == Some(st.result.value)
  {
  }

  /** Initializing again while a sandbox is stored does not close the first
      one: after two initializations and a shutdown, two sandboxes were created
      and only the second was closed. */
  lemma ReinitializeLeaks(key: string, t: string, sb1: Sandbox, sb2: Sandbox, backend: Backend)
    ensures var r := Replay(Fresh, [Init(key, t, Success(sb1), None), Init(key, t, Success(sb2), None), Stop(None)], backend);
            r.state == Fresh && r.calls == [CreateSandbox(t), CreateSandbox(t), CloseSandbox(sb2)]
  {
    var ops := [Init(key, t, Success(sb1), None), Init(key, t, Success(sb2), None), Stop(None)];
    var s1 := Apply(Fresh, ops[0], backend).state;
    var s2 := Apply(s1, ops[1], backend).state;
    assert s2.sandbox == Some(sb2);
    assert ops[1..][1..] == [Stop(None)];
    assert Replay(s2, [Stop(None)], backend) == Trace(Fresh, [CloseSandbox(sb2)]);
    assert Replay(s1, ops[1..], backend) == Trace(Fresh, [CreateSandbox(t), CloseSandbox(sb2)]);
  }
}
