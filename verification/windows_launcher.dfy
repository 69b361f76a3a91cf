/**
 * The Windows container launcher (slave/containerizer/mesos/windows_launcher.cpp).
 *
 * The launcher keeps one map, `jobs`, from a container to the name of the job
 * object that holds its processes. The job-object calls (`name_job`,
 * `create_job`, `assign_job`, `kill_job`) and the process spawner are oracles
 * whose answers are parameters; futures are synchronous results.
 *
 * The first part gives each operation as a function of the map before the call
 * (its result, the map after, and the outside calls it makes, in order) and
 * proves what the launcher promises about it. The class at the end holds the
 * map as a field, and its methods are proved to follow those functions.
 */
module Launcher {
  import opened Wrappers

  type Pid = int

  /** A container's identity, as given by the containerizer. */
  datatype ContainerID = ContainerID(value: string)

  /** The name of a Windows job object. */
  type JobName = string

  type Jobs = map<ContainerID, JobName>

  /** A persisted container record: its identity and the pid last known for it. */
  datatype ContainerState = ContainerState(containerId: ContainerID, pid: Pid)

  /** The launcher's `ContainerStatus`: always empty (the containerizer fills in the id). */
  datatype ContainerStatus = ContainerStatus

  /** A call the launcher makes to code outside it. */
  datatype JobCall =
    | NameJob(pid: Pid)
    | CreateJob(name: JobName)
    | AssignJob(name: JobName, pid: Pid)
    | KillJob(name: JobName)
    | Spawn(path: string, argv: seq<string>, environment: Option<map<string, string>>)

  /** The answers of the job-object API. */
  datatype JobApi = JobApi(
    nameJob: Pid -> Result<JobName, string>,
    createJob: JobName -> Result<Nothing, string>,
    assignJob: (JobName, Pid) -> Result<Nothing, string>,
    killJob: JobName -> Result<Nothing, string>)

  /** The program a fork runs. */
  datatype Command = Command(path: string, argv: seq<string>, environment: Option<map<string, string>>)

  /** The result of a launcher operation, the map after it, and the outside calls it made. */
  datatype Step<+T> = Step(result: Result<T, string>, jobs: Jobs, calls: seq<JobCall>)

  /** A result and the outside calls made to reach it. */
  datatype Traced<+T> = Traced(result: Result<T, string>, calls: seq<JobCall>)

  /** No two containers share a job object. */
  predicate Injective(jobs: Jobs) {
    forall a, b | a in jobs && b in jobs && a != b :: jobs[a] != jobs[b]
  }

  function Ids(states: seq<ContainerState>): set<ContainerID> {
    set i | 0 <= i < |states| :: states[i].containerId
  }

  function DigitChar(d: nat): char
    requires d < 10
  {
    "0123456789"[d]
  }

  function NatToString(n: nat): string {
    if n < 10 then [DigitChar(n)] else NatToString(n / 10) + [DigitChar(n % 10)]
  }

  /** `stringify(pid)`. */
  function IntToString(i: int): string {
    if i < 0 then "-" + NatToString(-i) else NatToString(i)
  }

  // ---------------------------------------------------------------- recover

  const NAME_JOB_FAILED: string := "WindowsLauncher::recover: Call to `name_job` failed."

  function DuplicateMessage(state: ContainerState): string {
    "Detected duplicate pid " + IntToString(state.pid) + " for container " + state.containerId.value
  }

  /**
   * One pass of recover's loop: name the job of the state's pid, refuse a name
   * already held by some container, otherwise record it (replacing any entry
   * the container already had).
   */
  function RecoverStep(jobs: Jobs, state: ContainerState, api: JobApi): (r: Result<Jobs, string>)
    ensures api.nameJob(state.pid).Err? ==> r == Err(NAME_JOB_FAILED)
    ensures api.nameJob(state.pid).Ok? && api.nameJob(state.pid).value in jobs.Values ==>
              r == Err(DuplicateMessage(state))
    ensures r.Ok? <==> api.nameJob(state.pid).Ok? && api.nameJob(state.pid).value !in jobs.Values
    ensures r.Ok? ==> r.value == jobs[state.containerId := api.nameJob(state.pid).value]
    ensures r.Ok? && Injective(jobs) ==> Injective(r.value)
  {
    match api.nameJob(state.pid)
    case Err(_) => Err(NAME_JOB_FAILED)
    case Ok(name) =>
      if name in jobs.Values then Err(DuplicateMessage(state))
      else
        var next := jobs[state.containerId := name];
        assert Injective(jobs) ==> Injective(next) by {
          if Injective(jobs) {
            forall a, b | a in next && b in next && a != b ensures next[a] != next[b] {
              if a == state.containerId {
                assert next[b] == jobs[b] && jobs[b] in jobs.Values;
              } else if b == state.containerId {
                assert next[a] == jobs[a] && jobs[a] in jobs.Values;
              }
            }
          }
        }
        Ok(next)
  }

  lemma IdsCons(states: seq<ContainerState>)
    requires states != []
    ensures Ids(states) == {states[0].containerId} + Ids(states[1..])
  {
  }

  /** `recover(states)`: the states in order, stopping at the first failure without undoing earlier entries. */
  function Recovered(jobs: Jobs, states: seq<ContainerState>, api: JobApi): (r: Step<set<ContainerID>>)
    ensures r.result.Ok? ==> r.result.value == {}
    ensures |r.calls| <= |states|
    ensures forall i | 0 <= i < |r.calls| :: r.calls[i] == NameJob(states[i].pid)
    ensures r.result.Ok? ==> |r.calls| == |states|
    decreases |states|
  {
    if states == [] then Step(Ok({}), jobs, [])
    else
      match RecoverStep(jobs, states[0], api)
      case Err(e) => Step(Err(e), jobs, [NameJob(states[0].pid)])
      case Ok(next) =>
        var rest := Recovered(next, states[1..], api);
        Step(rest.result, rest.jobs, [NameJob(states[0].pid)] + rest.calls)
  }

  /**
   * Recover only adds or replaces entries of the containers it was given;
   * after a success every one of them is tracked.
   */
  lemma {:induction false} RecoverKeys(jobs: Jobs, states: seq<ContainerState>, api: JobApi)
    ensures var r := Recovered(jobs, states, api);
            && jobs.Keys <= r.jobs.Keys <= jobs.Keys + Ids(states)
            && (r.result.Ok? ==> r.jobs.Keys == jobs.Keys + Ids(states))
            && forall id | id in jobs && id !in Ids(states) :: r.jobs[id] == jobs[id]
    decreases |states|
  {
    if states != [] {
      IdsCons(states);
      match RecoverStep(jobs, states[0], api)
      case Err(_) =>
      case Ok(next) => RecoverKeys(next, states[1..], api);
    }
  }

  /** Recover never makes two containers share a job. */
  lemma {:induction false} RecoverPreservesInjective(jobs: Jobs, states: seq<ContainerState>, api: JobApi)
    requires Injective(jobs)
    ensures Injective(Recovered(jobs, states, api).jobs)
    decreases |states|
  {
    if states != [] {
      match RecoverStep(jobs, states[0], api)
      case Err(_) =>
      case Ok(next) =>
        RecoverPreservesInjective(next, states[1..], api);
    }
  }

  /** Recovering a list is recovering a prefix, then (if that succeeded) the rest from where it left the map. */
  lemma {:induction false} RecoverSplit(jobs: Jobs, states: seq<ContainerState>, k: nat, api: JobApi)
    requires k <= |states|
    decreases k
    ensures var whole := Recovered(jobs, states, api);
            var prefix := Recovered(jobs, states[..k], api);
            var rest := Recovered(prefix.jobs, states[k..], api);
            whole == if prefix.result.Err? then prefix else Step(rest.result, rest.jobs, prefix.calls + rest.calls)
  {
    if k == 0 {
      assert states[..0] == [];
      assert states[0..] == states;
    } else {
      assert states[..k][0] == states[0];
      assert states[..k][1..] == states[1..][..k - 1];
      assert states[k..] == states[1..][k - 1..];
      match RecoverStep(jobs, states[0], api)
      case Err(_) =>
      case Ok(next) =>
        RecoverSplit(next, states[1..], k - 1, api);
        var rest := Recovered(Recovered(next, states[1..][..k - 1], api).jobs, states[1..][k - 1..], api);
        var prefixCalls := Recovered(next, states[1..][..k - 1], api).calls;
        assert [NameJob(states[0].pid)] + (prefixCalls + rest.calls)
            == ([NameJob(states[0].pid)] + prefixCalls) + rest.calls;
    }
  }

  /**
   * Recover stopped at state `k`: the states before it were all recorded, state
   * `k` failed against the map they left, and the launcher keeps that map.
   */
  predicate StoppedAt(jobs: Jobs, states: seq<ContainerState>, api: JobApi, k: nat)
    requires k < |states|
  {
    var prefix := Recovered(jobs, states[..k], api);
    && prefix.result.Ok?
    && RecoverStep(prefix.jobs, states[k], api).Err?
    && Recovered(jobs, states, api) ==
         Step(Err(RecoverStep(prefix.jobs, states[k], api).error), prefix.jobs, prefix.calls + [NameJob(states[k].pid)])
  }

  /** Stopping at state `k` after the first state was recorded is stopping at `k + 1` of the whole list. */
  lemma StoppedAtCons(jobs: Jobs, states: seq<ContainerState>, api: JobApi, k: nat)
    requires states != [] && RecoverStep(jobs, states[0], api).Ok?
    requires k < |states[1..]| && StoppedAt(RecoverStep(jobs, states[0], api).value, states[1..], api, k)
    ensures StoppedAt(jobs, states, api, k + 1)
  {
    var next := RecoverStep(jobs, states[0], api).value;
    var inner := Recovered(next, states[1..][..k], api);
    assert states[..k + 1][0] == states[0];
    assert states[..k + 1][1..] == states[1..][..k];
    assert states[1..][k] == states[k + 1];
    var prefix := Recovered(jobs, states[..k + 1], api);
    assert prefix == Step(inner.result, inner.jobs, [NameJob(states[0].pid)] + inner.calls);
    assert [NameJob(states[0].pid)] + (inner.calls + [NameJob(states[k + 1].pid)])
        == ([NameJob(states[0].pid)] + inner.calls) + [NameJob(states[k + 1].pid)];
  }

  /** A failed recover stopped at its first failing state, without undoing the entries recorded before it. */
  lemma {:induction false} RecoverFailsAtFirstBadState(jobs: Jobs, states: seq<ContainerState>, api: JobApi)
    requires Recovered(jobs, states, api).result.Err?
    ensures exists k | 0 <= k < |states| :: StoppedAt(jobs, states, api, k)
    decreases |states|
  {
    match RecoverStep(jobs, states[0], api)
    case Err(_) =>
      assert states[..0] == [];
      assert StoppedAt(jobs, states, api, 0);
    case Ok(next) =>
      RecoverFailsAtFirstBadState(next, states[1..], api);
      var k :| 0 <= k < |states[1..]| && StoppedAt(next, states[1..], api, k);
      StoppedAtCons(jobs, states, api, k);
  }

  /** No later state names the same container as state `i`. */
  predicate LastOccurrence(states: seq<ContainerState>, i: nat)
    requires i < |states|
  {
    forall j | i < j < |states| :: states[j].containerId != states[i].containerId
  }

  /** After a successful recover, every container holds the job named for the last state that mentions it. */
  lemma {:induction false} RecoverRecordsEveryState(jobs: Jobs, states: seq<ContainerState>, api: JobApi)
    requires Recovered(jobs, states, api).result.Ok?
    ensures forall i | 0 <= i < |states| && LastOccurrence(states, i) ::
              && api.nameJob(states[i].pid).Ok?
              && states[i].containerId in Recovered(jobs, states, api).jobs
              && Recovered(jobs, states, api).jobs[states[i].containerId] == api.nameJob(states[i].pid).value
    decreases |states|
  {
    if states != [] {
      var next := RecoverStep(jobs, states[0], api).value;
      RecoverRecordsEveryState(next, states[1..], api);
      forall i | 0 <= i < |states| && LastOccurrence(states, i)
        ensures api.nameJob(states[i].pid).Ok?
        ensures states[i].containerId in Recovered(jobs, states, api).jobs
        ensures Recovered(jobs, states, api).jobs[states[i].containerId] == api.nameJob(states[i].pid).value
      {
        if i == 0 {
          forall j | 0 <= j < |states[1..]| ensures states[1..][j].containerId != states[0].containerId {
            assert states[1..][j] == states[j + 1];
          }
          assert states[0].containerId !in Ids(states[1..]);
          RecoverKeys(next, states[1..], api);
        } else {
          assert states[1..][i - 1] == states[i];
          assert LastOccurrence(states[1..], i - 1) by {
            forall j | i - 1 < j < |states[1..]| ensures states[1..][j].containerId != states[1..][i - 1].containerId {
              assert states[1..][j] == states[j + 1];
            }
          }
        }
      }
    }
  }

  /** After a successful recover, no two containers' last records named the same job. */
  lemma RecoverNamesDistinctJobs(jobs: Jobs, states: seq<ContainerState>, api: JobApi)
    requires Injective(jobs)
    requires Recovered(jobs, states, api).result.Ok?
    ensures forall i, j | 0 <= i < j < |states| && LastOccurrence(states, i) && LastOccurrence(states, j) ::
              api.nameJob(states[i].pid) != api.nameJob(states[j].pid)
  {
    RecoverRecordsEveryState(jobs, states, api);
    RecoverPreservesInjective(jobs, states, api);
    var after := Recovered(jobs, states, api).jobs;
    forall i, j | 0 <= i < j < |states| && LastOccurrence(states, i) && LastOccurrence(states, j)
      ensures api.nameJob(states[i].pid) != api.nameJob(states[j].pid)
    {
      assert states[j].containerId != states[i].containerId;
      assert after[states[i].containerId] != after[states[j].containerId];
    }
  }

  /**
   * The failure is not all-or-nothing: with two such records, the first one's
   * entry stays in the map after recover fails on the second.
   */
  lemma RecoverKeepsEntryBeforeDuplicate(jobs: Jobs, first: ContainerState, second: ContainerState, api: JobApi)
    requires api.nameJob(first.pid).Ok? && api.nameJob(first.pid) == api.nameJob(second.pid)
    requires api.nameJob(first.pid).value !in jobs.Values
    ensures Recovered(jobs, [first, second], api) ==
              Step(Err(DuplicateMessage(second)),
                   jobs[first.containerId := api.nameJob(first.pid).value],
                   [NameJob(first.pid), NameJob(second.pid)])
  {
    assert [first, second][1..] == [second];
    assert [second][1..] == [];
    var after := jobs[first.containerId := api.nameJob(first.pid).value];
    assert after[first.containerId] in after.Values;
  }

  // ------------------------------------------------------------------- fork

  /**
   * The parent hook run by the spawner: name the pid's job, create that job,
   * assign the pid to it; the first error is returned and the later steps are skipped.
   */
  function ParentHook(pid: Pid, api: JobApi): (r: Traced<Nothing>)
    ensures api.nameJob(pid).Err? ==> r == Traced(Err(api.nameJob(pid).error), [NameJob(pid)])
    ensures api.nameJob(pid).Ok? ==>
              var name := api.nameJob(pid).value;
              && (api.createJob(name).Err? ==>
                    r == Traced(Err(api.createJob(name).error), [NameJob(pid), CreateJob(name)]))
              && (api.createJob(name).Ok? && api.assignJob(name, pid).Err? ==>
                    r == Traced(Err(api.assignJob(name, pid).error), [NameJob(pid), CreateJob(name), AssignJob(name, pid)]))
              && (api.createJob(name).Ok? && api.assignJob(name, pid).Ok? ==>
                    r == Traced(Ok(Nothing), [NameJob(pid), CreateJob(name), AssignJob(name, pid)]))
    ensures r.result.Ok? ==> api.nameJob(pid).Ok? && AssignJob(api.nameJob(pid).value, pid) in r.calls
  {
    match api.nameJob(pid)
    case Err(e) => Traced(Err(e), [NameJob(pid)])
    case Ok(name) =>
      match api.createJob(name)
      case Err(e) => Traced(Err(e), [NameJob(pid), CreateJob(name)])
      case Ok(_) =>
        match api.assignJob(name, pid)
        case Err(e) => Traced(Err(e), [NameJob(pid), CreateJob(name), AssignJob(name, pid)])
        case Ok(_) => Traced(Ok(Nothing), [NameJob(pid), CreateJob(name), AssignJob(name, pid)])
  }

  /**
   * `subprocess(...)` with the launcher's parent hook: `spawned` is whether the
   * child process could be created; the hook then runs in the parent before the
   * spawner returns, and a hook failure fails the spawn.
   */
  function Subprocess(command: Command, spawned: Result<Pid, string>, api: JobApi): (r: Traced<Pid>)
    ensures |r.calls| >= 1 && r.calls[0] == Spawn(command.path, command.argv, command.environment)
    ensures spawned.Err? ==> r.result == Err(spawned.error) && |r.calls| == 1
    ensures spawned.Ok? ==> r.calls[1..] == ParentHook(spawned.value, api).calls
    ensures spawned.Ok? && ParentHook(spawned.value, api).result.Err? ==>
              r.result == Err(ParentHook(spawned.value, api).result.error)
    ensures r.result.Ok? <==> spawned.Ok? && ParentHook(spawned.value, api).result.Ok?
    ensures r.result.Ok? ==> r.result.value == spawned.value
  {
    var call := Spawn(command.path, command.argv, command.environment);
    match spawned
    case Err(e) => Traced(Err(e), [call])
    case Ok(pid) =>
      var hook := ParentHook(pid, api);
      assert ([call] + hook.calls)[1..] == hook.calls;
      match hook.result
      case Err(e) => Traced(Err(e), [call] + hook.calls)
      case Ok(_) => Traced(Ok(pid), [call] + hook.calls)
  }

  /** A namespace option the Windows launcher cannot honour: present and non-zero. */
  predicate NamespaceRequested(option: Option<int>) {
    option.Some? && option.value != 0
  }

  /**
   * `fork(containerId, ...)`: refuse namespace options and an already tracked
   * container before anything else; spawn with the parent hook; name the
   * child's job once more and record it.
   * `nameJobAgain` answers that second `name_job` call, which the system may
   * answer differently from the first (the child may have exited).
   */
  function Forked(jobs: Jobs, containerId: ContainerID, command: Command,
                  enterNamespaces: Option<int>, cloneNamespaces: Option<int>,
                  spawned: Result<Pid, string>, api: JobApi,
                  nameJobAgain: Pid -> Result<JobName, string>): (r: Step<Pid>)
    ensures NamespaceRequested(enterNamespaces) ==>
              r == Step(Err("Windows launcher does not support entering namespaces"), jobs, [])
    ensures !NamespaceRequested(enterNamespaces) && NamespaceRequested(cloneNamespaces) ==>
              r == Step(Err("Windows launcher does not support cloning namespaces"), jobs, [])
    ensures !NamespaceRequested(enterNamespaces) && !NamespaceRequested(cloneNamespaces) && containerId in jobs ==>
              r == Step(Err("Process has already been forked for container " + containerId.value), jobs, [])
    ensures r.calls != [] ==> r.calls[0] == Spawn(command.path, command.argv, command.environment)
    ensures r.result.Err? ==> r.jobs == jobs
    ensures !NamespaceRequested(enterNamespaces) && !NamespaceRequested(cloneNamespaces) && containerId !in jobs &&
            Subprocess(command, spawned, api).result.Err? ==>
              r.result == Err("Failed to fork a child process: " + Subprocess(command, spawned, api).result.error)
    ensures !NamespaceRequested(enterNamespaces) && !NamespaceRequested(cloneNamespaces) && containerId !in jobs &&
            Subprocess(command, spawned, api).result.Ok? && nameJobAgain(spawned.value).Err? ==>
              r.result == Err(nameJobAgain(spawned.value).error)
    ensures r.result.Ok? <==>
              && !NamespaceRequested(enterNamespaces) && !NamespaceRequested(cloneNamespaces)
              && containerId !in jobs
              && Subprocess(command, spawned, api).result.Ok?
              && nameJobAgain(spawned.value).Ok?
    ensures r.result.Ok? ==>
              && r.result == spawned
              && r.jobs == jobs[containerId := nameJobAgain(spawned.value).value]
              && r.calls == Subprocess(command, spawned, api).calls + [NameJob(spawned.value)]
  {
    if NamespaceRequested(enterNamespaces) then
      Step(Err("Windows launcher does not support entering namespaces"), jobs, [])
    else if NamespaceRequested(cloneNamespaces) then
      Step(Err("Windows launcher does not support cloning namespaces"), jobs, [])
    else if containerId in jobs then
      Step(Err("Process has already been forked for container " + containerId.value), jobs, [])
    else
      var child := Subprocess(command, spawned, api);
      match child.result
      case Err(e) => Step(Err("Failed to fork a child process: " + e), jobs, child.calls)
      case Ok(pid) =>
        match nameJobAgain(pid)
        case Err(e) => Step(Err(e), jobs, child.calls + [NameJob(pid)])
        case Ok(name) => Step(Ok(pid), jobs[containerId := name], child.calls + [NameJob(pid)])
  }

  /** A fork that succeeds leaves every other container's entry as it was. */
  lemma ForkKeepsOtherEntries(jobs: Jobs, containerId: ContainerID, command: Command,
                              enterNamespaces: Option<int>, cloneNamespaces: Option<int>,
                              spawned: Result<Pid, string>, api: JobApi,
                              nameJobAgain: Pid -> Result<JobName, string>)
    requires Forked(jobs, containerId, command, enterNamespaces, cloneNamespaces, spawned, api, nameJobAgain).result.Ok?
    ensures var after := Forked(jobs, containerId, command, enterNamespaces, cloneNamespaces, spawned, api, nameJobAgain).jobs;
            && after.Keys == jobs.Keys + {containerId}
            && forall id | id in jobs :: after[id] == jobs[id]
  {
  }

  /**
   * When naming is stable (the second `name_job` answers like the first), the
   * recorded job is the one the parent hook created and assigned the child to.
   */
  lemma ForkRecordsAssignedJob(jobs: Jobs, containerId: ContainerID, command: Command,
                               spawned: Result<Pid, string>, api: JobApi)
    requires Forked(jobs, containerId, command, None, None, spawned, api, api.nameJob).result.Ok?
    ensures var r := Forked(jobs, containerId, command, None, None, spawned, api, api.nameJob);
            && CreateJob(r.jobs[containerId]) in r.calls
            && AssignJob(r.jobs[containerId], spawned.value) in r.calls
  {
  }

  /**
   * Fork does not itself test the new name against the map; injectivity is kept
   * because `create_job` refuses a name that already names a job, and naming is stable.
   */
  lemma ForkPreservesInjective(jobs: Jobs, containerId: ContainerID, command: Command,
                               enterNamespaces: Option<int>, cloneNamespaces: Option<int>,
                               spawned: Result<Pid, string>, api: JobApi)
    requires Injective(jobs)
    requires forall name | name in jobs.Values :: api.createJob(name).Err?
    ensures Injective(Forked(jobs, containerId, command, enterNamespaces, cloneNamespaces, spawned, api, api.nameJob).jobs)
  {
  }

  /** Without the job API's refusal, fork can hand two containers the same job. */
  lemma ForkCanShareJob(api: JobApi, command: Command, pid: Pid, a: ContainerID, b: ContainerID)
    requires a != b
    requires api.nameJob(pid).Ok?
    requires api.createJob(api.nameJob(pid).value).Ok? && api.assignJob(api.nameJob(pid).value, pid).Ok?
    ensures var jobs := map[a := api.nameJob(pid).value];
            var r := Forked(jobs, b, command, None, None, Ok(pid), api, api.nameJob);
            r.result == Ok(pid) && !Injective(r.jobs)
  {
    var jobs := map[a := api.nameJob(pid).value];
    var r := Forked(jobs, b, command, None, None, Ok(pid), api, api.nameJob);
    assert r.jobs[a] == r.jobs[b];
  }

  /** A second fork of a tracked container fails with "already forked" and leaves the map alone, whatever it asks for. */
  lemma ForkTwiceFails(jobs: Jobs, containerId: ContainerID, command: Command,
                       spawned: Result<Pid, string>, api: JobApi, nameJobAgain: Pid -> Result<JobName, string>,
                       command2: Command, spawned2: Result<Pid, string>, nameJobAgain2: Pid -> Result<JobName, string>)
    requires Forked(jobs, containerId, command, None, None, spawned, api, nameJobAgain).result.Ok?
    ensures var first := Forked(jobs, containerId, command, None, None, spawned, api, nameJobAgain);
            Forked(first.jobs, containerId, command2, None, None, spawned2, api, nameJobAgain2) ==
              Step(Err("Process has already been forked for container " + containerId.value), first.jobs, [])
  {
  }

  // ---------------------------------------------------------------- destroy

  /** `destroy(containerId)`: nothing to do for an unknown container; otherwise kill its job and forget it. */
  function Destroyed(jobs: Jobs, containerId: ContainerID, api: JobApi): (r: Step<Nothing>)
    ensures containerId !in jobs ==> r == Step(Ok(Nothing), jobs, [])
    ensures containerId in jobs ==> r.calls == [KillJob(jobs[containerId])]
    ensures containerId in jobs && api.killJob(jobs[containerId]).Err? ==>
              r.result == Err("Failed to kill job object: " + api.killJob(jobs[containerId]).error) && r.jobs == jobs
    ensures r.result.Ok? <==> (containerId in jobs ==> api.killJob(jobs[containerId]).Ok?)
    ensures r.result.Ok? ==> r.jobs == jobs - {containerId}
  {
    if containerId !in jobs then Step(Ok(Nothing), jobs, [])
    else
      var name := jobs[containerId];
      match api.killJob(name)
      case Err(e) => Step(Err("Failed to kill job object: " + e), jobs, [KillJob(name)])
      case Ok(_) => Step(Ok(Nothing), jobs - {containerId}, [KillJob(name)])
  }

  /** Destroy after a successful destroy is a successful no-op that calls nothing. */
  lemma DestroyIdempotent(jobs: Jobs, containerId: ContainerID, api: JobApi, api2: JobApi)
    requires Destroyed(jobs, containerId, api).result.Ok?
    ensures var once := Destroyed(jobs, containerId, api);
            Destroyed(once.jobs, containerId, api2) == Step(Ok(Nothing), once.jobs, [])
  {
  }

  /** Destroy never makes two containers share a job. */
  lemma DestroyPreservesInjective(jobs: Jobs, containerId: ContainerID, api: JobApi)
    requires Injective(jobs)
    ensures Injective(Destroyed(jobs, containerId, api).jobs)
  {
  }

  // ----------------------------------------------------------------- status

  /** `status(containerId)`: an empty status for a tracked container, "Container does not exist!" otherwise. */
  function StatusOf(jobs: Jobs, containerId: ContainerID): (r: Result<ContainerStatus, string>)
    ensures r.Err? <==> containerId !in jobs
    ensures r.Err? ==> r.error == "Container does not exist!"
  {
    if containerId !in jobs then Err("Container does not exist!") else Ok(ContainerStatus)
  }

  /** Status succeeds right after a successful fork of the container, and fails right after a successful destroy. */
  lemma StatusAfterForkAndDestroy(jobs: Jobs, containerId: ContainerID, command: Command,
                                  enterNamespaces: Option<int>, cloneNamespaces: Option<int>,
                                  spawned: Result<Pid, string>, api: JobApi,
                                  nameJobAgain: Pid -> Result<JobName, string>)
    ensures Forked(jobs, containerId, command, enterNamespaces, cloneNamespaces, spawned, api, nameJobAgain).result.Ok? ==>
              StatusOf(Forked(jobs, containerId, command, enterNamespaces, cloneNamespaces, spawned, api, nameJobAgain).jobs,
                       containerId).Ok?
    ensures Destroyed(jobs, containerId, api).result.Ok? ==>
              StatusOf(Destroyed(jobs, containerId, api).jobs, containerId) == Err("Container does not exist!")
  {
  }

  /**
   * The life of one container from an empty recover: fork succeeds, status
   * succeeds, destroy succeeds and empties the map, and a second destroy is a no-op.
   */
  lemma Lifecycle(c: ContainerID, command: Command, pid: Pid, api: JobApi)
    requires ParentHook(pid, api).result.Ok?
    requires api.killJob(api.nameJob(pid).value).Ok?
    ensures var recovered := Recovered(map[], [], api);
            var forked := Forked(recovered.jobs, c, command, None, None, Ok(pid), api, api.nameJob);
            var destroyed := Destroyed(forked.jobs, c, api);
            && recovered == Step(Ok({}), map[], [])
            && forked.result == Ok(pid)
            && StatusOf(forked.jobs, c).Ok?
            && destroyed.result.Ok? && destroyed.jobs == map[]
            && Destroyed(destroyed.jobs, c, api) == Step(Ok(Nothing), map[], [])
  {
  }

  // ------------------------------------------------------------- the class

  /** `WindowsLauncher`, whose one field is the `jobs` map. */
  class WindowsLauncher {
    var jobs: Jobs

    /** A new launcher tracks no container. */
    constructor ()
      ensures jobs == map[]
    {
      jobs := map[];
    }

    /** `recover`: a loop over the persisted states that returns early on the first failure. */
    method Recover(states: seq<ContainerState>, api: JobApi) returns (r: Result<set<ContainerID>, string>)
      modifies this
      ensures r == Recovered(old(jobs), states, api).result
      ensures jobs == Recovered(old(jobs), states, api).jobs
    {
      var i := 0;
      while i < |states|
        invariant 0 <= i <= |states|
        invariant Recovered(old(jobs), states, api).result == Recovered(jobs, states[i..], api).result
        invariant Recovered(old(jobs), states, api).jobs == Recovered(jobs, states[i..], api).jobs
      {
        var state := states[i];
        assert states[i..][0] == state && states[i..][1..] == states[i + 1..];
        var name := api.nameJob(state.pid);
        if name.Err? {
          return Err(NAME_JOB_FAILED);
        }
        if name.value in jobs.Values {
          return Err(DuplicateMessage(state));
        }
        jobs := jobs[state.containerId := name.value];
        i := i + 1;
      }
      return Ok({});
    }

    /** `fork`: the checks, the spawn with its parent hook, then the insert. */
    method Fork(containerId: ContainerID, command: Command,
                enterNamespaces: Option<int>, cloneNamespaces: Option<int>,
                spawned: Result<Pid, string>, api: JobApi,
                nameJobAgain: Pid -> Result<JobName, string>) returns (r: Result<Pid, string>)
      modifies this
      ensures r == Forked(old(jobs), containerId, command, enterNamespaces, cloneNamespaces, spawned, api, nameJobAgain).result
      ensures jobs == Forked(old(jobs), containerId, command, enterNamespaces, cloneNamespaces, spawned, api, nameJobAgain).jobs
    {
      if NamespaceRequested(enterNamespaces) {
        return Err("Windows launcher does not support entering namespaces");
      }
      if NamespaceRequested(cloneNamespaces) {
        return Err("Windows launcher does not support cloning namespaces");
      }
      if containerId in jobs {
        return Err("Process has already been forked for container " + containerId.value);
      }
      var child := Subprocess(command, spawned, api).result;
      if child.Err? {
        return Err("Failed to fork a child process: " + child.error);
      }
      var name := nameJobAgain(child.value);
      if name.Err? {
        return Err(name.error);
      }
      jobs := jobs[containerId := name.value];
      return Ok(child.value);
    }

    /** `destroy`: kill the container's job, then erase its entry. */
    method Destroy(containerId: ContainerID, api: JobApi) returns (r: Result<Nothing, string>)
      modifies this
      ensures r == Destroyed(old(jobs), containerId, api).result
      ensures jobs == Destroyed(old(jobs), containerId, api).jobs
    {
      if containerId !in jobs {
        return Ok(Nothing);
      }
      var name := jobs[containerId];
      var killed := api.killJob(name);
      if killed.Err? {
        return Err("Failed to kill job object: " + killed.error);
      }
      jobs := jobs - {containerId};
      return Ok(Nothing);
    }

    /** `status`: reads the map and changes nothing. */
    method Status(containerId: ContainerID) returns (r: Result<ContainerStatus, string>)
      ensures r == StatusOf(jobs, containerId)
      ensures r.Err? <==> containerId !in jobs
    {
      if containerId !in jobs {
        return Err("Container does not exist!");
      }
      return Ok(ContainerStatus);
    }
  }
}
