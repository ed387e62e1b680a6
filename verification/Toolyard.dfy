/** Starting and stopping tools against one saved record of what runs (admin/toolyard_ops.py), with the process
    runner's partial starts and cleanups and its calls to the secret provider (toolyard/runner.py).

    A process is a value that is never reused: pid, start time and boot together. Ending one is confirmed or
    not; an unconfirmed one may or may not still run. Every method here runs under the state lock. */
module Toolyard {
  import opened Wrappers
  import SpsRecovery

  type Proc = nat

  /** A child of a tool and whether its exit was positively confirmed. */
  datatype Child = NoChild | Child(proc: Proc, exited: bool) {
    function Carried(): set<Proc> {
      if Child? && !exited then {proc} else {}
    }
  }

  /** The record of a running tool: its main process, its helpers, and the secret it was registered with. */
  datatype RunningTool = RunningTool(tool: string, main: Child, log: Child, egress: Child,
                                     secret: Option<SpsRecovery.Secret>) {
    function Get(kind: nat): Child {
      if kind == 0 then main else if kind == 1 then log else egress
    }

    function Exited(kind: nat): RunningTool
      requires Get(kind).Child?
    {
      if kind == 0 then this.(main := main.(exited := true))
      else if kind == 1 then this.(log := log.(exited := true))
      else this.(egress := egress.(exited := true))
    }

    /** The processes of the record not confirmed gone. */
    function Carried(): set<Proc> {
      main.Carried() + log.Carried() + egress.Carried()
    }
  }

  type Records = map<string, RunningTool>

  function CarriedBy(records: Records): set<Proc> {
    set tool, p | tool in records && p in records[tool].Carried() :: p
  }

  /** The machine: processes below next were started at some time, those in gone are known to have ended. Its faults
      are the spawns that failed, the tools that did not answer and the exits that were not confirmed. */
  class Host {
    var live: set<Proc>
    var next: Proc
    ghost var gone: set<Proc>
    ghost var attempted: set<Proc>
    ghost var faults: nat

    ghost predicate Valid()
      reads this
    {
      && gone !! live
      && (forall p | p in live :: p < next)
      && (forall p | p in gone :: p < next)
    }

    ghost predicate Knows(procs: set<Proc>)
      reads this
    {
      forall p | p in procs :: p < next
    }

    constructor ()
      ensures Valid() && next == 0
    {
      live, next, gone, attempted, faults := {}, 0, {}, {}, 0;
    }

    method Spawn() returns (p: Option<Proc>)
      requires Valid()
      modifies this
      ensures Valid() && gone == old(gone) && attempted == old(attempted)
      ensures p.None? ==> next == old(next) && faults == old(faults) + 1
      ensures p.Some? ==> p.value == old(next) && next == old(next) + 1 && faults == old(faults)
    {
      var fails: bool := *;
      if fails {
        faults := faults + 1;
        return None;
      }
      p := Some(next);
      live, next := live + {next}, next + 1;
    }

    /** Looks whether a process is gone. Only a positive answer is one. */
    method Observe(p: Proc) returns (confirmed: bool)
      requires Valid() && p < next
      modifies this
      ensures Valid() && next == old(next) && attempted == old(attempted) && faults == old(faults)
      ensures gone == old(gone) + if confirmed then {p} else {}
    {
      var seen: bool := *;
      confirmed := seen && p !in live;
      if confirmed {
        gone := gone + {p};
      }
    }

    /** Signals a process and looks. */
    method Terminate(p: Proc) returns (confirmed: bool)
      requires Valid() && p < next
      modifies this
      ensures Valid() && next == old(next) && attempted == old(attempted) + {p}
      ensures gone == old(gone) + if confirmed then {p} else {}
      ensures faults == old(faults) + if confirmed then 0 else 1
    {
      attempted := attempted + {p};
      var dies: bool := *;
      if dies {
        live := live - {p};
      }
      confirmed := Observe(p);
      if !confirmed {
        faults := faults + 1;
      }
    }

    /** Asks a tool whether it is ready. */
    method Answers() returns (ready: bool)
      requires Valid()
      modifies this
      ensures Valid() && next == old(next) && gone == old(gone) && attempted == old(attempted)
      ensures faults == old(faults) + if ready then 0 else 1
    {
      ready := *;
      if !ready {
        faults := faults + 1;
      }
    }
  }

  /** The state file. A save that fails may have been published all the same. */
  class StateFile {
    var saved: Records
    ghost var tried: seq<Records>  // what it was asked to hold, in order
    ghost var faults: nat          // how many saves failed

    constructor ()
      ensures saved == map[] && tried == [] && faults == 0
    {
      saved, tried, faults := map[], [], 0;
    }

    method Save(state: Records) returns (ok: bool)
      modifies this
      ensures ok ==> saved == state
      ensures !ok ==> saved in {state, old(saved)}
      ensures tried == old(tried) + [state] && faults == old(faults) + if ok then 0 else 1
    {
      tried := tried + [state];
      var published: bool := *;
      if published {
        saved := state;
      }
      var reported: bool := *;
      ok := published && reported;
      if !ok {
        faults := faults + 1;
      }
    }
  }

  /** Attempts every child not yet confirmed gone, and keeps a receipt for each exit confirmed. */
  method CleanupPartialStart(host: Host, running: RunningTool) returns (r: RunningTool, failed: bool)
    requires host.Valid() && host.Knows(running.Carried())
    modifies host
    ensures host.Valid() && host.next == old(host.next)
    ensures r.tool == running.tool && r.secret == running.secret && r.Carried() <= running.Carried()
    ensures failed <==> r.Carried() != {}
    ensures old(host.faults) <= host.faults && (failed ==> old(host.faults) < host.faults)
    ensures old(host.gone) <= host.gone && running.Carried() - r.Carried() <= host.gone
    ensures running.Carried() <= host.attempted
  {
    r, failed := running, false;
    ghost var left := 0;
    Children(running);
    hide RunningTool.Carried, RunningTool.Exited, RunningTool.Get;
    for kind := 0 to 3
      invariant host.Valid() && host.next == old(host.next)
      invariant r.tool == running.tool && r.secret == running.secret && r.Carried() <= running.Carried()
      invariant forall k | kind <= k < 3 :: r.Get(k) == running.Get(k)
      invariant failed ==> 0 <= left < kind && r.Get(left).Carried() != {}
      invariant !failed ==> forall k | 0 <= k < kind :: r.Get(k).Carried() == {}
      invariant old(host.gone) <= host.gone && running.Carried() - r.Carried() <= host.gone
      invariant old(host.faults) <= host.faults && (failed ==> old(host.faults) < host.faults)
      invariant forall k | 0 <= k < kind :: running.Get(k).Carried() <= host.attempted
    {
      var child := r.Get(kind);
      if child.NoChild? || child.exited {
        assert r.Get(kind).Carried() == {};
        continue;
      }
      var confirmed := host.Terminate(child.proc);
      if confirmed {
        ExitedGet(r, kind);
        r := r.Exited(kind);
      } else {
        assert child.proc in r.Get(kind).Carried();
        failed, left := true, kind;
      }
    }
    Children(r);
  }

  lemma ExitedGet(r: RunningTool, kind: nat)
    requires kind < 3 && r.Get(kind).Child?
    ensures var r' := r.Exited(kind);
            && r'.tool == r.tool && r'.secret == r.secret && r'.Get(kind).Carried() == {}
            && (forall k: nat | k < 3 && k != kind :: r'.Get(k) == r.Get(k))
            && r'.Carried() <= r.Carried() && r.Carried() - r'.Carried() <= {r.Get(kind).proc}
  {
  }

  lemma Children(r: RunningTool)
    ensures r.Carried() == r.Get(0).Carried() + r.Get(1).Carried() + r.Get(2).Carried()
  {
  }

  // ---- the runner ---------------------------------------------------------------------------------

  /** A failed start carries the record of what may have survived it. */
  datatype StartResult = Launched(running: RunningTool) | StartFailed(survivor: Option<RunningTool>)

  function CarriedIn(r: Option<RunningTool>): set<Proc> {
    if r.Some? then r.value.Carried() else {}
  }

  /** The processes a start created, confirmed gone or accounted for. */
  twostate predicate NewAccounted(host: Host, carried: set<Proc>)
    reads host
  {
    forall p | old(host.next) <= p < host.next :: p in host.gone || p in carried
  }

  /** How a tool is to be started: whether it needs an egress proxy, whether the provider is in use, its use skipped
      for development or its configuration broken, and the secret and declarations to register. */
  datatype Setup = Setup(egress: bool, provided: bool, skipped: bool, broken: bool, secret: SpsRecovery.Secret,
                         declared: SpsRecovery.Declarations)

  /** The provider knows the tool under the secret its record holds. */
  predicate Enrolled(provider: SpsRecovery.RegistrationStore, running: RunningTool)
    reads provider
  {
    SpsRecovery.Holds(provider.byId, running.tool, running.secret)
  }

  twostate predicate OthersEnrolled(provider: SpsRecovery.RegistrationStore, tool: string)
    reads provider
  {
    provider.byId - {tool} == old(provider.byId) - {tool}
  }

  /** A broken provider configuration, or secrets declared without a provider, short of development. */
  predicate Inadmissible(setup: Setup) {
    if setup.provided then setup.broken else setup.declared != [] && !setup.skipped
  }

  /** What registering before a start comes to: it may go on with a secret, go on without, or not at all. */
  datatype Admission = Refused | Secretless | Admitted

  method Enrol(provider: SpsRecovery.RegistrationStore, tool: string, setup: Setup) returns (r: Admission)
    modifies provider
    ensures OthersEnrolled(provider, tool)
    ensures r.Admitted? ==> SpsRecovery.Holds(provider.byId, tool, Some(setup.secret))
    ensures r.Secretless? && setup.declared != [] ==> !setup.provided && setup.skipped
    ensures old(provider.faults) <= provider.faults
    ensures r.Refused? ==> Inadmissible(setup) || old(provider.faults) < provider.faults
  {
    if !setup.provided {
      return if setup.declared != [] && !setup.skipped then Refused else Secretless;
    }
    if setup.broken {
      return Refused;
    }
    var before := provider.byId;
    var ok := provider.TryRegister(tool, SpsRecovery.Registration(setup.secret, setup.declared));
    assert before[tool := SpsRecovery.Registration(setup.secret, setup.declared)] - {tool} == before - {tool};
    return if ok then Admitted else if setup.declared != [] then Refused else Secretless;
  }

  /** ProcessRunner.stop: every child is attempted, and then the provider is told, whatever that found. */
  method StopRuntime(host: Host, provider: SpsRecovery.RegistrationStore, running: RunningTool)
    returns (r: RunningTool, failed: bool)
    requires host.Valid() && host.Knows(running.Carried())
    modifies host, provider
    ensures host.Valid() && host.next == old(host.next) && OthersEnrolled(provider, running.tool)
    ensures r.tool == running.tool && r.secret == running.secret && r.Carried() <= running.Carried()
    ensures failed <==> r.Carried() != {}
    ensures old(host.faults) <= host.faults && (failed ==> old(host.faults) < host.faults)
    ensures provider.faults == old(provider.faults)
    ensures old(host.gone) <= host.gone && running.Carried() - r.Carried() <= host.gone
    ensures running.Carried() <= host.attempted
    ensures provider.withdrawn == old(provider.withdrawn) + if running.secret.Some? then {running.tool} else {}
    ensures running.secret.None? ==> provider.byId == old(provider.byId)
  {
    r, failed := CleanupPartialStart(host, running);
    if running.secret.Some? {
      provider.TryUnregister(running.tool);
    }
  }

  /** Something failed: a registration, a spawn, a tool that did not answer or ended at once, an exit not confirmed. */
  twostate predicate Failing(host: Host, provider: SpsRecovery.RegistrationStore)
    reads host, provider
  {
    || old(host.faults) < host.faults || old(provider.faults) < provider.faults
    || exists p :: old(host.next) <= p < host.next && p in host.gone
  }

  /** The recorded main process was started since, and is not known to have ended. */
  twostate predicate Fresh(host: Host, running: RunningTool)
    reads host
  {
    running.main.Child? && !running.main.exited && old(host.next) <= running.main.proc < host.next
  }

  /** Spawns an egress proxy when the tool needs one, then the tool itself, and waits for it. */
  method SpawnTool(host: Host, before: RunningTool, egress: bool) returns (running: RunningTool, ready: bool)
    requires host.Valid() && before.Carried() == {}
    modifies host
    ensures host.Valid() && old(host.next) <= host.next && old(host.gone) <= host.gone
    ensures running.tool == before.tool && running.secret == before.secret
    ensures host.Knows(running.Carried()) && NewAccounted(host, running.Carried())
    ensures ready ==> Fresh(host, running)
    ensures old(host.faults) <= host.faults
    ensures ready || old(host.faults) < host.faults || exists p :: old(host.next) <= p < host.next && p in host.gone
  {
    running, ready := before, false;
    if egress {
      var proxy := host.Spawn();
      if proxy.None? {
        return;
      }
      running := running.(egress := Child(proxy.value, false));
    }
    var main := host.Spawn();
    if main.None? {
      return;
    }
    running := running.(main := Child(main.value, false));
    var reaped := host.Observe(main.value);
    if reaped {
      running := running.Exited(0);
    }
    if !reaped {
      ready := host.Answers();
    }
  }

  /** ProcessRunner.start: registration with the provider, an egress proxy when the tool needs one, then the tool
      itself, then a readiness check; a failure at any point cleans up what was spawned so far and withdraws the
      registration. A tool that declares secrets is not launched without one, short of development. */
  method StartRuntime(host: Host, provider: SpsRecovery.RegistrationStore, tool: string, setup: Setup)
    returns (r: StartResult)
    requires host.Valid()
    modifies host, provider
    ensures host.Valid() && old(host.next) <= host.next && old(host.gone) <= host.gone
    ensures OthersEnrolled(provider, tool)
    ensures r.Launched? ==> r.running.tool == tool && Enrolled(provider, r.running) && Fresh(host, r.running)
    ensures r.Launched? && setup.declared != [] ==> r.running.secret.Some? || (!setup.provided && setup.skipped)
    ensures r.Launched? ==> host.Knows(r.running.Carried()) && NewAccounted(host, r.running.Carried())
    ensures r.StartFailed? && r.survivor.Some? ==> r.survivor.value.tool == tool
    ensures r.StartFailed? ==> host.Knows(CarriedIn(r.survivor)) && NewAccounted(host, CarriedIn(r.survivor))
    ensures r.StartFailed? ==> Inadmissible(setup) || Failing(host, provider)
  {
    var admission := Enrol(provider, tool, setup);
    var running := RunningTool(tool, NoChild, NoChild, NoChild,
                               if admission.Admitted? then Some(setup.secret) else None);
    var ready := false;
    if !admission.Refused? {
      running, ready := SpawnTool(host, running, setup.egress);
    }
    if ready {
      return Launched(running);
    }
    var survivor, failed := StopRuntime(host, provider, running);
    return StartFailed(if failed then Some(survivor) else None);
  }

  // ---- the panel ----------------------------------------------------------------------------------

  /** What an operation ends with; an error may carry the record of a runtime that could not be saved. */
  datatype Result = Done | Raised(carried: Option<RunningTool>)

  function CarriedOut(r: Result): set<Proc> {
    if r.Raised? then CarriedIn(r.carried) else {}
  }

  /** Saved records are each their own tool's, and name only processes that were started. */
  ghost predicate Sound(host: Host, file: StateFile)
    reads host, file
  {
    host.Valid() && host.Knows(CarriedBy(file.saved))
    && forall tool | tool in file.saved :: file.saved[tool].tool == tool
  }

  /** The processes neither confirmed gone nor in a saved record. */
  ghost function Orphans(host: Host, file: StateFile): set<Proc>
    reads host, file
  {
    set p: Proc | p < host.next && p !in host.gone && p !in CarriedBy(file.saved)
  }

  twostate predicate OthersKept(file: StateFile, tool: string)
    reads file
  {
    file.saved - {tool} == old(file.saved) - {tool}
  }

  lemma CarriedSplit(records: Records, tool: string)
    ensures CarriedBy(records)
         == CarriedBy(records - {tool}) + if tool in records then records[tool].Carried() else {}
  {
    forall p | p in CarriedBy(records)
      ensures p in CarriedBy(records - {tool}) + if tool in records then records[tool].Carried() else {}
    {
      var t :| t in records && p in records[t].Carried();
      assert t != tool ==> t in records - {tool} && (records - {tool})[t] == records[t];
    }
    forall p | p in CarriedBy(records - {tool}) ensures p in CarriedBy(records) {
      var t :| t in records - {tool} && p in (records - {tool})[t].Carried();
      assert t in records && records[t] == (records - {tool})[t];
    }
  }

  /** Saves a runtime, or stops it again; if that fails too, the error carries it. */
  method RecordOrRollback(host: Host, provider: SpsRecovery.RegistrationStore, file: StateFile, state: Records,
                          running: RunningTool)
    returns (r: Result)
    requires Sound(host, file) && state == file.saved && running.tool !in state
    requires host.Knows(running.Carried())
    modifies host, provider, file
    ensures Sound(host, file) && OthersKept(file, running.tool) && OthersEnrolled(provider, running.tool)
    ensures host.next == old(host.next) && old(host.gone) <= host.gone
    ensures Orphans(host, file) <= old(Orphans(host, file)) - running.Carried() + CarriedOut(r)
    ensures r == Done ==> file.saved == state[running.tool := running] && provider.byId == old(provider.byId)
    ensures r.Raised? && r.carried.Some? ==> r.carried.value == running
    ensures old(host.faults) <= host.faults && provider.faults == old(provider.faults)
    ensures old(file.faults) <= file.faults && (r.Raised? ==> old(file.faults) < file.faults)
    ensures file.tried == old(file.tried) + [state[running.tool := running]] + if r == Raised(None) then [state] else []
  {
    var tool := running.tool;
    var recorded := state[tool := running];
    assert recorded - {tool} == state && state - {tool} == state;
    CarriedSplit(recorded, tool);
    hide CarriedBy, RunningTool.Carried;
    var ok := file.Save(recorded);
    if ok {
      return Done;
    }
    var _, failed := StopRuntime(host, provider, running);
    if failed {
      return Raised(Some(running));
    }
    var _ := file.Save(state);
    return Raised(None);
  }

  /** Stops the recorded runtime and forgets it; an unconfirmed stop keeps what is left in the record. */
  method StopRecorded(host: Host, provider: SpsRecovery.RegistrationStore, file: StateFile, state: Records,
                      tool: string)
    returns (r: Result, rest: Records)
    requires Sound(host, file) && tool in state && state == file.saved
    modifies host, provider, file
    ensures Sound(host, file) && OthersKept(file, tool) && OthersEnrolled(provider, tool)
    ensures host.next == old(host.next) && old(host.gone) <= host.gone
    ensures Orphans(host, file) <= old(Orphans(host, file))
    ensures r == Done ==> rest == file.saved == state - {tool} && state[tool].Carried() <= host.gone
    ensures state[tool].secret.Some? && state[tool].tool == tool ==> tool in provider.withdrawn
    ensures old(host.faults) <= host.faults && provider.faults == old(provider.faults)
    ensures old(file.faults) <= file.faults
    ensures r.Raised? ==> old(host.faults) < host.faults || old(file.faults) < file.faults
    ensures file.tried == old(file.tried) + [if r.Raised? && r.carried.Some? then state[tool := r.carried.value]
                                             else state - {tool}]
    ensures r.Raised? && r.carried.Some? ==> r.carried.value.Carried() <= state[tool].Carried()
                                             && state[tool].Carried() - r.carried.value.Carried() <= host.gone
  {
    CarriedSplit(state, tool);
    hide CarriedBy, RunningTool.Carried;
    var survivor, failed := StopRuntime(host, provider, state[tool]);
    rest := state - {tool};
    if failed {
      var kept := state[tool := survivor];
      assert kept - {tool} == rest;
      CarriedSplit(kept, tool);
      var _ := file.Save(kept);
      return Raised(Some(survivor)), state;
    }
    var ok := file.Save(rest);
    return if ok then Done else Raised(None), rest;
  }

  /** Starts a tool that has no record, and records it. */
  method Launch(host: Host, provider: SpsRecovery.RegistrationStore, file: StateFile, state: Records, tool: string,
                setup: Setup)
    returns (r: Result)
    requires Sound(host, file) && state == file.saved && tool !in state
    modifies host, provider, file
    ensures Sound(host, file) && OthersKept(file, tool) && OthersEnrolled(provider, tool)
    ensures old(host.gone) <= host.gone && old(host.next) <= host.next
    ensures Orphans(host, file) <= old(Orphans(host, file)) + CarriedOut(r)
    ensures r == Done ==> tool in file.saved && Fresh(host, file.saved[tool]) && Enrolled(provider, file.saved[tool])
    ensures r.Raised? ==> Inadmissible(setup) || Failing(host, provider) || old(file.faults) < file.faults
  {
    hide RunningTool.Carried;
    var started := StartRuntime(host, provider, tool, setup);
    if started.Launched? {
      r := RecordOrRollback(host, provider, file, state, started.running);
    } else if started.survivor.None? {
      r := Raised(None);
    } else {
      r := RecordOrRollback(host, provider, file, state, started.survivor.value);
      if r.Done? {
        r := Raised(started.survivor);
      }
    }
  }

  /** Starts a tool unless it already runs; refused stands for an unknown tool or missing declarations, and alive is
      what an inspection of the recorded runtime tells, if it succeeds. Nothing is orphaned that the error does not
      carry, and nothing is spawned before the recorded runtime is confirmed gone. It fails only for a reason. */
  method Start(host: Host, provider: SpsRecovery.RegistrationStore, file: StateFile, tool: string, refused: bool,
               alive: Option<bool>, setup: Setup)
    returns (r: Result)
    requires Sound(host, file)
    modifies host, provider, file
    ensures Sound(host, file) && OthersKept(file, tool) && OthersEnrolled(provider, tool)
    ensures old(host.gone) <= host.gone
    ensures Orphans(host, file) <= old(Orphans(host, file)) + CarriedOut(r)
    ensures host.next != old(host.next) && tool in old(file.saved) ==> old(file.saved)[tool].Carried() <= host.gone
    ensures refused || (tool in old(file.saved) && (alive.None? || alive.value)) ==>
              file.saved == old(file.saved) && provider.byId == old(provider.byId) && host.next == old(host.next)
    ensures r == Done ==>
              && !refused && tool in file.saved
              && if tool in old(file.saved) && alive.Some? && alive.value then file.saved == old(file.saved)
                 else Fresh(host, file.saved[tool]) && Enrolled(provider, file.saved[tool])
    ensures r.Raised? ==>
              || refused || (tool in old(file.saved) && alive == None)
              || Inadmissible(setup) || Failing(host, provider) || old(file.faults) < file.faults
  {
    if refused {
      return Raised(None);
    }
    var state := file.saved;
    if tool in state {
      if alive.None? || alive.value {
        return if alive.Some? then Done else Raised(None);
      }
      r, state := StopRecorded(host, provider, file, state, tool);
      if r.Raised? {
        return;
      }
    }
    r := Launch(host, provider, file, state, tool, setup);
  }

  method Stop(host: Host, provider: SpsRecovery.RegistrationStore, file: StateFile, tool: string) returns (r: Result)
    requires Sound(host, file)
    modifies host, provider, file
    ensures Sound(host, file) && OthersKept(file, tool) && OthersEnrolled(provider, tool) && host.next == old(host.next)
    ensures old(host.gone) <= host.gone
    ensures Orphans(host, file) <= old(Orphans(host, file)) + CarriedOut(r)
    ensures r == Done ==>
              tool !in file.saved && (tool in old(file.saved) ==> old(file.saved)[tool].Carried() <= host.gone)
    ensures r.Raised? ==> Failing(host, provider) || old(file.faults) < file.faults
    ensures old(host.faults) <= host.faults && provider.faults == old(provider.faults)
    ensures old(file.faults) <= file.faults
  {
    if tool !in file.saved {
      return Done;
    }
    var result, _ := StopRecorded(host, provider, file, file.saved, tool);
    return result;
  }

  /** A restart whose stop is not confirmed starts nothing. */
  method Restart(host: Host, provider: SpsRecovery.RegistrationStore, file: StateFile, tool: string, refused: bool,
                 setup: Setup)
    returns (r: Result)
    requires Sound(host, file)
    modifies host, provider, file
    ensures Sound(host, file) && OthersKept(file, tool) && OthersEnrolled(provider, tool)
    ensures old(host.gone) <= host.gone
    ensures Orphans(host, file) <= old(Orphans(host, file)) + CarriedOut(r)
    ensures host.next != old(host.next) && tool in old(file.saved) ==> old(file.saved)[tool].Carried() <= host.gone
    ensures r == Done ==>
              && tool in file.saved && Fresh(host, file.saved[tool]) && Enrolled(provider, file.saved[tool])
              && (tool in old(file.saved) ==> old(file.saved)[tool].Carried() <= host.gone)
    ensures r.Raised? ==> refused || Inadmissible(setup) || Failing(host, provider) || old(file.faults) < file.faults
  {
    r := Stop(host, provider, file, tool);
    if r == Done {
      r := Start(host, provider, file, tool, refused, None, setup);
    }
  }
}
