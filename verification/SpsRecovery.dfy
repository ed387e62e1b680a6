/** Keeping running tools registered with a secret provider (SPS) that forgets everything when it restarts
    (sps/store.py): starts and stops under the state lock (toolyard/runner.py, admin/toolyard_ops.py), the
    re-registration pass (toolyard/runner.py) and the watchdog that acknowledges a boot (admin/sps_watchdog.py).

    Every call to the provider, every save and every process event is one step; the provider may restart, a
    process may die and the lock's holder may crash between any two. A provider call that fails may have taken
    effect, or take it later: each connection has its own thread at the provider. */
module SpsRecovery {
  import opened Wrappers

  type Boot = nat
  type Proc = nat
  type Secret = string
  type Declarations = seq<string>

  datatype Registration = Registration(secret: Secret, entries: Declarations)

  type Pool = map<string, Registration>

  // ---- the system ---------------------------------------------------------------------------------

  /** A saved record. Old records hold no declarations; a tool started without the provider holds no secret. */
  datatype Record = Record(secret: Option<Secret>, declared: Option<Declarations>, proc: Proc)

  /** What a stop is for: to forget the tool, to start it anew, or to clean up a start that failed. */
  datatype Goal = Forget | Replace | Report(record: Record)

  /** Who holds the state lock, and what it does next. */
  datatype Holder =
    | Free
    | Cleaning(tool: string, proc: Proc, goal: Goal)
    | Unregistering(tool: string, goal: Goal, confirmed: bool)
    | Settling(tool: string, goal: Goal, confirmed: bool)
    | Registering(tool: string)
    | Launching(tool: string, secret: Option<Secret>, entries: Declarations)
    | Waiting(tool: string, record: Record)
    | Recording(tool: string, record: Record)
    | Passing(todo: set<string>, complete: bool)

  /** The watchdog thread: the boot it probed, and whether its pass was complete. */
  datatype Watchdog = Resting | Probed(boot: Boot) | Judging(boot: Boot, complete: bool)

  /** A provider call whose caller gave up on it, and which the provider may still carry out. */
  datatype Call = Put(tool: string, registration: Registration) | Drop(tool: string)

  /** The lost set holds the runtimes whose stop or start-cleanup was left unconfirmed; late holds the calls that
      may still take effect, and spoiled those that did, for each tool the last since it was registered or
      unregistered. */
  datatype State = State(boot: Boot, boots: set<Boot>, pool: Pool, late: set<Call>,
                         spoiled: map<string, Call>,
                         records: map<string, Record>, live: set<Proc>, next: Proc, lost: set<Proc>,
                         holder: Holder, watchdog: Watchdog, lastSeen: Option<Boot>)

  /** How a provider call or a save ended. One that fails may have taken effect all the same; a provider call may
      also be left to take effect later. */
  datatype Outcome = Ok | Error(effective: bool) | Delayed

  predicate Took(outcome: Outcome) {
    outcome.Ok? || (outcome.Error? && outcome.effective)
  }

  datatype Step =
    | Restart(boot: Boot)
    | Land(delayed: Call)
    | Die(proc: Proc)
    | Crash
    | AdminCrash
    | EditDeclarations(tool: string, entries: Declarations, save: Outcome)
    | BeginStop(tool: string)
    | BeginStart(tool: string, alive: Option<bool>)
    | Cleanup(confirmed: bool)
    | Unregister(call: Outcome)
    | Settle(save: Outcome)
    | Register(secret: Option<Secret>, entries: Declarations, call: Outcome)
    | Launch(spawned: bool)
    | Await(ready: bool)
    | SaveRecord(save: Outcome)
    | Probe
    | BeginPass
    | PassOne(tool: string, alive: Option<bool>, call: Outcome)
    | FailPass
    | EndPass
    | Acknowledge

  /** The provider after a call to register a tool, and after one to unregister it. */
  function Registered(s: State, tool: string, r: Registration, call: Outcome): State {
    if Took(call) then s.(pool := s.pool[tool := r], spoiled := s.spoiled - {tool})
    else if call.Delayed? then s.(late := s.late + {Put(tool, r)})
    else s
  }

  function Unregistered(s: State, tool: string, call: Outcome): State {
    if Took(call) then s.(pool := s.pool - {tool}, spoiled := s.spoiled - {tool})
    else if call.Delayed? then s.(late := s.late + {Drop(tool)})
    else s
  }

  function Landed(s: State, call: Call): State {
    s.(pool := if call.Put? then s.pool[call.tool := call.registration] else s.pool - {call.tool},
       late := s.late - {call}, spoiled := s.spoiled[call.tool := call])
  }

  /** An operation takes the lock. A recorded tool is started anew only on positive evidence of its death. */
  function Begin(s: State, step: Step): Option<State> {
    if !s.holder.Free? then None
    else match step
      case EditDeclarations(tool, entries, save) =>
        Some(if tool in s.records && Took(save)
             then s.(records := s.records[tool := s.records[tool].(declared := Some(entries))]) else s)
      case BeginStop(tool) =>
        Some(if tool in s.records then s.(holder := Cleaning(tool, s.records[tool].proc, Forget)) else s)
      case BeginStart(tool, alive) =>
        if tool !in s.records then Some(s.(holder := Registering(tool)))
        else if alive != Some(false) then Some(s)
        else if s.records[tool].proc in s.live then None
        else Some(s.(holder := Cleaning(tool, s.records[tool].proc, Replace)))
      case BeginPass =>
        if s.watchdog.Probed? then Some(s.(holder := Passing(s.records.Keys, true))) else None
      case _ => None
  }

  /** Whatever a cleanup finds, the provider is told, and only a confirmed exit is forgotten. */
  function StopNext(s: State, step: Step): Option<State> {
    match (s.holder, step)
    case (Cleaning(tool, proc, goal), Cleanup(confirmed)) =>
      Some(s.(live := if confirmed then s.live - {proc} else s.live,
              lost := if confirmed then s.lost else s.lost + {proc},
              holder := Unregistering(tool, goal, confirmed)))
    case (Unregistering(tool, goal, confirmed), Unregister(call)) =>
      Some(Unregistered(s, tool, call).(holder := Settling(tool, goal, confirmed)))
    case (Settling(tool, goal, confirmed), Settle(save)) =>
      if goal.Report? then Some(s.(holder := if confirmed then Free else Recording(tool, goal.record)))
      else
        Some(s.(records := if confirmed && Took(save) then s.records - {tool} else s.records,
                holder := if confirmed && save.Ok? && goal.Replace? then Registering(tool) else Free))
    case _ => None
  }

  /** A start registers first. Without a provider, or when it fails a tool that declares nothing, the tool
      launches without a secret; one that declares secrets does not launch. */
  function StartNext(s: State, step: Step): Option<State> {
    match (s.holder, step)
    case (Registering(tool), Register(secret, entries, call)) =>
      if secret.None? then Some(s.(holder := Launching(tool, None, entries)))
      else
        Some(Registered(s, tool, Registration(secret.value, entries), call)
               .(holder := if call.Ok? then Launching(tool, secret, entries)
                           else if entries == [] then Launching(tool, None, entries) else Free))
    case (Launching(tool, secret, entries), Launch(spawned)) =>
      var record := Record(secret, Some(entries), s.next);
      Some(s.(next := s.next + 1, live := if spawned then s.live + {s.next} else s.live,
              holder := if spawned then Waiting(tool, record) else Cleaning(tool, s.next, Report(record))))
    case (Waiting(tool, record), Await(ready)) =>
      Some(s.(holder := if ready then Recording(tool, record) else Cleaning(tool, record.proc, Report(record))))
    case (Recording(tool, record), SaveRecord(save)) =>
      Some(s.(records := if Took(save) then s.records[tool := record] else s.records,
              holder := if save.Ok? then Free else Cleaning(tool, record.proc, Forget)))
    case _ => None
  }

  /** One record of a pass. A tool known to be dead is left to be restarted. */
  function PassOneNext(s: State, tool: string, alive: Option<bool>, call: Outcome): Option<State>
    requires s.holder.Passing? && tool in s.records
  {
    var record, left, complete := s.records[tool], s.holder.todo - {tool}, s.holder.complete;
    if record.secret.None? then Some(s.(holder := Passing(left, complete)))
    else if alive == Some(false) then
      if record.proc in s.live then None else Some(s.(holder := Passing(left, complete)))
    else if record.declared.None? then Some(s.(holder := Passing(left, false)))
    else
      var r := Registration(record.secret.value, record.declared.value);
      Some(Registered(s, tool, r, call).(holder := Passing(left, complete && call.Ok?)))
  }

  /** The watchdog probes without the lock, passes over every record with it, and acknowledges the boot it had
      probed after releasing it. */
  function WatchNext(s: State, step: Step): Option<State> {
    match step
    case Probe =>
      if !s.watchdog.Resting? then None
      else Some(if s.lastSeen == Some(s.boot) then s else s.(watchdog := Probed(s.boot)))
    case PassOne(tool, alive, call) =>
      if !s.holder.Passing? || tool !in s.holder.todo || tool !in s.records then None
      else PassOneNext(s, tool, alive, call)
    case FailPass =>
      if s.holder.Passing? then Some(s.(holder := Free, watchdog := Resting)) else None
    case EndPass =>
      if !s.holder.Passing? || s.holder.todo != {} || !s.watchdog.Probed? then None
      else Some(s.(holder := Free, watchdog := Judging(s.watchdog.boot, s.holder.complete)))
    case Acknowledge =>
      if !s.watchdog.Judging? then None
      else Some(s.(watchdog := Resting, lastSeen := if s.watchdog.complete then Some(s.watchdog.boot) else s.lastSeen))
    case _ => None
  }

  function Next(s: State, step: Step): Option<State> {
    match step
    case Restart(boot) =>
      if boot in s.boots then None
      else Some(s.(boot := boot, boots := s.boots + {boot}, pool := map[], late := {}, spoiled := map[]))
    case Land(delayed) => if delayed in s.late then Some(Landed(s, delayed)) else None
    case Die(proc) => Some(s.(live := s.live - {proc}))
    case Crash => if s.holder.Passing? then None else Some(s.(holder := Free))
    case AdminCrash =>
      Some(s.(holder := if s.holder.Passing? then Free else s.holder, watchdog := Resting, lastSeen := None))
    case EditDeclarations(_, _, _) => Begin(s, step)
    case BeginStop(_) => Begin(s, step)
    case BeginStart(_, _) => Begin(s, step)
    case BeginPass => Begin(s, step)
    case Cleanup(_) => StopNext(s, step)
    case Unregister(_) => StopNext(s, step)
    case Settle(_) => StopNext(s, step)
    case Register(_, _, _) => StartNext(s, step)
    case Launch(_) => StartNext(s, step)
    case Await(_) => StartNext(s, step)
    case SaveRecord(_) => StartNext(s, step)
    case _ => WatchNext(s, step)
  }

  predicate Run(states: seq<State>, steps: seq<Step>) {
    && |states| == |steps| + 1
    && forall i | 0 <= i < |steps| :: Next(states[i], steps[i]) == Some(states[i + 1])
  }

  /** A start registers a tool without a record, cleans up after one that is positively dead, and lets every other be,
      also one that could not be inspected. */
  lemma StartsExactly(s: State, tool: string, alive: Option<bool>)
    requires s.holder.Free? && Next(s, BeginStart(tool, alive)).Some?
    ensures var s' := Next(s, BeginStart(tool, alive)).value;
            && s' == s.(holder := s'.holder)
            && (s'.holder == Registering(tool) <==> tool !in s.records)
            && (s'.holder.Cleaning? <==> tool in s.records && alive == Some(false))
            && (s'.holder.Cleaning? ==> s.records[tool].proc !in s.live
                                        && s'.holder == Cleaning(tool, s.records[tool].proc, Replace))
            && (s'.holder.Free? <==> tool in s.records && alive != Some(false))
  {
  }

  /** After a stop the record is forgotten exactly on a confirmed exit, and the tool is started again exactly if that
      was the purpose and the record is known to be gone; a start that failed is recorded if it may have survived. */
  lemma SettlesExactly(s: State, tool: string, goal: Goal, confirmed: bool, save: Outcome)
    requires s.holder == Settling(tool, goal, confirmed)
    ensures Next(s, Settle(save)).Some?
    ensures var s' := Next(s, Settle(save)).value;
            && s' == s.(holder := s'.holder, records := s'.records)
            && s'.records == (if confirmed && !goal.Report? && (save == Ok || save == Error(true))
                              then s.records - {tool} else s.records)
            && (s'.holder == Registering(tool) <==> goal == Replace && confirmed && save == Ok)
            && (s'.holder.Recording? <==> goal.Report? && !confirmed)
            && (s'.holder.Recording? ==> s'.holder == Recording(tool, goal.record))
            && (s'.holder.Free? <==> s'.holder != Registering(tool) && !s'.holder.Recording?)
  {
  }

  /** A tool launches with its secret exactly once the provider took it, and without one only if no provider is in use
      or it declares nothing. */
  lemma RegistersExactly(s: State, tool: string, secret: Option<Secret>, entries: Declarations, call: Outcome)
    requires s.holder == Registering(tool)
    ensures Next(s, Register(secret, entries, call)).Some?
    ensures var h := Next(s, Register(secret, entries, call)).value.holder;
            && (h.Launching? <==> secret == None || call == Ok || entries == [])
            && (h.Launching? ==> h.tool == tool && h.entries == entries
                                 && h.secret == (if secret != None && call == Ok then secret else None))
            && (!h.Launching? ==> h == Free)
  {
  }

  /** A process that was spawned is recorded once it is ready, and cleaned up when it is not or cannot be recorded. */
  lemma LaunchesExactly(s: State, step: Step, s': State)
    requires Next(s, step) == Some(s') && (step.Launch? || step.Await? || step.SaveRecord?)
    ensures step.Launch? ==>
              && s.holder.Launching? && s'.next == s.next + 1
              && var record := Record(s.holder.secret, Some(s.holder.entries), s.next);
                 && s'.holder == (if step.spawned then Waiting(s.holder.tool, record)
                                  else Cleaning(s.holder.tool, s.next, Report(record)))
                 && s'.live == (if step.spawned then s.live + {s.next} else s.live)
    ensures step.Await? ==>
              && s.holder.Waiting?
              && s' == s.(holder := if step.ready then Recording(s.holder.tool, s.holder.record)
                                    else Cleaning(s.holder.tool, s.holder.record.proc, Report(s.holder.record)))
    ensures step.SaveRecord? ==>
              && s.holder.Recording?
              && s'.records == (if step.save == Ok || step.save == Error(true)
                                then s.records[s.holder.tool := s.holder.record] else s.records)
              && s'.holder == (if step.save == Ok then Free
                               else Cleaning(s.holder.tool, s.holder.record.proc, Forget))
  {
  }

  /** What runs are proved against: in any state the provider may restart and forget everything, a process may die and
      the lock's holder or the watchdog's process may crash; a call given up on may land, and a pass may fail. */
  lemma HazardsAnytime(s: State, boot: Boot, proc: Proc, call: Call)
    ensures Next(s, Die(proc)) == Some(s.(live := s.live - {proc}))
    ensures Next(s, AdminCrash) == Some(s.(holder := if s.holder.Passing? then Free else s.holder,
                                           watchdog := Watchdog.Resting, lastSeen := None))
    ensures !s.holder.Passing? ==> Next(s, Crash) == Some(s.(holder := Free))
    ensures s.holder.Passing? ==> Next(s, FailPass) == Some(s.(holder := Free, watchdog := Watchdog.Resting))
    ensures boot !in s.boots ==>
              Next(s, Restart(boot)).Some?
              && var s' := Next(s, Restart(boot)).value;
                 s'.boot == boot && s'.pool == map[] && s'.late == {} && s'.records == s.records && s'.live == s.live
    ensures call in s.late ==>
              Next(s, Land(call)).Some?
              && var s' := Next(s, Land(call)).value;
                 && s'.pool - {call.tool} == s.pool - {call.tool} && s'.records == s.records
                 && match call
                    case Put(tool, r) => tool in s'.pool && s'.pool[tool] == r
                    case Drop(tool) => tool !in s'.pool
  {
  }

  /** Edited declarations reach the record of a tool that has one, and count from its next registration on. */
  lemma EditsExactly(s: State, tool: string, entries: Declarations, save: Outcome)
    requires s.holder.Free?
    ensures Next(s, EditDeclarations(tool, entries, save))
         == Some(if tool in s.records && (save == Ok || save == Error(true))
                 then
                   var record := s.records[tool];
                   s.(records := s.records[tool := Record(record.secret, Some(entries), record.proc)])
                 else s)
  {
  }

  // ---- recovery -----------------------------------------------------------------------------------

  /** A runtime that uses its secret and is not left unconfirmed. */
  predicate Active(s: State, record: Record) {
    record.secret.Some? && record.proc in s.live && record.proc !in s.lost
  }

  predicate Holds(pool: Pool, tool: string, secret: Option<Secret>) {
    secret.Some? ==> tool in pool && pool[tool].secret == secret.value
  }

  /** Registered under the secret, unless a delayed call reached the tool since. */
  predicate Kept(pool: Pool, spoiled: map<string, Call>, tool: string, secret: Option<Secret>) {
    tool !in spoiled ==> Holds(pool, tool, secret)
  }

  predicate Recovered(s: State, tool: string) {
    tool in s.records && Active(s, s.records[tool]) ==> Kept(s.pool, s.spoiled, tool, s.records[tool].secret)
  }

  /** The running boot is acknowledged, or about to be. */
  predicate Acknowledged(s: State) {
    s.lastSeen == Some(s.boot) || s.watchdog == Judging(s.boot, true)
  }

  predicate HolderOk(s: State) {
    match s.holder
    case Free => true
    case Cleaning(tool, proc, goal) =>
      && proc < s.next
      && (tool in s.records ==> s.records[tool].proc == proc)
      && (goal.Report? ==> tool !in s.records && goal.record.proc == proc)
    case Unregistering(tool, goal, confirmed) => StopOk(s, tool, goal)
    case Settling(tool, goal, confirmed) => StopOk(s, tool, goal)
    case Registering(tool) => tool !in s.records
    case Launching(tool, secret, _) => tool !in s.records && (Acknowledged(s) ==> Kept(s.pool, s.spoiled, tool, secret))
    case Waiting(tool, record) => RecordOk(s, tool, record)
    case Recording(tool, record) => RecordOk(s, tool, record)
    case Passing(todo, complete) =>
      && s.watchdog.Probed?
      && (complete && s.watchdog.boot == s.boot ==>
            forall tool | tool in s.records && tool !in todo :: Recovered(s, tool))
  }

  predicate StopOk(s: State, tool: string, goal: Goal) {
    && (tool in s.records ==> !Active(s, s.records[tool]))
    && (goal.Report? ==> tool !in s.records && goal.record.proc < s.next && !Active(s, goal.record))
  }

  predicate RecordOk(s: State, tool: string, record: Record) {
    tool !in s.records && record.proc < s.next
    && (Acknowledged(s) && Active(s, record) ==> Kept(s.pool, s.spoiled, tool, record.secret))
  }

  /** The pool is as the last delayed call left it. */
  predicate SpoiledOk(pool: Pool, spoiled: map<string, Call>) {
    forall tool | tool in spoiled ::
      match spoiled[tool]
      case Put(other, r) => other == tool && tool in pool && pool[tool] == r
      case Drop(other) => other == tool && tool !in pool
  }

  /** Nothing but what the provider holds for one tool has changed. */
  ghost predicate Touched(s: State, s': State, tool: string) {
    && s' == s.(pool := s'.pool, late := s'.late, spoiled := s'.spoiled) && SpoiledOk(s'.pool, s'.spoiled)
    && forall t | t != tool ::
         && (t in s'.spoiled <==> t in s.spoiled) && (t in s'.pool <==> t in s.pool)
         && (t in s.pool ==> s'.pool[t] == s.pool[t])
  }

  lemma RegisteredTouches(s: State, tool: string, r: Registration, call: Outcome)
    requires SpoiledOk(s.pool, s.spoiled)
    ensures Touched(s, Registered(s, tool, r, call), tool)
    ensures var s' := Registered(s, tool, r, call);
            call.Ok? || Kept(s.pool, s.spoiled, tool, Some(r.secret)) ==>
              Kept(s'.pool, s'.spoiled, tool, Some(r.secret))
  {
  }

  lemma UnregisteredTouches(s: State, tool: string, call: Outcome)
    requires SpoiledOk(s.pool, s.spoiled)
    ensures Touched(s, Unregistered(s, tool, call), tool)
  {
  }

  lemma LandedTouches(s: State, call: Call)
    requires SpoiledOk(s.pool, s.spoiled)
    ensures Touched(s, Landed(s, call), call.tool) && call.tool in Landed(s, call).spoiled
  {
  }

  lemma OthersKept(s: State, s': State, tool: string)
    requires Touched(s, s', tool)
    ensures forall t, secret | t != tool && Kept(s.pool, s.spoiled, t, secret) :: Kept(s'.pool, s'.spoiled, t, secret)
    ensures forall t | t != tool && Recovered(s, t) :: Recovered(s', t)
  {
  }

  /** Boots and processes are numbered as they appear. */
  predicate Numbered(s: State) {
    && s.boot in s.boots
    && (s.lastSeen.Some? ==> s.lastSeen.value in s.boots)
    && (!s.watchdog.Resting? ==> s.watchdog.boot in s.boots)
    && (forall p | p in s.live :: p < s.next) && (forall p | p in s.lost :: p < s.next)
    && (forall tool | tool in s.records :: s.records[tool].proc < s.next)
  }

  predicate AllRecovered(s: State) {
    forall tool | tool in s.records :: Recovered(s, tool)
  }

  predicate Inv(s: State) {
    Numbered(s) && SpoiledOk(s.pool, s.spoiled) && (Acknowledged(s) ==> AllRecovered(s)) && HolderOk(s)
  }

  lemma BeginKeeps(s: State, step: Step, s': State)
    requires Inv(s) && Begin(s, step) == Some(s')
    ensures Inv(s')
  {
    hide SpoiledOk, Kept;
  }

  lemma UnregisterKeeps(s: State, step: Step, s': State)
    requires Inv(s) && step.Unregister? && StopNext(s, step) == Some(s')
    ensures Inv(s')
  {
    var tool := s.holder.tool;
    UnregisteredTouches(s, tool, step.call);
    OthersKept(s, Unregistered(s, tool, step.call), tool);
    hide Unregistered, SpoiledOk, Kept;
  }

  lemma CleanupKeeps(s: State, step: Step, s': State)
    requires Inv(s) && step.Cleanup? && StopNext(s, step) == Some(s')
    ensures Inv(s')
  {
    hide SpoiledOk, Kept;
  }

  lemma SettleKeeps(s: State, step: Step, s': State)
    requires Inv(s) && !step.Unregister? && !step.Cleanup? && StopNext(s, step) == Some(s')
    ensures Inv(s')
  {
    hide SpoiledOk, Kept;
    assert AllRecovered(s) ==> AllRecovered(s');
    hide AllRecovered, Recovered;
  }

  lemma StopKeeps(s: State, step: Step, s': State)
    requires Inv(s) && StopNext(s, step) == Some(s')
    ensures Inv(s')
  {
    hide *;
    if step.Unregister? {
      UnregisterKeeps(s, step, s');
    } else if step.Cleanup? {
      CleanupKeeps(s, step, s');
    } else {
      SettleKeeps(s, step, s');
    }
  }

  lemma RegisterKeeps(s: State, step: Step, s': State)
    requires Inv(s) && step.Register? && StartNext(s, step) == Some(s')
    ensures Inv(s')
  {
    if step.secret.Some? {
      var tool, r := s.holder.tool, Registration(step.secret.value, step.entries);
      RegisteredTouches(s, tool, r, step.call);
      OthersKept(s, Registered(s, tool, r, step.call), tool);
    }
    hide Registered, SpoiledOk, Kept;
  }

  lemma StartKeeps(s: State, step: Step, s': State)
    requires Inv(s) && StartNext(s, step) == Some(s')
    ensures Inv(s')
  {
    if step.Register? {
      hide *;
      RegisterKeeps(s, step, s');
    } else {
      hide SpoiledOk;
    }
  }

  /** A record that needs no call, or cannot have one. */
  lemma SkippedKeeps(s: State, tool: string, complete: bool)
    requires Inv(s) && s.holder.Passing? && tool in s.records
    requires complete ==> s.holder.complete && !Active(s, s.records[tool])
    ensures Inv(s.(holder := Passing(s.holder.todo - {tool}, complete)))
  {
    hide SpoiledOk;
  }

  lemma RenewedKeeps(s: State, tool: string, r: Registration, call: Outcome)
    requires Inv(s) && s.holder.Passing? && tool in s.records && Some(r.secret) == s.records[tool].secret
    ensures Inv(Registered(s, tool, r, call).(holder := Passing(s.holder.todo - {tool}, s.holder.complete && call.Ok?)))
  {
    RegisteredTouches(s, tool, r, call);
    OthersKept(s, Registered(s, tool, r, call), tool);
    hide Registered, SpoiledOk, Kept;
  }

  lemma PassOneKeeps(s: State, step: Step, s': State)
    requires Inv(s) && step.PassOne? && WatchNext(s, step) == Some(s')
    ensures Inv(s')
  {
    hide Inv, Registered, Passed;
    var tool, record := step.tool, s.records[step.tool];
    if record.secret.None? || step.alive == Some(false) {
      SkippedKeeps(s, tool, s.holder.complete);
    } else if record.declared.None? {
      SkippedKeeps(s, tool, false);
    } else {
      RenewedKeeps(s, tool, Registration(record.secret.value, record.declared.value), step.call);
    }
  }

  lemma WatchKeeps(s: State, step: Step, s': State)
    requires Inv(s) && WatchNext(s, step) == Some(s')
    ensures Inv(s')
  {
    if step.PassOne? {
      hide *;
      PassOneKeeps(s, step, s');
    } else {
      hide SpoiledOk;
    }
  }

  lemma OutsideKeeps(s: State, step: Step, s': State)
    requires Inv(s) && Next(s, step) == Some(s')
    requires step.Restart? || step.Land? || step.Die? || step.Crash? || step.AdminCrash?
    ensures Inv(s')
  {
    if step.Land? {
      LandedTouches(s, step.delayed);
      OthersKept(s, Landed(s, step.delayed), step.delayed.tool);
      hide Landed, SpoiledOk;
    }
  }

  lemma StepKeeps(s: State, step: Step, s': State)
    requires Inv(s) && Next(s, step) == Some(s')
    ensures Inv(s')
  {
    hide Inv, Begin, StopNext, StartNext, WatchNext;
    if step.Restart? || step.Land? || step.Die? || step.Crash? || step.AdminCrash? {
      OutsideKeeps(s, step, s');
    } else if step.EditDeclarations? || step.BeginStop? || step.BeginStart? || step.BeginPass? {
      BeginKeeps(s, step, s');
    } else if step.Cleanup? || step.Unregister? || step.Settle? {
      StopKeeps(s, step, s');
    } else if step.Register? || step.Launch? || step.Await? || step.SaveRecord? {
      StartKeeps(s, step, s');
    } else {
      WatchKeeps(s, step, s');
    }
  }

  lemma {:induction false} RunInv(states: seq<State>, steps: seq<Step>, k: nat)
    requires Run(states, steps) && Inv(states[0]) && k < |states|
    ensures Inv(states[k])
  {
    hide Inv, Next;
    if k > 0 {
      RunInv(states, steps, k - 1);
      assert Next(states[k - 1], steps[k - 1]) == Some(states[k - 1 + 1]);
      StepKeeps(states[k - 1], steps[k - 1], states[k]);
    }
  }

  /** An admin process that has just started, over whatever records and processes it finds. */
  predicate Initial(s: State) {
    && s.boot in s.boots && s.holder.Free? && s.watchdog.Resting? && s.lastSeen.None? && s.spoiled == map[]
    && (forall p | p in s.live :: p < s.next) && (forall p | p in s.lost :: p < s.next)
    && (forall tool | tool in s.records :: s.records[tool].proc < s.next)
  }

  /** No delayed call reached the tool since its last effective call, or the last that did was a registration under
      this very secret. */
  predicate Unharmed(s: State, tool: string, secret: Option<Secret>) {
    tool in s.spoiled ==> s.spoiled[tool].Put? && Some(s.spoiled[tool].registration.secret) == secret
  }

  /** Recovery: with provider restarts, crashes and failures anywhere, whenever the acknowledged boot is the
      running one, a live recorded tool that holds a secret, and whose stop or start-cleanup was not left
      unconfirmed, is registered under exactly that secret if and only if no delayed call harmed it. It holds even
      while the lock is taken. */
  lemma AcknowledgedRegistered(states: seq<State>, steps: seq<Step>, k: nat, tool: string)
    requires Run(states, steps) && Initial(states[0]) && k < |states|
    requires states[k].lastSeen == Some(states[k].boot)
    requires tool in states[k].records && Active(states[k], states[k].records[tool])
    ensures var (s, secret) := (states[k], states[k].records[tool].secret);
            tool in s.pool && Some(s.pool[tool].secret) == secret <==> Unharmed(s, tool, secret)
  {
    hide Next;
    assert Inv(states[0]);
    RunInv(states, steps, k);
    assert Recovered(states[k], tool);
  }

  /** A delayed call that lands leaves a live tool registered exactly if it is a registration under the tool's
      present secret. */
  lemma DelayedCallBreaks(s: State, call: Call)
    requires Inv(s) && Acknowledged(s) && call in s.late
    requires call.tool in s.records && Active(s, s.records[call.tool])
    ensures Next(s, Land(call)).Some?
    ensures var (s', secret) := (Next(s, Land(call)).value, s.records[call.tool].secret);
            && Acknowledged(s') && s'.records == s.records && Active(s', s'.records[call.tool])
            && (Holds(s'.pool, call.tool, secret) <==> call.Put? && Some(call.registration.secret) == secret)
  {
  }

  // ---- a run in which a delayed call does harm ----------------------------------------------------

  lemma Enrolled(s: State, tool: string, secret: Secret) returns (states: seq<State>, steps: seq<Step>)
    requires s.holder.Free? && tool !in s.records
    ensures Run(states, steps) && states[0] == s && |steps| == 2
    ensures states[2] == s.(pool := s.pool[tool := Registration(secret, [])], spoiled := s.spoiled - {tool},
                            holder := Launching(tool, Some(secret), []))
  {
    var s1 := s.(holder := Registering(tool));
    var s2 := s1.(pool := s.pool[tool := Registration(secret, [])], spoiled := s.spoiled - {tool},
                  holder := Launching(tool, Some(secret), []));
    states, steps := [s, s1, s2], [BeginStart(tool, None), Step.Register(Some(secret), [], Ok)];
  }

  lemma Brought(s: State, tool: string, secret: Secret) returns (states: seq<State>, steps: seq<Step>)
    requires s.holder == Launching(tool, Some(secret), [])
    ensures Run(states, steps) && states[0] == s && |steps| == 3
    ensures states[3] == s.(next := s.next + 1, live := s.live + {s.next}, holder := Free,
                            records := s.records[tool := Record(Some(secret), Some([]), s.next)])
  {
    var record := Record(Some(secret), Some([]), s.next);
    var s1 := s.(next := s.next + 1, live := s.live + {s.next}, holder := Waiting(tool, record));
    var s2 := s1.(holder := Recording(tool, record));
    var s3 := s2.(records := s.records[tool := record], holder := Free);
    states, steps := [s, s1, s2, s3], [Launch(true), Await(true), SaveRecord(Ok)];
  }

  /** A start in which everything succeeds. */
  lemma Started(s: State, tool: string, secret: Secret) returns (states: seq<State>, steps: seq<Step>)
    requires s.holder.Free? && tool !in s.records
    ensures Run(states, steps) && states[0] == s && |steps| == 5
    ensures states[5] == s.(pool := s.pool[tool := Registration(secret, [])], spoiled := s.spoiled - {tool},
                            next := s.next + 1, live := s.live + {s.next},
                            records := s.records[tool := Record(Some(secret), Some([]), s.next)])
  {
    hide Next;
    states, steps := Enrolled(s, tool, secret);
    var a, b := Brought(states[2], tool, secret);
    Joined(states, steps, a, b);
    states, steps := states + a[1..], steps + b;
  }

  /** A confirmed stop whose call to the provider is left to take effect later. */
  lemma StoppedLate(s: State, tool: string) returns (states: seq<State>, steps: seq<Step>)
    requires s.holder.Free? && tool in s.records
    ensures Run(states, steps) && states[0] == s && |steps| == 4
    ensures states[4]
         == s.(live := s.live - {s.records[tool].proc}, late := s.late + {Drop(tool)}, records := s.records - {tool})
  {
    var proc := s.records[tool].proc;
    var s1 := s.(holder := Cleaning(tool, proc, Forget));
    var s2 := s1.(live := s.live - {proc}, holder := Unregistering(tool, Forget, true));
    var s3 := s2.(late := s.late + {Drop(tool)}, holder := Settling(tool, Forget, true));
    var s4 := s3.(records := s.records - {tool}, holder := Free);
    states := [s, s1, s2, s3, s4];
    steps := [BeginStop(tool), Cleanup(true), Step.Unregister(Delayed), Settle(Ok)];
  }

  lemma Passes(s: State, tool: string) returns (states: seq<State>, steps: seq<Step>)
    requires s.holder.Free? && s.watchdog.Resting? && s.lastSeen != Some(s.boot)
    requires s.records.Keys == {tool} && s.records[tool].secret.Some? && s.records[tool].declared.Some?
    ensures Run(states, steps) && states[0] == s && |steps| == 3
    ensures var r := Registration(s.records[tool].secret.value, s.records[tool].declared.value);
            states[3] == s.(pool := s.pool[tool := r], spoiled := s.spoiled - {tool}, holder := Passing({}, true),
                            watchdog := Probed(s.boot))
  {
    var r := Registration(s.records[tool].secret.value, s.records[tool].declared.value);
    var s1 := s.(watchdog := Probed(s.boot));
    var s2 := s1.(holder := Passing({tool}, true));
    var s3 := s2.(pool := s.pool[tool := r], spoiled := s.spoiled - {tool}, holder := Passing({}, true));
    assert {tool} - {tool} == {};
    states, steps := [s, s1, s2, s3], [Probe, BeginPass, PassOne(tool, Some(true), Ok)];
  }

  lemma Acknowledges(s: State) returns (states: seq<State>, steps: seq<Step>)
    requires s.holder == Passing({}, true) && s.watchdog == Probed(s.boot)
    ensures Run(states, steps) && states[0] == s && |steps| == 2
    ensures states[2] == s.(holder := Free, watchdog := Resting, lastSeen := Some(s.boot))
  {
    var s1 := s.(holder := Free, watchdog := Judging(s.boot, true));
    states := [s, s1, s1.(watchdog := Resting, lastSeen := Some(s.boot))];
    steps := [EndPass, Acknowledge];
  }

  /** The watchdog finds a boot it has not seen, and recovers the one tool recorded. */
  lemma RecoveredBoot(s: State, tool: string) returns (states: seq<State>, steps: seq<Step>)
    requires s.holder.Free? && s.watchdog.Resting? && s.lastSeen != Some(s.boot)
    requires s.records.Keys == {tool} && s.records[tool].secret.Some? && s.records[tool].declared.Some?
    ensures Run(states, steps) && states[0] == s && |steps| == 5
    ensures var r := Registration(s.records[tool].secret.value, s.records[tool].declared.value);
            states[5] == s.(pool := s.pool[tool := r], spoiled := s.spoiled - {tool}, lastSeen := Some(s.boot))
  {
    hide Next;
    states, steps := Passes(s, tool);
    var a, b := Acknowledges(states[3]);
    Joined(states, steps, a, b);
    states, steps := states + a[1..], steps + b;
  }

  lemma Joined(states: seq<State>, steps: seq<Step>, states': seq<State>, steps': seq<Step>)
    requires Run(states, steps) && Run(states', steps') && states'[0] == states[|steps|]
    ensures Run(states + states'[1..], steps + steps')
    ensures (states + states'[1..])[0] == states[0]
    ensures (states + states'[1..])[|steps| + |steps'|] == states'[|steps'|]
  {
    hide Next;
  }

  /** A provider, an admin process and no tool. */
  const EMPTY := State(0, {0}, map[], {}, map[], map[], {}, 0, {}, Free, Resting, None)

  /** A tool is stopped, its unregistration delayed, and started again; the boot is recovered and acknowledged; then
      the delayed call lands, and the live tool is registered no more. */
  lemma DelayedCallReachable() returns (states: seq<State>, steps: seq<Step>)
    ensures Run(states, steps) && states[0] == EMPTY && Initial(EMPTY)
    ensures var s := states[|steps|];
            && s.lastSeen == Some(s.boot) && s.holder.Free?
            && "t" in s.records && Active(s, s.records["t"]) && "t" !in s.pool
  {
    hide Next;
    states, steps := Started(EMPTY, "t", "a");
    var a, b := StoppedLate(states[5], "t");
    Joined(states, steps, a, b);
    states, steps := states + a[1..], steps + b;
    a, b := Started(states[9], "t", "b");
    Joined(states, steps, a, b);
    states, steps := states + a[1..], steps + b;
    assert states[14].records.Keys == {"t"};
    a, b := RecoveredBoot(states[14], "t");
    Joined(states, steps, a, b);
    states, steps := states + a[1..], steps + b;
    var last := Landed(states[19], Drop("t"));
    Lands(states[19], Drop("t"));
    assert Run([states[19], last], [Land(Drop("t"))]);
    Joined(states, steps, [states[19], last], [Land(Drop("t"))]);
    states, steps := states + [states[19], last][1..], steps + [Land(Drop("t"))];
  }

  lemma Lands(s: State, call: Call)
    requires call in s.late
    ensures Next(s, Land(call)) == Some(Landed(s, call))
  {
  }

  predicate SameWatch(s: State, s': State) {
    s'.boot == s.boot && s'.watchdog == s.watchdog && s'.lastSeen == s.lastSeen
  }

  lemma BeginQuiet(s: State, step: Step, s': State)
    requires Begin(s, step) == Some(s')
    ensures SameWatch(s, s')
  {
  }

  lemma StopQuiet(s: State, step: Step, s': State)
    requires StopNext(s, step) == Some(s')
    ensures SameWatch(s, s')
  {
  }

  lemma StartQuiet(s: State, step: Step, s': State)
    requires StartNext(s, step) == Some(s')
    ensures SameWatch(s, s')
  {
  }

  lemma PassQuiet(s: State, tool: string, alive: Option<bool>, call: Outcome)
    requires s.holder.Passing? && tool in s.records && PassOneNext(s, tool, alive, call).Some?
    ensures SameWatch(s, PassOneNext(s, tool, alive, call).value)
  {
  }

  lemma WatchAcknowledges(s: State, step: Step, s': State)
    requires WatchNext(s, step) == Some(s') && !Acknowledged(s) && Acknowledged(s')
    ensures step.EndPass? && s.holder == Passing({}, true) && s.watchdog == Probed(s.boot)
  {
    hide PassOneNext;
    if step.PassOne? {
      PassQuiet(s, step.tool, step.alive, step.call);
    }
  }

  /** A restart of the provider revokes the acknowledgement, and only a complete pass that began after the boot
      was probed restores it. */
  lemma OnlyPassAcknowledges(s: State, step: Step, s': State)
    requires Inv(s) && Next(s, step) == Some(s')
    ensures step.Restart? ==> !Acknowledged(s')
    ensures !Acknowledged(s) && Acknowledged(s') ==>
              step.EndPass? && s.holder == Passing({}, true) && s.watchdog == Probed(s.boot)
  {
    hide HolderOk, SpoiledOk, AllRecovered, Begin, StopNext, StartNext, WatchNext;
    if step.EditDeclarations? || step.BeginStop? || step.BeginStart? || step.BeginPass? {
      BeginQuiet(s, step, s');
    } else if step.Cleanup? || step.Unregister? || step.Settle? {
      StopQuiet(s, step, s');
    } else if step.Register? || step.Launch? || step.Await? || step.SaveRecord? {
      StartQuiet(s, step, s');
    } else if !(step.Restart? || step.Land? || step.Die? || step.Crash? || step.AdminCrash?) {
      if !Acknowledged(s) && Acknowledged(s') {
        WatchAcknowledges(s, step, s');
      }
    }
  }

  // ---- the provider and the pass ------------------------------------------------------------------

  /** The provider's pool, in memory only. A call that succeeds is a step of the machine. */
  class RegistrationStore {
    var byId: Pool
    ghost var withdrawn: set<string>  // the tools whose unregistration was asked for
    ghost var faults: nat             // how many registrations failed

    constructor ()
      ensures byId == map[] && withdrawn == {} && faults == 0
    {
      byId, withdrawn, faults := map[], {}, 0;
    }

    method Register(tool: string, record: Registration)
      modifies this
      ensures byId == old(byId)[tool := record] && withdrawn == old(withdrawn) && faults == old(faults)
      ensures forall s: State | s.pool == old(byId) && s.holder == Registering(tool) ::
                Next(s, Step.Register(Some(record.secret), record.entries, Ok))
                == Some(s.(pool := byId, spoiled := s.spoiled - {tool},
                           holder := Launching(tool, Some(record.secret), record.entries)))
    {
      byId := byId[tool := record];
    }

    method Unregister(tool: string)
      modifies this
      ensures byId == old(byId) - {tool} && withdrawn == old(withdrawn) && faults == old(faults)
      ensures forall s: State, goal, sure | s.pool == old(byId) && s.holder == Unregistering(tool, goal, sure) ::
                Next(s, Step.Unregister(Ok))
                == Some(s.(pool := byId, spoiled := s.spoiled - {tool}, holder := Settling(tool, goal, sure)))
    {
      byId := byId - {tool};
    }

    /** A call over the network. One that fails may have taken effect all the same. */
    method TryRegister(tool: string, record: Registration) returns (ok: bool)
      modifies this
      ensures withdrawn == old(withdrawn) && (ok ==> byId == old(byId)[tool := record])
      ensures !ok ==> byId in {old(byId), old(byId)[tool := record]}
      ensures faults == old(faults) + if ok then 0 else 1
    {
      var arrives: bool, answered: bool := *, *;
      if arrives {
        Register(tool, record);
      }
      ok := arrives && answered;
      if !ok {
        faults := faults + 1;
      }
    }

    method TryUnregister(tool: string)
      modifies this
      ensures byId in {old(byId), old(byId) - {tool}} && withdrawn == old(withdrawn) + {tool} && faults == old(faults)
    {
      withdrawn := withdrawn + {tool};
      var arrives: bool := *;
      if arrives {
        Unregister(tool);
      }
    }
  }

  /** A recorded tool that holds a secret and is not known to be dead. */
  predicate Due(record: Record, alive: Option<bool>) {
    record.secret.Some? && alive != Some(false)
  }

  /** The registration a pass makes for a tool, when it can and the provider takes it. */
  predicate Renewed(record: Record, alive: Option<bool>, call: Outcome) {
    Due(record, alive) && record.declared.Some? && Took(call)
  }

  /** The pool after a pass. */
  predicate Repooled(pool: Pool, pool': Pool, records: map<string, Record>, alive: string -> Option<bool>,
                     calls: string -> Outcome, done: set<string>)
    requires done <= records.Keys
  {
    && pool'.Keys == pool.Keys + (set tool | tool in done && Renewed(records[tool], alive(tool), calls(tool)))
    && forall tool | tool in pool' ::
         pool'[tool] == if tool in done && Renewed(records[tool], alive(tool), calls(tool))
                        then Registration(records[tool].secret.value, records[tool].declared.value) else pool[tool]
  }

  /** Nothing that is due was left without a confirmed registration. */
  predicate AllConfirmed(records: map<string, Record>, alive: string -> Option<bool>, calls: string -> Outcome,
                         done: set<string>)
    requires done <= records.Keys
  {
    forall tool | tool in done && Due(records[tool], alive(tool)) :: records[tool].declared.Some? && calls(tool).Ok?
  }

  lemma RunOn(states: seq<State>, steps: seq<Step>, step: Step, s': State)
    requires |states| == |steps| + 1 && Run(states, steps) && Next(states[|steps|], step) == Some(s')
    ensures Run(states + [s'], steps + [step]) && (states + [s'])[0] == states[0]
  {
    hide Next;
  }

  function Passed(pool: Pool, tool: string, record: Record, alive: Option<bool>, call: Outcome): Pool {
    if Renewed(record, alive, call) then pool[tool := Registration(record.secret.value, record.declared.value)]
    else pool
  }

  predicate Confirmed(record: Record, alive: Option<bool>, call: Outcome) {
    Due(record, alive) ==> record.declared.Some? && call.Ok?
  }

  /** One record of a pass. */
  lemma PassTurn(s: State, tool: string, alive: Option<bool>, call: Outcome)
    requires s.holder.Passing? && tool in s.holder.todo && tool in s.records
    requires alive == Some(false) ==> s.records[tool].proc !in s.live
    ensures var (record, next) := (s.records[tool], Next(s, PassOne(tool, alive, call)));
            && next.Some? && next.value.records == s.records && next.value.live == s.live
            && next.value.pool == Passed(s.pool, tool, record, alive, call)
            && next.value.holder == Passing(s.holder.todo - {tool}, s.holder.complete && Confirmed(record, alive, call))
  {
  }

  lemma PassGrows(pool: Pool, mid: Pool, records: map<string, Record>, alive: string -> Option<bool>,
                  calls: string -> Outcome, done: set<string>, tool: string)
    requires done <= records.Keys && tool in records && tool !in done
    requires Repooled(pool, mid, records, alive, calls, done)
    ensures Repooled(pool, Passed(mid, tool, records[tool], alive(tool), calls(tool)), records, alive, calls,
                     done + {tool})
    ensures AllConfirmed(records, alive, calls, done + {tool})
       <==> AllConfirmed(records, alive, calls, done) && Confirmed(records[tool], alive(tool), calls(tool))
  {
    var after := Passed(mid, tool, records[tool], alive(tool), calls(tool));
    assert after.Keys == pool.Keys + set t | t in done + {tool} && Renewed(records[t], alive(t), calls(t));
  }

  lemma PassStarts(s: State, records: map<string, Record>, alive: string -> Option<bool>, calls: string -> Outcome)
    ensures Run([s], []) && Repooled(s.pool, s.pool, records, alive, calls, {})
    ensures AllConfirmed(records, alive, calls, {})
  {
  }

  method Renew(provider: RegistrationStore, tool: string, record: Record, alive: Option<bool>, call: Outcome)
    returns (confirmed: bool)
    modifies provider
    ensures provider.byId == Passed(old(provider.byId), tool, record, alive, call)
    ensures confirmed == Confirmed(record, alive, call)
  {
    hide Next;
    if record.secret.None? || alive == Some(false) {
      return true;
    }
    if record.declared.None? {
      return false;
    }
    if Took(call) {
      provider.Register(tool, Registration(record.secret.value, record.declared.value));
    }
    return call.Ok?;
  }

  /** One pass with the lock held takes exactly the machine's steps, one for every record. It is complete exactly
      when every tool that is due has its declarations recorded and was registered with confirmation. */
  method ReregisterResults(provider: RegistrationStore, records: map<string, Record>, alive: string -> Option<bool>,
                           calls: string -> Outcome, ghost s: State)
    returns (complete: bool, ghost states: seq<State>, ghost steps: seq<Step>)
    requires s.records == records && s.pool == provider.byId && s.holder == Passing(records.Keys, true)
    requires forall tool | tool in records && alive(tool) == Some(false) :: records[tool].proc !in s.live
    modifies provider
    ensures |states| == |steps| + 1 && Run(states, steps) && states[0] == s
    ensures forall i | 0 <= i < |steps| :: steps[i].PassOne?
    ensures states[|steps|].pool == provider.byId && states[|steps|].holder == Passing({}, complete)
    ensures Repooled(old(provider.byId), provider.byId, records, alive, calls, records.Keys)
    ensures complete <==> AllConfirmed(records, alive, calls, records.Keys)
  {
    hide Next, Run, Repooled, AllConfirmed, Passed, Confirmed;
    PassStarts(s, records, alive, calls);
    complete := true;
    var todo := records.Keys;
    ghost var done := {};
    states, steps := [s], [];
    while todo != {}
      invariant todo !! done && todo + done == records.Keys
      invariant |states| == |steps| + 1 && Run(states, steps) && states[0] == s
      invariant forall i | 0 <= i < |steps| :: steps[i].PassOne?
      invariant states[|steps|].pool == provider.byId && states[|steps|].holder == Passing(todo, complete)
      invariant states[|steps|].records == records && states[|steps|].live == s.live
      invariant Repooled(old(provider.byId), provider.byId, records, alive, calls, done)
      invariant complete <==> AllConfirmed(records, alive, calls, done)
    {
      var tool :| tool in todo;
      var record := records[tool];
      ghost var step := PassOne(tool, alive(tool), calls(tool));
      PassTurn(states[|steps|], tool, alive(tool), calls(tool));
      ghost var after := Next(states[|steps|], step).value;
      RunOn(states, steps, step, after);
      PassGrows(old(provider.byId), provider.byId, records, alive, calls, done, tool);
      var confirmed := Renew(provider, tool, record, alive(tool), calls(tool));
      complete := complete && confirmed;
      todo, done := todo - {tool}, done + {tool};
      states, steps := states + [after], steps + [step];
    }
    assert done == records.Keys;
  }
}
