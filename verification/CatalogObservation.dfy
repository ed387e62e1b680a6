/** Verifying which tool catalog a running broker has loaded (admin/catalog_observation.py): two health reads
    around a private receipt, against a broker that may reload, fail or restart at any moment
    (broker/server.py, broker/registry.py). Observation ids are random, so no id is issued twice; a fingerprint
    is the value it is computed from. */
module CatalogObservation {
  import opened Wrappers

  /** A manifest as parsed, and the digest of its file. */
  datatype Entry = Entry(definition: string, digest: string)

  type Registry = map<string, Entry>

  /** The sources a catalog comes from. */
  datatype Sources = Sources(root: Option<string>, toolDirs: seq<string>)

  /** The identity of a loaded catalog, which leaves the file digests out. */
  datatype Fingerprint = Fingerprint(sources: Sources, definitions: map<string, string>)

  function ObservationFingerprint(registry: Registry, sources: Sources): Fingerprint {
    Fingerprint(sources, map tool | tool in registry :: registry[tool].definition)
  }

  function ToolIds(registry: Registry): set<string> {
    registry.Keys
  }

  lemma FingerprintTells(a: Registry, b: Registry, s: Sources, t: Sources)
    ensures ObservationFingerprint(a, s) == ObservationFingerprint(b, t)
       <==> && s == t && a.Keys == b.Keys
            && forall tool | tool in a && tool in b :: a[tool].definition == b[tool].definition
  {
    var (f, g) := (ObservationFingerprint(a, s), ObservationFingerprint(b, t));
    assert f.definitions.Keys == a.Keys && g.definitions.Keys == b.Keys;
    if f == g {
      forall tool | tool in a ensures a[tool].definition == b[tool].definition {
        assert f.definitions[tool] == g.definitions[tool];
      }
    }
  }

  type Id = nat

  datatype Receipt = Receipt(id: Id, fingerprint: Fingerprint)

  // ---- the broker, step by step -------------------------------------------------------------------

  /** What a reload does next. A signal may begin another reload inside it. */
  datatype Frame =
    | Forgetting
    | Clearing
    | Loading
    | Installing(registry: Registry)
    | Certifying
    | Storing(id: Id, fingerprint: Fingerprint)
    | Announcing(id: Id)

  /** A broker process: its catalog, the observation id it answers health reads with, the reloads under way,
      innermost last, and whether it has started. It serves requests only between reloads. */
  datatype Broker = Down | Up(sources: Sources, registry: Registry, id: Option<Id>, frames: seq<Frame>, started: bool)

  /** What an observer concluded: between the two health reads, at times since and until, the broker had loaded
      a catalog of these tools and this fingerprint. It read the receipt at time read. */
  datatype Verdict = Verdict(since: nat, read: nat, until: nat, id: Id, toolIds: set<string>, fingerprint: Fingerprint)

  /** How far an observation has come; its first health read happened at time since. */
  datatype Observer =
    | Resting
    | Asked(since: nat, id: Id)
    | Holding(since: nat, read: nat, id: Id, receipt: Option<Receipt>)
    | Compared(since: nat, read: nat, id: Id, toolIds: set<string>, fingerprint: Fingerprint)
    | Verified(verdict: Verdict)

  /** The ledger remembers the fingerprint each id was issued for. */
  datatype State = State(broker: Broker, receipt: Option<Receipt>, ledger: map<Id, Fingerprint>,
                         observer: Observer, time: nat)

  datatype Step =
    | Boot(sources: Sources, registry: Registry)
    | Kill
    | BeginReload
    | Advance(registry: Registry, id: Id)
    | FailReload
    | AskHealth
    | ReadReceipt
    | ReadManifests(sources: Sources, registry: Registry)
    | AskAgain
    | GiveUp

  function Top(b: Broker): Frame
    requires b.Up? && b.frames != []
  {
    b.frames[|b.frames| - 1]
  }

  function Replaced(b: Broker, frame: Frame): (r: Broker)
    requires b.Up? && b.frames != []
    ensures r.Up?
  {
    b.(frames := b.frames[..|b.frames| - 1] + [frame])
  }

  function Popped(b: Broker): (r: Broker)
    requires b.Up? && b.frames != []
    ensures r.Up?
  {
    b.(frames := b.frames[..|b.frames| - 1])
  }

  /** The innermost reload takes its next step. */
  function Advanced(s: State, registry: Registry, id: Id): (r: Option<State>)
    ensures r.Some? ==> r.value.observer == s.observer && r.value.time == s.time
  {
    var b := s.broker;
    if b.Down? || b.frames == [] then None
    else match Top(b)
      case Forgetting => Some(s.(broker := Replaced(b, Clearing).(id := None)))
      case Clearing => Some(s.(broker := Replaced(b, Loading), receipt := None))
      case Loading => Some(s.(broker := Replaced(b, Installing(registry))))
      case Installing(loaded) => Some(s.(broker := Replaced(b, Certifying).(registry := loaded)))
      case Certifying =>
        var fingerprint := ObservationFingerprint(b.registry, b.sources);
        if id in s.ledger then None
        else Some(s.(broker := Replaced(b, Storing(id, fingerprint)), ledger := s.ledger[id := fingerprint]))
      case Storing(o, fingerprint) =>
        Some(s.(broker := Replaced(b, Announcing(o)), receipt := Some(Receipt(o, fingerprint))))
      case Announcing(o) => Some(s.(broker := Popped(b).(id := Some(o), started := true)))
  }

  /** The id a health read reports. */
  function Health(b: Broker): Option<Id> {
    if b.Up? && b.frames == [] then b.id else None
  }

  /** A broker that fails to start is gone; one that fails to reload goes on. The handler of reloads is only
      installed once the broker has started. */
  function Moved(s: State, step: Step): Option<State> {
    match step
    case Boot(sources, registry) =>
      if s.broker.Up? then None else Some(s.(broker := Up(sources, registry, None, [Certifying], false)))
    case Kill => Some(s.(broker := Down))
    case BeginReload =>
      if s.broker.Down? || !s.broker.started then None
      else Some(s.(broker := s.broker.(frames := s.broker.frames + [Forgetting])))
    case Advance(registry, id) => Advanced(s, registry, id)
    case FailReload =>
      if s.broker.Down? || s.broker.frames == [] then None
      else Some(s.(broker := if s.broker.started then Popped(s.broker) else Down))
    case AskHealth =>
      if Health(s.broker).None? then None
      else Some(s.(observer := Asked(s.time, Health(s.broker).value)))
    case ReadReceipt =>
      if !s.observer.Asked? then None
      else Some(s.(observer := Holding(s.observer.since, s.time, s.observer.id, s.receipt)))
    case ReadManifests(sources, registry) =>
      if !s.observer.Holding? then None
      else
        var (o, current) := (s.observer, ObservationFingerprint(registry, sources));
        Some(s.(observer := if o.receipt == Some(Receipt(o.id, current))
                            then Compared(o.since, o.read, o.id, ToolIds(registry), current) else Resting))
    case AskAgain =>
      if !s.observer.Compared? then None
      else
        var o := s.observer;
        Some(s.(observer := if Health(s.broker) == Some(o.id)
                            then Verified(Verdict(o.since, o.read, s.time, o.id, o.toolIds, o.fingerprint))
                            else Resting))
    case GiveUp => Some(s.(observer := Resting))
  }

  function Next(s: State, step: Step): Option<State> {
    var moved := Moved(s, step);
    if moved.None? then None else Some(moved.value.(time := s.time + 1))
  }

  predicate Path(states: seq<State>, steps: seq<Step>) {
    && |states| == |steps| + 1
    && forall i | 0 <= i < |steps| :: Next(states[i], steps[i]) == Some(states[i + 1])
  }

  predicate Run(states: seq<State>, steps: seq<Step>) {
    Path(states, steps) && states[0].time == 0
  }

  /** What runs are proved against: in any state the broker may be killed or the observer give up, and a broker that is
      down may start anew; one that runs keeps running when a reload fails, and one still starting is gone. */
  lemma HazardsAnytime(s: State, sources: Sources, registry: Registry)
    ensures Next(s, Kill) == Some(s.(broker := Down, time := s.time + 1))
    ensures Next(s, GiveUp) == Some(s.(observer := Resting, time := s.time + 1))
    ensures s.broker.Down? ==>
              var up := Up(sources, registry, None, [Certifying], false);
              Next(s, Boot(sources, registry)) == Some(s.(broker := up, time := s.time + 1))
    ensures s.broker.Up? ==> (Next(s, FailReload).Some? <==> s.broker.frames != [])
    ensures s.broker.Up? && s.broker.frames != [] ==>
              var b := s.broker;
              Next(s, FailReload).value.broker == if b.started then b.(frames := b.frames[..|b.frames| - 1]) else Down
  {
  }

  // ---- what every reachable state keeps -----------------------------------------------------------

  function Loaded(b: Broker): Fingerprint
    requires b.Up?
  {
    ObservationFingerprint(b.registry, b.sources)
  }

  /** The id a reload is about to announce. */
  function Held(f: Frame): Option<Id> {
    match f
    case Storing(o, _) => Some(o)
    case Announcing(o) => Some(o)
    case _ => None
  }

  /** The broker answers with the id, or some reload of it may come to. */
  predicate HoldsId(b: Broker, id: Id) {
    b.Up? && (b.id == Some(id) || exists i | 0 <= i < |b.frames| :: Held(b.frames[i]) == Some(id))
  }

  /** Every id is held once. */
  predicate HeldOnce(b: Broker)
    requires b.Up?
  {
    && (forall i | 0 <= i < |b.frames| && Held(b.frames[i]).Some? :: b.id != Held(b.frames[i]))
    && (forall i, j | 0 <= i < j < |b.frames| && Held(b.frames[i]).Some? :: Held(b.frames[i]) != Held(b.frames[j]))
  }

  /** A broker that is still starting certifies the catalog it started with. */
  predicate StartOk(s: State)
    requires s.broker.Up?
  {
    var b := s.broker;
    !b.started ==>
      && b.id.None? && |b.frames| == 1
      && match b.frames[0]
         case Certifying => true
         case Storing(_, fingerprint) => fingerprint == Loaded(b)
         case Announcing(o) => s.receipt == Some(Receipt(o, Loaded(b)))
         case _ => false
  }

  predicate Inv(s: State) {
    var b := s.broker;
    && (s.receipt.Some? ==> s.receipt.value.id in s.ledger)
    && (b.Up? ==> HeldIssued(b, s.ledger) && HeldOnce(b) && StartOk(s))
  }

  /** Every id the broker holds was issued. */
  predicate HeldIssued(b: Broker, ledger: map<Id, Fingerprint>)
    requires b.Up?
  {
    && (b.id.Some? ==> b.id.value in ledger)
    && forall i | 0 <= i < |b.frames| && Held(b.frames[i]).Some? :: Held(b.frames[i]).value in ledger
  }

  /** A reload that goes on holds the same id, or none, or one that nothing else holds. */
  lemma ReplacedHolds(b: Broker, f: Frame, ledger: map<Id, Fingerprint>, ledger': map<Id, Fingerprint>)
    requires b.Up? && b.frames != [] && HeldOnce(b) && HeldIssued(b, ledger) && ledger.Keys <= ledger'.Keys
    requires Held(f).Some? ==> Held(f).value in ledger' && (Held(f) == Held(Top(b)) || Held(f).value !in ledger)
    ensures HeldOnce(Replaced(b, f)) && HeldIssued(Replaced(b, f), ledger')
  {
    var n := |b.frames| - 1;
    assert forall i | 0 <= i < n :: Replaced(b, f).frames[i] == b.frames[i];
  }

  /** A reload that announced its id leaves it to the broker. */
  lemma PoppedHolds(b: Broker, o: Id, ledger: map<Id, Fingerprint>)
    requires b.Up? && b.frames != [] && HeldOnce(b) && HeldIssued(b, ledger) && Top(b) == Announcing(o)
    ensures Popped(b).Up?
    ensures var b' := Popped(b).(id := Some(o), started := true); HeldOnce(b') && HeldIssued(b', ledger)
  {
    var n := |b.frames| - 1;
    assert Held(b.frames[n]) == Some(o);
    assert forall i | 0 <= i < n :: Popped(b).frames[i] == b.frames[i];
  }

  lemma AdvanceHolds(s: State, registry: Registry, id: Id, s': State)
    requires Inv(s) && Advanced(s, registry, id) == Some(s')
    ensures HeldOnce(s'.broker) && HeldIssued(s'.broker, s'.ledger)
  {
    var b := s.broker;
    assert HeldOnce(b) && HeldIssued(b, s.ledger);
    hide ObservationFingerprint, Inv, HeldOnce, HeldIssued;
    if Top(b).Announcing? {
      PoppedHolds(b, Top(b).id, s.ledger);
    } else {
      TopIssued(b, s.ledger);
      ReplacedHolds(b, Top(s'.broker), s.ledger, s'.ledger);
    }
  }

  lemma TopIssued(b: Broker, ledger: map<Id, Fingerprint>)
    requires b.Up? && b.frames != [] && HeldIssued(b, ledger)
    ensures Held(Top(b)).Some? ==> Held(Top(b)).value in ledger
  {
  }

  lemma AdvanceKeeps(s: State, registry: Registry, id: Id, s': State)
    requires Inv(s) && Advanced(s, registry, id) == Some(s')
    ensures Inv(s')
  {
    AdvanceHolds(s, registry, id, s');
    hide ObservationFingerprint, HeldOnce;
  }

  lemma StepKeeps(s: State, step: Step, s': State)
    requires Inv(s) && Next(s, step) == Some(s')
    ensures Inv(s')
  {
    if step.Advance? {
      hide Advanced;
      AdvanceKeeps(s, step.registry, step.id, Advanced(s, step.registry, step.id).value);
    }
  }

  lemma {:induction false} RunInv(states: seq<State>, steps: seq<Step>, k: nat)
    requires Path(states, steps) && Inv(states[0]) && k < |states|
    ensures Inv(states[k])
  {
    hide Inv, Next;
    if k > 0 {
      RunInv(states, steps, k - 1);
      assert Next(states[k - 1], steps[k - 1]) == Some(states[k - 1 + 1]);
      StepKeeps(states[k - 1], steps[k - 1], states[k]);
    }
  }

  // ---- the bracket --------------------------------------------------------------------------------

  /** An id the broker let go of never comes back, however reloads are nested. */
  lemma NeverAgain(s: State, step: Step, s': State, id: Id)
    requires Next(s, step) == Some(s') && id in s.ledger && !HoldsId(s.broker, id)
    ensures id in s'.ledger && !HoldsId(s'.broker, id)
  {
    hide ObservationFingerprint;
  }

  lemma {:induction false} GoneForGood(states: seq<State>, steps: seq<Step>, j: nat, k: nat, id: Id)
    requires Path(states, steps) && j <= k < |states|
    requires id in states[j].ledger && !HoldsId(states[j].broker, id)
    ensures !HoldsId(states[k].broker, id)
    decreases k - j
  {
    hide Next, HoldsId;
    if j < k {
      assert Next(states[j], steps[j]) == Some(states[j + 1]);
      NeverAgain(states[j], steps[j], states[j + 1], id);
      GoneForGood(states, steps, j + 1, k, id);
    }
  }

  /** The broker answers with the id, or would if the reloads begun since, which did nothing yet, all failed. */
  predicate Answering(b: Broker, id: Id) {
    b.Up? && b.id == Some(id) && forall i | 0 <= i < |b.frames| :: b.frames[i].Forgetting?
  }

  /** One step leaves such a broker with its catalog and its receipt, or lets go of the id. */
  lemma AnsweringStep(s: State, step: Step, s': State, id: Id)
    requires Inv(s) && Next(s, step) == Some(s') && Answering(s.broker, id)
    ensures id in s'.ledger
    ensures || !HoldsId(s'.broker, id)
            || (Answering(s'.broker, id) && s'.receipt == s.receipt && s'.broker.registry == s.broker.registry
                && s'.broker.sources == s.broker.sources)
  {
  }

  /** Two health reads with one answer bracket a single, unchanged catalog and receipt, however reloads are
      nested, fail or are killed. */
  lemma {:induction false} Bracketed(states: seq<State>, steps: seq<Step>, i: nat, j: nat, k: nat, id: Id)
    requires Path(states, steps) && Inv(states[0]) && i <= j <= k < |states|
    requires Health(states[i].broker) == Some(id) && Health(states[k].broker) == Some(id)
    ensures Answering(states[j].broker, id)
    ensures states[j].broker.registry == states[i].broker.registry
    ensures states[j].broker.sources == states[i].broker.sources
    ensures states[j].receipt == states[i].receipt
    decreases j
  {
    hide Next, Inv;
    if i < j {
      Bracketed(states, steps, i, j - 1, k, id);
      RunInv(states, steps, j - 1);
      assert Next(states[j - 1], steps[j - 1]) == Some(states[j - 1 + 1]);
      AnsweringStep(states[j - 1], steps[j - 1], states[j], id);
      if !HoldsId(states[j].broker, id) {
        GoneForGood(states, steps, j, k, id);
        assert false;
      }
    }
  }

  // ---- when a verdict is right --------------------------------------------------------------------

  /** What an observation rests on: the answer at since, and the receipt at read. */
  predicate Rests(states: seq<State>, k: nat, since: nat, read: nat, id: Id, receipt: Option<Receipt>) {
    since <= read < k < |states| && Health(states[since].broker) == Some(id) && states[read].receipt == receipt
  }

  predicate Grounded(states: seq<State>, k: nat)
    requires k < |states|
  {
    match states[k].observer
    case Resting => true
    case Asked(since, id) => since < k && Health(states[since].broker) == Some(id)
    case Holding(since, read, id, receipt) => Rests(states, k, since, read, id, receipt)
    case Compared(since, read, id, ids, fingerprint) =>
      Rests(states, k, since, read, id, Some(Receipt(id, fingerprint))) && ids == fingerprint.definitions.Keys
    case Verified(v) =>
      && v.read <= v.until < k && Health(states[v.until].broker) == Some(v.id)
      && Rests(states, k, v.since, v.read, v.id, Some(Receipt(v.id, v.fingerprint)))
      && v.toolIds == v.fingerprint.definitions.Keys
  }

  /** Only an observer's own steps change what it holds. */
  lemma ObserverMoves(s: State, step: Step, s': State)
    requires Next(s, step) == Some(s')
    ensures s'.time == s.time + 1
    ensures s'.observer == s.observer ||
            match s'.observer
            case Resting => true
            case Asked(since, id) => since == s.time && Health(s.broker) == Some(id)
            case Holding(since, read, id, receipt) =>
              s.observer == Asked(since, id) && read == s.time && receipt == s.receipt
            case Compared(since, read, id, ids, fingerprint) =>
              && s.observer == Holding(since, read, id, Some(Receipt(id, fingerprint)))
              && ids == fingerprint.definitions.Keys
            case Verified(v) =>
              && s.observer == Compared(v.since, v.read, v.id, v.toolIds, v.fingerprint)
              && v.until == s.time && Health(s.broker) == Some(v.id)
  {
    if step.ReadManifests? {
      var current := ObservationFingerprint(step.registry, step.sources);
      assert current.definitions.Keys == ToolIds(step.registry);
    }
  }

  lemma {:induction false} ReadsGrounded(states: seq<State>, steps: seq<Step>, k: nat)
    requires Run(states, steps) && states[0].observer == Resting && k < |states|
    ensures states[k].time == k && Grounded(states, k)
  {
    if k > 0 {
      ReadsGrounded(states, steps, k - 1);
      assert Next(states[k - 1], steps[k - 1]) == Some(states[k - 1 + 1]);
      ObserverMoves(states[k - 1], steps[k - 1], states[k]);
      hide Next, Health;
    }
  }

  /** The broker has loaded what the verdict says. */
  predicate Right(s: State, v: Verdict) {
    s.broker.Up? && Loaded(s.broker) == v.fingerprint && ToolIds(s.broker.registry) == v.toolIds
  }

  /** An idle broker that answers with a receipt of another catalog than it has. */
  predicate Misled(s: State) {
    && Health(s.broker).Some? && s.receipt.Some? && s.receipt.value.id == Health(s.broker).value
    && s.receipt.value.fingerprint != Loaded(s.broker)
  }

  /** Exactly: a verified answer is right throughout the time between the two health reads, unless the broker
      answered the first of them with a receipt of another catalog; then it is wrong throughout. */
  lemma VerifiedExact(states: seq<State>, steps: seq<Step>, k: nat, j: nat)
    requires Run(states, steps) && Inv(states[0]) && states[0].observer == Resting
    requires k < |states| && states[k].observer.Verified?
    requires states[k].observer.verdict.since <= j <= states[k].observer.verdict.until
    ensures states[k].observer.verdict.until < k
    ensures Right(states[j], states[k].observer.verdict) <==> !Misled(states[states[k].observer.verdict.since])
  {
    var v := states[k].observer.verdict;
    ReadsGrounded(states, steps, k);
    hide Next, Inv;
    Bracketed(states, steps, v.since, v.read, v.until, v.id);
    Bracketed(states, steps, v.since, j, v.until, v.id);
    var b := states[v.since].broker;
    assert Loaded(b).definitions.Keys == ToolIds(b.registry);
  }

  // ---- which reloads mislead ----------------------------------------------------------------------

  /** The fingerprint a reload will leave the broker answering with, unless it fails. */
  function Pledge(f: Frame, receipt: Option<Receipt>): Option<Fingerprint> {
    match f
    case Storing(_, fingerprint) => Some(fingerprint)
    case Announcing(o) => Standing(Some(o), receipt)
    case _ => None
  }

  /** The fingerprint of a receipt that carries the id. */
  function Standing(id: Option<Id>, receipt: Option<Receipt>): Option<Fingerprint> {
    if id.Some? && receipt.Some? && receipt.value.id == id.value then Some(receipt.value.fingerprint) else None
  }

  predicate Broken(pledge: Option<Fingerprint>, b: Broker)
    requires b.Up?
  {
    pledge.Some? && pledge.value != Loaded(b)
  }

  /** The broker answers, or may come to answer, with a fingerprint other than that of the catalog it has. */
  predicate Harmed(s: State) {
    && s.broker.Up?
    && (|| Broken(Standing(s.broker.id, s.receipt), s.broker)
        || exists i | 0 <= i < |s.broker.frames| :: Broken(Pledge(s.broker.frames[i], s.receipt), s.broker))
  }

  /** The innermost reload replaces the catalog while the broker answers, or an outer reload is about to answer,
      with a fingerprint that the new catalog does not have. */
  predicate HarmfulInstall(s: State, step: Step) {
    && step.Advance? && s.broker.Up? && s.broker.frames != [] && Top(s.broker).Installing?
    && var after := s.broker.(registry := Top(s.broker).registry);
       || Broken(Standing(s.broker.id, s.receipt), after)
       || exists i | 0 <= i < |s.broker.frames| :: Broken(Pledge(s.broker.frames[i], s.receipt), after)
  }

  lemma InstallHarms(s: State, registry: Registry, id: Id, s': State)
    requires s.broker.Up? && s.broker.frames != [] && Top(s.broker).Installing?
    requires Next(s, Advance(registry, id)) == Some(s')
    ensures Harmed(s') <==> HarmfulInstall(s, Advance(registry, id))
  {
    hide ObservationFingerprint;
    var b, b' := s.broker, s'.broker;
    var n := |b.frames| - 1;
    assert b'.frames[..n] == b.frames[..n];
    assert forall i | 0 <= i < n :: b'.frames[i] == b.frames[i];
    assert Pledge(b.frames[n], s.receipt) == None && Pledge(b'.frames[n], s.receipt) == None;
  }

  /** The receipt a reload stores is of no id that anything else of the broker holds. */
  lemma StoreHarmless(s: State, registry: Registry, id: Id, s': State)
    requires Inv(s) && Next(s, Advance(registry, id)) == Some(s') && !Harmed(s) && Top(s.broker).Storing?
    ensures !Harmed(s')
  {
    hide ObservationFingerprint, StartOk, HeldIssued;
    var b, b', n := s.broker, s'.broker, |s.broker.frames| - 1;
    assert b' == Replaced(b, Announcing(b.frames[n].id)) && Held(b.frames[n]) == Some(b.frames[n].id);
    assert !Broken(Pledge(b.frames[n], s.receipt), b) && Loaded(b') == Loaded(b);
    hide Next, Advanced, Loaded;
    forall i | 0 <= i < n ensures !Broken(Pledge(b'.frames[i], s'.receipt), b') {
      assert b'.frames[i] == b.frames[i] && !Broken(Pledge(b.frames[i], s.receipt), b);
      assert Held(b.frames[i]).Some? ==> Held(b.frames[i]) != Held(b.frames[n]);
    }
  }

  lemma AdvanceHarmless(s: State, registry: Registry, id: Id, s': State)
    requires Inv(s) && Next(s, Advance(registry, id)) == Some(s') && !Harmed(s)
    requires !Top(s.broker).Installing? && !Top(s.broker).Storing?
    ensures !Harmed(s')
  {
    hide ObservationFingerprint, Inv;
    var b, b', n := s.broker, s'.broker, |s.broker.frames| - 1;
    assert forall i | 0 <= i < n :: b'.frames[i] == b.frames[i];
    assert !Broken(Pledge(b.frames[n], s.receipt), b) && Loaded(b') == Loaded(b) by {
      hide Pledge, Standing;
    }
    assert s'.receipt == s.receipt || s'.receipt == None;
    if !Top(b).Certifying? && !Top(b).Announcing? {
      assert Pledge(b'.frames[n], s'.receipt) == None;
    }
  }

  lemma OthersHarmless(s: State, step: Step, s': State)
    requires Inv(s) && Next(s, step) == Some(s') && !Harmed(s) && !step.Advance?
    ensures !Harmed(s')
  {
    hide ObservationFingerprint, Advanced, HeldOnce, HeldIssued, StartOk;
  }

  /** Nothing else does harm: from an unharmed state exactly such an installation leads to a harmed one. */
  lemma HarmExactly(s: State, step: Step, s': State)
    requires Inv(s) && Next(s, step) == Some(s') && !Harmed(s)
    ensures Harmed(s') <==> HarmfulInstall(s, step)
  {
    hide Harmed, Inv, Pledge, Standing;
    if step.Advance? && Top(s.broker).Installing? {
      InstallHarms(s, step.registry, step.id, s');
    } else if step.Advance? && Top(s.broker).Storing? {
      StoreHarmless(s, step.registry, step.id, s');
    } else if step.Advance? {
      AdvanceHarmless(s, step.registry, step.id, s');
    } else {
      OthersHarmless(s, step, s');
    }
  }

  lemma {:induction false} Unharmed(states: seq<State>, steps: seq<Step>, k: nat)
    requires Path(states, steps) && Inv(states[0]) && !Harmed(states[0]) && k < |states|
    requires forall i | 0 <= i < k :: !HarmfulInstall(states[i], steps[i])
    ensures !Harmed(states[k])
  {
    hide Next, Inv, Harmed, HarmfulInstall;
    if k > 0 {
      Unharmed(states, steps, k - 1);
      RunInv(states, steps, k - 1);
      assert Next(states[k - 1], steps[k - 1]) == Some(states[k - 1 + 1]);
      HarmExactly(states[k - 1], steps[k - 1], states[k]);
    }
  }

  /** Soundness: if no such installation came before the first health read, a verified answer means that
      throughout the time between the two reads the broker ran with one catalog, of exactly the fingerprint and
      the tools the observer read from the manifests. */
  lemma VerifiedSound(states: seq<State>, steps: seq<Step>, k: nat, j: nat)
    requires Run(states, steps) && Inv(states[0]) && states[0].observer == Resting && !Harmed(states[0])
    requires k < |states| && states[k].observer.Verified?
    requires states[k].observer.verdict.since <= j <= states[k].observer.verdict.until
    requires forall i | 0 <= i < states[k].observer.verdict.since && i < |steps| :: !HarmfulInstall(states[i], steps[i])
    ensures states[k].observer.verdict.until < k
    ensures Right(states[j], states[k].observer.verdict)
  {
    VerifiedExact(states, steps, k, j);
    hide Next, Inv, HarmfulInstall;
    Unharmed(states, steps, states[k].observer.verdict.since);
  }

  // ---- reloads one at a time ----------------------------------------------------------------------

  /** No reload interrupts another, and one past its first step left no id standing. */
  predicate Flat(s: State) {
    s.broker.Up? ==>
      |s.broker.frames| <= 1 && (s.broker.id.Some? && s.broker.frames != [] ==> Top(s.broker).Forgetting?)
  }

  /** Reloads that come one at a time do no harm. */
  lemma FlatHarmless(s: State, step: Step, s': State)
    requires Flat(s) && Next(s, step) == Some(s') && (s'.broker.Up? ==> |s'.broker.frames| <= 1)
    ensures Flat(s') && !HarmfulInstall(s, step)
  {
  }

  // ---- every harm can mislead ---------------------------------------------------------------------

  lemma Joined(states: seq<State>, steps: seq<Step>, states': seq<State>, steps': seq<Step>)
    requires Path(states, steps) && Path(states', steps') && states'[0] == states[|steps|]
    ensures Path(states + states'[1..], steps + steps')
    ensures (states + states'[1..])[0] == states[0]
    ensures (states + states'[1..])[|steps| + |steps'|] == states'[|steps'|]
  {
  }

  /** The innermost reloads fail, down to the first n. */
  lemma {:induction false} FailDown(s: State, n: nat) returns (states: seq<State>, steps: seq<Step>)
    requires s.broker.Up? && s.broker.started && n <= |s.broker.frames|
    ensures Path(states, steps) && states[0] == s && |steps| == |s.broker.frames| - n
    ensures states[|steps|] == s.(broker := s.broker.(frames := s.broker.frames[..n]), time := s.time + |steps|)
    decreases |s.broker.frames|
  {
    if n == |s.broker.frames| {
      states, steps := [s], [];
      assert s.broker.frames[..n] == s.broker.frames;
    } else {
      var next := Next(s, FailReload).value;
      states, steps := FailDown(next, n);
      hide Next;
      assert next.broker.frames[..n] == s.broker.frames[..n];
      assert Path([s, next], [FailReload]);
      Joined([s, next], [FailReload], states, steps);
      assert [s, next] + states[1..] == [s] + states;
      states, steps := [s] + states, [FailReload] + steps;
    }
  }

  /** Manifests that have a given fingerprint. */
  lemma Realized(fingerprint: Fingerprint) returns (manifests: Registry)
    ensures ObservationFingerprint(manifests, fingerprint.sources) == fingerprint
  {
    manifests := map tool | tool in fingerprint.definitions :: Entry(fingerprint.definitions[tool], "");
    assert ObservationFingerprint(manifests, fingerprint.sources).definitions == fingerprint.definitions;
  }

  /** A run from s to a verified answer about a broker that has another catalog. */
  predicate Misleads(s: State, states: seq<State>, steps: seq<Step>) {
    && Path(states, steps) && states[0] == s
    && states[|steps|].observer.Verified? && states[|steps|].broker.Up?
    && Loaded(states[|steps|].broker) != states[|steps|].observer.verdict.fingerprint
  }

  /** A reload certifies its catalog: the fingerprint is worked out and stored, and its id announced. */
  lemma Publishing(s: State, rest: seq<Frame>, id: Id) returns (states: seq<State>, steps: seq<Step>)
    requires s.broker.Up? && s.broker.frames == rest + [Certifying] && id !in s.ledger
    ensures Path(states, steps) && states[0] == s && |steps| == 3
    ensures states[3]
         == State(s.broker.(id := Some(id), frames := rest, started := true), Some(Receipt(id, Loaded(s.broker))),
                  s.ledger[id := Loaded(s.broker)], s.observer, s.time + 3)
  {
    hide ObservationFingerprint;
    var go := Advance(s.broker.registry, id);
    var (b, f) := (s.broker, Loaded(s.broker));
    var ledger := s.ledger[id := f];
    assert forall g: Frame :: (rest + [g])[..|rest|] == rest;
    var s1 := State(b.(frames := rest + [Storing(id, f)]), s.receipt, ledger, s.observer, s.time + 1);
    var s2 := State(b.(frames := rest + [Announcing(id)]), Some(Receipt(id, f)), ledger, s.observer, s.time + 2);
    var s3 := State(b.(id := Some(id), frames := rest, started := true), s2.receipt, ledger, s.observer, s.time + 3);
    assert Next(s, go) == Some(s1) && Next(s1, go) == Some(s2) && Next(s2, go) == Some(s3);
    states, steps := [s, s1, s2, s3], [go, go, go];
    hide Next;
  }

  /** An observer of a misled broker comes to a wrong verdict. */
  lemma Observation(s: State) returns (states: seq<State>, steps: seq<Step>)
    requires Misled(s)
    ensures Misleads(s, states, steps)
  {
    var o, receipt := Health(s.broker).value, s.receipt.value;
    var manifests := Realized(receipt.fingerprint);
    hide Advanced, ObservationFingerprint;
    steps := [AskHealth, ReadReceipt, ReadManifests(receipt.fingerprint.sources, manifests), AskAgain];
    var s1 := s.(observer := Asked(s.time, o), time := s.time + 1);
    var s2 := s1.(observer := Holding(s.time, s.time + 1, o, s.receipt), time := s.time + 2);
    var compared := Compared(s.time, s.time + 1, o, ToolIds(manifests), receipt.fingerprint);
    var s3 := s2.(observer := compared, time := s.time + 3);
    var verdict := Verdict(s.time, s.time + 1, s.time + 3, o, ToolIds(manifests), receipt.fingerprint);
    var s4 := s3.(observer := Verified(verdict), time := s.time + 4);
    assert Next(s, steps[0]) == Some(s1) && Next(s1, steps[1]) == Some(s2);
    assert Next(s2, steps[2]) == Some(s3) && Next(s3, steps[3]) == Some(s4);
    states := [s, s1, s2, s3, s4];
    hide Next;
  }

  lemma Continued(s: State, states: seq<State>, steps: seq<Step>, states': seq<State>, steps': seq<Step>)
    returns (all: seq<State>, taken: seq<Step>)
    requires Path(states, steps) && states[0] == s && Misleads(states[|steps|], states', steps')
    ensures Misleads(s, all, taken)
  {
    hide Next;
    Joined(states, steps, states', steps');
    all, taken := states + states'[1..], steps + steps';
  }

  lemma Stepped(s: State, step: Step, s': State, states: seq<State>, steps: seq<Step>)
    returns (all: seq<State>, taken: seq<Step>)
    requires Next(s, step) == Some(s') && Misleads(s', states, steps)
    ensures Misleads(s, all, taken)
  {
    hide Next, Misleads;
    assert Path([s, s'], [step]);
    all, taken := Continued(s, [s, s'], [step], states, steps);
  }

  /** When the broker answers with a broken pledge, it only takes the reloads under way to fail. */
  lemma StandingMisleads(s: State) returns (states: seq<State>, steps: seq<Step>)
    requires s.broker.Up? && s.broker.started && Broken(Standing(s.broker.id, s.receipt), s.broker)
    ensures Misleads(s, states, steps)
  {
    hide Next, ObservationFingerprint;
    var a, b := FailDown(s, 0);
    var last := a[|b|];
    assert last.broker.frames == [];
    states, steps := Observation(last);
    states, steps := Continued(s, a, b, states, steps);
  }

  /** When the innermost reload pledges a fingerprint the catalog does not have, it only takes that reload to go
      on and the others to fail. */
  lemma PledgeMisleads(s: State) returns (states: seq<State>, steps: seq<Step>)
    requires s.broker.Up? && s.broker.started && s.broker.frames != []
    requires Broken(Pledge(Top(s.broker), s.receipt), s.broker)
    ensures Misleads(s, states, steps)
    decreases if Top(s.broker).Storing? then 1 else 0
  {
    var step := Advance(s.broker.registry, 0);
    var s' := Next(s, step).value;
    if Top(s.broker).Storing? {
      states, steps := PledgeMisleads(s');
    } else {
      states, steps := StandingMisleads(s');
    }
    hide Next, Misleads;
    states, steps := Stepped(s, step, s', states, steps);
  }

  /** From every harmed state some continuation ends in a verdict that is wrong. */
  lemma HarmedMisleads(s: State) returns (states: seq<State>, steps: seq<Step>)
    requires Inv(s) && Harmed(s)
    ensures Misleads(s, states, steps)
  {
    hide Next, Misleads;
    assert s.broker.started by {
      hide ObservationFingerprint;
    }
    if Broken(Standing(s.broker.id, s.receipt), s.broker) {
      states, steps := StandingMisleads(s);
    } else {
      var i :| 0 <= i < |s.broker.frames| && Broken(Pledge(s.broker.frames[i], s.receipt), s.broker);
      var a, b := FailDown(s, i + 1);
      var s' := a[|b|];
      assert Top(s'.broker) == s.broker.frames[i];
      states, steps := PledgeMisleads(s');
      states, steps := Continued(s, a, b, states, steps);
    }
  }

  /** A catalog with another fingerprint. */
  lemma Changed(fingerprint: Fingerprint, sources: Sources) returns (registry: Registry)
    ensures ObservationFingerprint(registry, sources) != fingerprint
  {
    var some: Registry := map["a" := Entry("d", "x")];
    assert "a" in ObservationFingerprint(some, sources).definitions;
    assert "a" !in ObservationFingerprint(map[], sources).definitions;
    registry := if ObservationFingerprint(some, sources) != fingerprint then some else map[];
  }

  /** A reload begins, inside any under way: the id is forgotten and the receipt cleared. */
  lemma Forgotten(s: State) returns (states: seq<State>, steps: seq<Step>)
    requires s.broker.Up? && s.broker.started
    ensures Path(states, steps) && states[0] == s && |steps| == 3
    ensures states[3] == State(s.broker.(id := None, frames := s.broker.frames + [Loading]), None, s.ledger, s.observer,
                               s.time + 3)
  {
    hide ObservationFingerprint;
    var (b, go) := (s.broker, Advance(map[], 0));
    var s1 := s.(broker := b.(frames := b.frames + [Forgetting]), time := s.time + 1);
    var s2 := s1.(broker := b.(id := None, frames := b.frames + [Clearing]), time := s.time + 2);
    var s3 := s2.(broker := b.(id := None, frames := b.frames + [Loading]), receipt := None, time := s.time + 3);
    assert forall f: Frame :: (b.frames + [f])[..|b.frames|] == b.frames;
    assert Next(s, BeginReload) == Some(s1) && Next(s1, go) == Some(s2) && Next(s2, go) == Some(s3);
    states, steps := [s, s1, s2, s3], [BeginReload, go, go];
    hide Next;
  }

  /** Up to where it has installed a catalog. */
  lemma NestedInstall(s: State, loaded: Registry) returns (states: seq<State>, steps: seq<Step>)
    requires s.broker.Up? && s.broker.started
    ensures Path(states, steps) && states[0] == s
    ensures states[|steps|]
         == State(s.broker.(id := None, registry := loaded, frames := s.broker.frames + [Certifying]), None, s.ledger,
                  s.observer, s.time + 5)
  {
    hide ObservationFingerprint;
    states, steps := Forgotten(s);
    var (b, go) := (s.broker, Advance(loaded, 0));
    var s3 := states[3];
    var s4 := s3.(broker := b.(id := None, frames := b.frames + [Installing(loaded)]), time := s.time + 4);
    var s5 := s4.(broker := b.(id := None, registry := loaded, frames := b.frames + [Certifying]), time := s.time + 5);
    assert forall f: Frame :: (b.frames + [f])[..|b.frames|] == b.frames;
    assert Next(s3, go) == Some(s4) && Next(s4, go) == Some(s5);
    hide Next;
    assert Path([s3, s4, s5], [go, go]);
    Joined(states, steps, [s3, s4, s5], [go, go]);
    states, steps := states + [s3, s4, s5][1..], steps + [go, go];
  }

  /** So nesting is harmful in every state in which some reload has worked out its fingerprint and not yet stored
      it: a reload inside it, of manifests that changed, can make the answer wrong. */
  lemma StoringMisleads(s: State, i: nat) returns (states: seq<State>, steps: seq<Step>)
    requires Inv(s) && s.broker.Up? && s.broker.started
    requires i < |s.broker.frames| && s.broker.frames[i].Storing?
    ensures Misleads(s, states, steps)
  {
    hide Next, Misleads, Inv;
    var fingerprint := s.broker.frames[i].fingerprint;
    var loaded := Changed(fingerprint, s.broker.sources);
    hide ObservationFingerprint;
    var a, b := FailDown(s, i + 1);
    var c, d := NestedInstall(a[|b|], loaded);
    var s' := c[|d|];
    assert s'.broker.frames[i] == s.broker.frames[i];
    assert Broken(Pledge(s'.broker.frames[i], s'.receipt), s'.broker);
    var e, f := FailDown(s', i + 1);
    var last := e[|f|];
    assert Top(last.broker) == s.broker.frames[i];
    states, steps := PledgeMisleads(last);
    states, steps := Continued(s', e, f, states, steps);
    states, steps := Continued(a[|b|], c, d, states, steps);
    states, steps := Continued(s, a, b, states, steps);
  }

  // ---- such a run exists --------------------------------------------------------------------------

  const SOURCES := Sources(None, [])

  /** Before anything was started. */
  const OFF := State(Down, None, map[], Resting, 0)

  /** From a system that was never started, a reload that another one interrupts between working out its
      fingerprint and storing it leads to a verified answer about a catalog the broker no longer has. */
  lemma NestedReloadMisleads() returns (states: seq<State>, steps: seq<Step>)
    ensures Run(states, steps) && Misleads(OFF, states, steps)
  {
    hide ObservationFingerprint;
    var booted := Next(OFF, Boot(SOURCES, map[])).value;
    var a, b := Publishing(booted, [], 0);
    var up := a[|b|];
    var c, d := NestedInstall(up, map[]);
    var outer := c[|d|];
    assert Inv(booted);
    hide Inv, Misleads;
    RunInv(a, b, |b|);
    RunInv(c, d, |d|);
    var storing := Next(outer, Advance(map[], 1)).value;
    StepKeeps(outer, Advance(map[], 1), storing);
    hide Next;
    states, steps := StoringMisleads(storing, 0);
    states, steps := Stepped(outer, Advance(map[], 1), storing, states, steps);
    states, steps := Continued(up, c, d, states, steps);
    states, steps := Continued(booted, a, b, states, steps);
    states, steps := Stepped(OFF, Boot(SOURCES, map[]), booted, states, steps);
  }

  // ---- the process itself -------------------------------------------------------------------------

  /** The broker's context, with the receipt it keeps in the store. Its methods run with nothing in between. */
  class Context {
    const sources: Sources
    var registry: Registry
    var observation: Option<Id>
    var receipt: Option<Receipt>

    /** The machine is at this context, with the given reloads under way. */
    ghost predicate Mirrors(s: State, frames: seq<Frame>)
      reads this
    {
      && s.broker.Up? && s.broker == Up(sources, registry, observation, frames, s.broker.started)
      && s.receipt == receipt
    }

    /** Starting takes the machine's steps. */
    constructor (sources: Sources, registry: Registry, id: Id, stored: Option<Receipt>, ghost s: State)
      requires s.broker.Down? && s.receipt == stored && id !in s.ledger
      ensures exists states, steps :: Path(states, steps) && states[0] == s && Mirrors(states[|steps|], [])
      ensures observation == Some(id) && receipt == Some(Receipt(id, ObservationFingerprint(registry, sources)))
    {
      this.sources, this.registry, observation, receipt := sources, registry, None, stored;
      new;
      ghost var booted := Next(s, Boot(sources, registry)).value;
      assert [] + [Certifying] == [Certifying];
      ghost var states, steps := PublishCatalogReceipt(id, booted, []);
      assert Path([s, booted], [Boot(sources, registry)]);
      Joined([s, booted], [Boot(sources, registry)], states, steps);
    }

    /** The receipt of the loaded catalog is stored, then its id announced, in the machine's steps. */
    method PublishCatalogReceipt(id: Id, ghost s: State, ghost rest: seq<Frame>)
      returns (ghost states: seq<State>, ghost steps: seq<Step>)
      requires Mirrors(s, rest + [Certifying]) && id !in s.ledger
      modifies this
      ensures Path(states, steps) && states[0] == s && Mirrors(states[|steps|], rest)
      ensures registry == old(registry)
      ensures observation == Some(id) && receipt == Some(Receipt(id, ObservationFingerprint(registry, sources)))
    {
      states, steps := Publishing(s, rest, id);
      receipt := Some(Receipt(id, ObservationFingerprint(registry, sources)));
      observation := Some(id);
    }

    /** A reload from the sources, which may not parse, in the machine's steps, and inside any other. A failed one
        keeps the catalog and certifies nothing. */
    method ReloadRegistry(parsed: Option<Registry>, id: Id, ghost s: State, ghost rest: seq<Frame>)
      returns (ok: bool, ghost states: seq<State>, ghost steps: seq<Step>)
      requires Mirrors(s, rest) && s.broker.started && id !in s.ledger
      modifies this
      ensures Path(states, steps) && states[0] == s && Mirrors(states[|steps|], rest)
      ensures ok == parsed.Some?
      ensures ok ==> registry == parsed.value && observation == Some(id)
                     && receipt == Some(Receipt(id, ObservationFingerprint(registry, sources)))
      ensures !ok ==> registry == old(registry) && observation == None && receipt == None
    {
      hide ObservationFingerprint;
      observation := None;
      receipt := None;
      if parsed.None? {
        states, steps := Forgotten(s);
        ghost var failed := Next(states[3], FailReload).value;
        assert (rest + [Loading])[..|rest|] == rest;
        hide Next;
        assert Path([states[3], failed], [FailReload]);
        Joined(states, steps, [states[3], failed], [FailReload]);
        states, steps := states + [states[3], failed][1..], steps + [FailReload];
        return false, states, steps;
      }
      registry := parsed.value;
      states, steps := NestedInstall(s, parsed.value);
      ghost var a, b := PublishCatalogReceipt(id, states[|steps|], rest);
      hide Next;
      Joined(states, steps, a, b);
      states, steps := states + a[1..], steps + b;
      return true, states, steps;
    }
  }
}
