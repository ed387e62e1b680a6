/** Admin sessions (admin/auth.py, admin/settings.py): signed cookies, a revocation table of bounded size, and
    a signing key that is rotated when the table is full. Keys and session ids are random, so none is drawn twice;
    an HMAC is the value it covers, and only what was signed carries one. Each atomic file replacement is one
    step. */
module Sessions {
  import opened Wrappers

  type Key = nat

  const CAPACITY := 4096

  datatype Signature = Hmac(key: Key, username: string, expiresAt: int, id: string) | Forged

  /** A decoded cookie: four fields separated by '|', the second an integer. */
  datatype Cookie = Malformed | Cookie(username: string, expiresAt: int, id: string, signature: Signature)

  predicate HexId(id: string) {
    |id| == 32 && forall i | 0 <= i < |id| :: '0' <= id[i] <= '9' || 'a' <= id[i] <= 'f'
  }

  function SignSession(username: string, key: Key, id: string, ttl: int, now: int): Cookie {
    if '|' in username then Malformed
    else Cookie(username, now + ttl, id, Hmac(key, username, now + ttl, id))
  }

  /** The user a cookie stands for, under a key and the revocation table as it reads; one that does not read lets
      nobody in. */
  function VerifySession(cookie: Cookie, key: Key, table: Option<map<string, int>>, now: int): Option<string> {
    if cookie.Malformed? || !HexId(cookie.id) || cookie.expiresAt < now
       || cookie.signature != Hmac(key, cookie.username, cookie.expiresAt, cookie.id)
       || table.None? || cookie.id in table.value
    then None else Some(cookie.username)
  }

  /** A signed session verifies exactly under its own key, until it expires or is listed, and with a table that
      reads. */
  lemma SignedVerifies(username: string, key: Key, id: string, ttl: int, signed: int, key': Key,
                       table: Option<map<string, int>>, now: int)
    ensures VerifySession(SignSession(username, key, id, ttl, signed), key', table, now)
         == if key' == key && '|' !in username && HexId(id) && now <= signed + ttl && table.Some? && id !in table.value
            then Some(username) else None
  {
  }

  /** Nothing else verifies: of all cookies exactly those signed by the key over these very fields, with an id of 32
      hexadecimal digits, not past their time and not listed in a table that reads. */
  lemma VerifiesExactly(cookie: Cookie, key: Key, table: Option<map<string, int>>, now: int, user: string)
    ensures VerifySession(cookie, key, table, now) == Some(user) <==>
              && cookie.Cookie? && cookie.username == user && now <= cookie.expiresAt
              && cookie.signature == Hmac(key, user, cookie.expiresAt, cookie.id)
              && |cookie.id| == 32
              && (forall i | 0 <= i < 32 :: var n := cookie.id[i] as int; 48 <= n < 58 || 97 <= n < 103)
              && table.Some? && cookie.id !in table.value
  {
  }

  function Unexpired(table: map<string, int>, now: int): map<string, int> {
    map id | id in table && table[id] >= now :: table[id]
  }

  // ---- the two files and their writer -------------------------------------------------------------

  /** The holder of the lock, between two of its file accesses; at is its second reading of the clock. */
  datatype Writer =
    | Idle
    | Checked(cookie: Cookie)
    | Rotating(cookie: Cookie)
    | Writing(cookie: Cookie, table: map<string, int>, at: int)

  /** The stored key and table; issued holds every key ever stored, and sessions every cookie ever signed. A damaged
      table does not read. */
  datatype State = State(key: Key, table: map<string, int>, readable: bool, issued: set<Key>,
                         sessions: map<string, Cookie>, writer: Writer, clock: int) {
    function View(): Option<map<string, int>> {
      if readable then Some(table) else None
    }
  }

  datatype Step =
    | SignIn(username: string, secret: Key, id: string, ttl: int)
    | Begin(cookie: Cookie, secret: Key)
    | Prune
    | RotateFull(key: Key)
    | WriteTable
    | Crash
    | Damage
    | ResetPassword(key: Key)
    | Tick(now: int)

  /** A signature that was not forged was made by signing a session. */
  predicate Genuine(sessions: map<string, Cookie>, cookie: Cookie) {
    cookie.Cookie? && cookie.signature.Hmac? ==> cookie.id in sessions && sessions[cookie.id] == cookie
  }

  /** With the lock held and the session verified, the expired entries go and the session is listed; at capacity
      the key is rotated instead. */
  function Prepared(cookie: Cookie, table: map<string, int>, now: int): Writer
    requires cookie.Cookie?
  {
    var live := Unexpired(table, now);
    if |live| >= CAPACITY then Rotating(cookie) else Writing(cookie, live[cookie.id := cookie.expiresAt], now)
  }

  function Rekeyed(s: State, key: Key): Option<State> {
    if key in s.issued then None else Some(s.(key := key, issued := s.issued + {key}))
  }

  /** A request brings the key it loaded when it began, which may have been replaced since. */
  function Next(s: State, step: Step): Option<State> {
    match step
    case SignIn(username, secret, id, ttl) =>
      if secret !in s.issued || id in s.sessions || !HexId(id) || '|' in username then None
      else Some(s.(sessions := s.sessions[id := SignSession(username, secret, id, ttl, s.clock)]))
    case Begin(cookie, secret) =>
      if !s.writer.Idle? || secret !in s.issued || !Genuine(s.sessions, cookie) then None
      else if VerifySession(cookie, secret, s.View(), s.clock).None? then Some(s)
      else Some(s.(writer := Checked(cookie)))
    case Prune =>
      if !s.writer.Checked? || s.writer.cookie.Malformed? || !s.readable then None
      else Some(s.(writer := Prepared(s.writer.cookie, s.table, s.clock)))
    case RotateFull(key) =>
      if !s.writer.Rotating? || key in s.issued then None
      else Some(s.(key := key, issued := s.issued + {key}, writer := Writing(s.writer.cookie, map[], s.clock)))
    case WriteTable =>
      if s.writer.Writing? then Some(s.(table := s.writer.table, readable := true, writer := Idle)) else None
    case Crash => Some(s.(writer := Idle))
    case Damage => Some(s.(readable := false))
    case ResetPassword(key) => Rekeyed(s, key)
    case Tick(now) => if s.clock <= now then Some(s.(clock := now)) else None
  }

  predicate Run(states: seq<State>, steps: seq<Step>) {
    && |states| == |steps| + 1
    && forall i | 0 <= i < |steps| :: Next(states[i], steps[i]) == Some(states[i + 1])
  }

  /** What runs are proved against: in any state the lock's holder may die, the table file may be damaged, the clock may
      advance, and the password may be reset, which stores a key never stored before. */
  lemma HazardsAnytime(s: State, key: Key, now: int)
    ensures Next(s, Crash) == Some(s.(writer := Idle))
    ensures Next(s, Damage) == Some(s.(readable := false))
    ensures Next(s, Tick(now)).Some? <==> s.clock <= now
    ensures s.clock <= now ==> Next(s, Tick(now)) == Some(s.(clock := now))
    ensures Next(s, ResetPassword(key)).Some? <==> key !in s.issued
    ensures key !in s.issued ==> Next(s, ResetPassword(key)) == Some(s.(key := key, issued := s.issued + {key}))
  {
  }

  // ---- what every reachable state keeps -----------------------------------------------------------

  /** A session that was signed, under some key ever stored. */
  predicate Signed(s: State, cookie: Cookie) {
    && cookie.Cookie? && cookie.id in s.sessions && s.sessions[cookie.id] == cookie && HexId(cookie.id)
    && cookie.signature.Hmac? && cookie.signature.key in s.issued
    && cookie.signature == Hmac(cookie.signature.key, cookie.username, cookie.expiresAt, cookie.id)
  }

  /** A listed session keeps its own expiry. */
  predicate TableOk(s: State, table: map<string, int>) {
    && |table| <= CAPACITY
    && forall id | id in table :: id in s.sessions && s.sessions[id].Cookie? && table[id] == s.sessions[id].expiresAt
  }

  /** The new table is the stored one, which only the lock's holder changes, less what had expired, and with the
      session; emptying it comes after a rotation. */
  predicate WriterOk(s: State) {
    match s.writer
    case Idle => true
    case Checked(cookie) => Signed(s, cookie)
    case Rotating(cookie) => Signed(s, cookie)
    case Writing(cookie, table, at) =>
      && Signed(s, cookie) && TableOk(s, table) && at <= s.clock
      && (table == map[] ==> cookie.signature.key != s.key)
      && (table != map[] ==> table.Keys == Unexpired(s.table, at).Keys + {cookie.id})
  }

  predicate SessionsOk(s: State) {
    forall id | id in s.sessions :: s.sessions[id].Cookie? && s.sessions[id].id == id && Signed(s, s.sessions[id])
  }

  predicate Inv(s: State) {
    s.key in s.issued && TableOk(s, s.table) && WriterOk(s) && SessionsOk(s)
  }

  lemma PrunedFits(s: State, cookie: Cookie)
    requires TableOk(s, s.table) && Signed(s, cookie) && |Unexpired(s.table, s.clock)| < CAPACITY
    ensures var table := Unexpired(s.table, s.clock)[cookie.id := cookie.expiresAt];
            TableOk(s, table) && table != map[] && table.Keys == Unexpired(s.table, s.clock).Keys + {cookie.id}
  {
    var table := Unexpired(s.table, s.clock)[cookie.id := cookie.expiresAt];
    assert cookie.id in table;
  }

  /** A session stays signed. */
  lemma SignedStays(s: State, step: Step, s': State, cookie: Cookie)
    requires Next(s, step) == Some(s') && Signed(s, cookie)
    ensures Signed(s', cookie)
  {
    hide HexId, Prepared, VerifySession;
  }

  lemma SignInKeeps(s: State, step: Step, s': State)
    requires Inv(s) && step.SignIn? && Next(s, step) == Some(s')
    ensures Inv(s')
  {
    hide HexId;
    forall id | id in s.sessions ensures Signed(s', s.sessions[id]) {
      SignedStays(s, step, s', s.sessions[id]);
    }
    assert Signed(s', s'.sessions[step.id]);
    if !s.writer.Idle? {
      SignedStays(s, step, s', s.writer.cookie);
    }
    hide Signed;
  }

  lemma PruneKeeps(s: State, s': State)
    requires Inv(s) && Next(s, Prune) == Some(s')
    ensures Inv(s')
  {
    var cookie := s.writer.cookie;
    if |Unexpired(s.table, s.clock)| < CAPACITY {
      PrunedFits(s, cookie);
    }
    hide HexId, Unexpired;
  }

  lemma WriteKeeps(s: State, step: Step, s': State)
    requires Inv(s) && (step.RotateFull? || step.WriteTable?) && Next(s, step) == Some(s')
    ensures Inv(s')
  {
    hide HexId, Unexpired;
  }

  lemma OtherKeeps(s: State, step: Step, s': State)
    requires Inv(s) && !(step.SignIn? || step.Prune? || step.RotateFull? || step.WriteTable?)
    requires Next(s, step) == Some(s')
    ensures Inv(s')
  {
    hide HexId, Unexpired;
  }

  lemma StepKeeps(s: State, step: Step, s': State)
    requires Inv(s) && Next(s, step) == Some(s')
    ensures Inv(s')
  {
    hide Next, Inv;
    if step.SignIn? {
      SignInKeeps(s, step, s');
    } else if step.Prune? {
      PruneKeeps(s, s');
    } else if step.RotateFull? || step.WriteTable? {
      WriteKeeps(s, step, s');
    } else {
      OtherKeeps(s, step, s');
    }
  }

  /** In every reachable state the table has at most 4096 entries. */
  lemma {:induction false} RunInv(states: seq<State>, steps: seq<Step>, k: nat)
    requires Run(states, steps) && Inv(states[0]) && k < |states|
    ensures Inv(states[k]) && |states[k].table| <= 4096
  {
    hide Next, WriterOk;
    if k > 0 {
      RunInv(states, steps, k - 1);
      assert Next(states[k - 1], steps[k - 1]) == Some(states[k - 1 + 1]);
      StepKeeps(states[k - 1], steps[k - 1], states[k]);
    }
  }

  // ---- permanence ---------------------------------------------------------------------------------

  /** A signed cookie that can no longer verify: its key was replaced, it expired, or it stays listed; and the
      writer at work will not change that. */
  predicate Gone(s: State, cookie: Cookie) {
    && Signed(s, cookie)
    && (|| cookie.signature.key != s.key
        || cookie.expiresAt < s.clock
        || (cookie.id in s.table && (s.writer.Writing? ==> cookie.id in s.writer.table)))
  }

  lemma GoneFails(s: State, cookie: Cookie, now: int)
    requires Gone(s, cookie) && s.clock <= now
    ensures VerifySession(cookie, s.key, s.View(), now) == None
  {
  }

  lemma GoneStays(s: State, step: Step, s': State, cookie: Cookie)
    requires Inv(s) && Next(s, step) == Some(s') && Gone(s, cookie)
    ensures Gone(s', cookie)
  {
    hide HexId;
  }

  /** A revocation writes its table. */
  predicate Revokes(s: State, step: Step) {
    step.WriteTable? && s.writer.Writing?
  }

  /** Once a revocation has written its table, the cookie is gone. */
  lemma RevokedGone(s: State, s': State)
    requires Inv(s) && Revokes(s, WriteTable) && Next(s, WriteTable) == Some(s')
    ensures Gone(s', s.writer.cookie)
  {
  }

  /** Permanence: a revoked cookie never verifies again under the stored key, whatever pruning, rotations,
      password resets and crashes follow, for a reader whose clock is no earlier than the table it reads. */
  lemma RevokedForever(states: seq<State>, steps: seq<Step>, j: nat, k: nat, now: int)
    requires Run(states, steps) && Inv(states[0]) && j < k < |states|
    requires Revokes(states[j], steps[j]) && states[k].clock <= now
    ensures VerifySession(states[j].writer.cookie, states[k].key, states[k].View(), now) == None
  {
    hide Next, Inv, Gone;
    assert Next(states[j], steps[j]) == Some(states[j + 1]);
    RunInv(states, steps, j);
    var cookie := states[j].writer.cookie;
    RevokedGone(states[j], states[j + 1]);
    GoneForever(states, steps, j + 1, k, cookie);
    GoneFails(states[k], cookie, now);
  }

  lemma {:induction false} GoneForever(states: seq<State>, steps: seq<Step>, j: nat, k: nat, cookie: Cookie)
    requires Run(states, steps) && Inv(states[0]) && j <= k < |states| && Gone(states[j], cookie)
    ensures Gone(states[k], cookie)
    decreases k
  {
    hide Next, Inv, Gone;
    if j < k {
      GoneForever(states, steps, j, k - 1, cookie);
      RunInv(states, steps, k - 1);
      assert Next(states[k - 1], steps[k - 1]) == Some(states[k - 1 + 1]);
      GoneStays(states[k - 1], steps[k - 1], states[k], cookie);
    }
  }

  // ---- which readers a revoked cookie can still pass ----------------------------------------------

  /** A write that leaves the cookie out: at capacity the table is emptied, and another revocation drops the entry
      once it read a clock past the expiry. */
  predicate Forgets(s: State, step: Step, cookie: Cookie)
    requires cookie.Cookie?
  {
    Revokes(s, step) && (s.writer.table == map[] || (s.writer.cookie != cookie && s.writer.at > cookie.expiresAt))
  }

  /** A write that lists the cookie. */
  predicate Lists(s: State, step: Step, cookie: Cookie) {
    Revokes(s, step) && s.writer.table != map[] && s.writer.cookie == cookie
  }

  /** Between j and k some write left the cookie out, and none listed it again. */
  predicate Forgotten(states: seq<State>, steps: seq<Step>, j: nat, k: nat, cookie: Cookie)
    requires cookie.Cookie? && k <= |steps| < |states|
  {
    exists m | j <= m < k ::
      Forgets(states[m], steps[m], cookie) && forall n | m < n < k :: !Lists(states[n], steps[n], cookie)
  }

  lemma UpdatedLists(table: map<string, int>, table': map<string, int>, at: int, id: string, other: string)
    requires table'.Keys == Unexpired(table, at).Keys + {other}
    ensures id in table' <==> id == other || (id in table && table[id] >= at)
  {
    assert id in table' <==> id in table'.Keys;
    assert id in Unexpired(table, at) <==> id in Unexpired(table, at).Keys;
  }

  lemma WriterFacts(s: State, cookie: Cookie)
    requires Inv(s) && Signed(s, cookie) && s.writer.Writing?
    ensures cookie.Cookie? && s.writer.cookie.Cookie?
    ensures s.writer.cookie.id == cookie.id ==> s.writer.cookie == cookie
    ensures cookie.id in s.table ==> s.table[cookie.id] == cookie.expiresAt
    ensures s.writer.table != map[] ==>
              s.writer.table.Keys == Unexpired(s.table, s.writer.at).Keys + {s.writer.cookie.id}
  {
    assert Signed(s, s.writer.cookie);
    hide HexId, Unexpired;
  }

  lemma WriteLists(s: State, s': State, cookie: Cookie)
    requires Inv(s) && Signed(s, cookie) && s.writer.Writing? && Next(s, WriteTable) == Some(s')
    ensures cookie.id in s'.table
       <==> if Lists(s, WriteTable, cookie) then true else if Forgets(s, WriteTable, cookie) then false
            else cookie.id in s.table
  {
    hide Inv, Signed, Unexpired, Prepared, VerifySession;
    WriterFacts(s, cookie);
    if s.writer.table != map[] {
      UpdatedLists(s.table, s.writer.table, s.writer.at, cookie.id, s.writer.cookie.id);
    }
  }

  lemma ListedStep(s: State, step: Step, s': State, cookie: Cookie)
    requires Inv(s) && Signed(s, cookie) && Next(s, step) == Some(s')
    ensures cookie.id in s'.table
       <==> if Lists(s, step, cookie) then true else if Forgets(s, step, cookie) then false else cookie.id in s.table
    ensures !(Lists(s, step, cookie) && Forgets(s, step, cookie))
  {
    if Revokes(s, step) {
      WriteLists(s, s', cookie);
    }
    hide Inv, Signed, VerifySession;
  }

  lemma FirstWrite(s: State, step: Step)
    requires Inv(s) && Revokes(s, step)
    ensures s.writer.Writing?
    ensures Signed(s, s.writer.cookie)
    ensures Lists(s, step, s.writer.cookie) || Forgets(s, step, s.writer.cookie)
  {
  }

  lemma {:induction false} StaysSigned(states: seq<State>, steps: seq<Step>, j: nat, k: nat, cookie: Cookie)
    requires Run(states, steps) && j <= k < |states| && Signed(states[j], cookie)
    ensures Signed(states[k], cookie)
    decreases k
  {
    hide Next, Signed;
    if j < k {
      StaysSigned(states, steps, j, k - 1, cookie);
      assert Next(states[k - 1], steps[k - 1]) == Some(states[k - 1 + 1]);
      SignedStays(states[k - 1], steps[k - 1], states[k], cookie);
    }
  }

  lemma StepAt(states: seq<State>, steps: seq<Step>, k: nat)
    requires Run(states, steps) && k < |steps|
    ensures |states| == |steps| + 1 && Next(states[k], steps[k]) == Some(states[k + 1])
  {
  }

  /** After its revocation was written a cookie is listed, unless it was forgotten since. */
  lemma {:induction false} ListedSince(states: seq<State>, steps: seq<Step>, j: nat, k: nat, cookie: Cookie)
    requires |states| == |steps| + 1 && Run(states, steps) && Inv(states[0]) && j < k < |states|
    requires Revokes(states[j], steps[j]) && states[j].writer.Writing? && cookie == states[j].writer.cookie
    requires cookie.Cookie?
    ensures cookie.id in states[k].table <==> !Forgotten(states, steps, j, k, cookie)
    decreases k
  {
    hide *;
    StepAt(states, steps, k - 1);
    RunInv(states, steps, j);
    RunInv(states, steps, k - 1);
    FirstWrite(states[j], steps[j]);
    StaysSigned(states, steps, j, k - 1, cookie);
    ListedStep(states[k - 1], steps[k - 1], states[k], cookie);
    if k - 1 > j {
      ListedSince(states, steps, j, k - 1, cookie);
    }
    ForgottenStep(states, steps, j, k, cookie);
  }

  lemma ForgottenStep(states: seq<State>, steps: seq<Step>, j: nat, k: nat, cookie: Cookie)
    requires j < k <= |steps| < |states| && cookie.Cookie?
    ensures Forgotten(states, steps, j, k, cookie)
       <==> || (Forgets(states[k - 1], steps[k - 1], cookie))
            || (j < k - 1 && !Lists(states[k - 1], steps[k - 1], cookie)
                && Forgotten(states, steps, j, k - 1, cookie))
  {
    hide Forgets, Lists;
  }

  /** Which reader a revoked cookie can still pass: one that brings the key it was signed under, with a clock
      within its time, if since the revocation was written some write left the cookie out and none listed it
      again. The reader may have loaded its key and read its clock long before it read the table. */
  lemma StaleReader(states: seq<State>, steps: seq<Step>, j: nat, k: nat, cookie: Cookie, loaded: Key, now: int)
    requires Run(states, steps) && Inv(states[0]) && j < k < |states|
    requires Revokes(states[j], steps[j]) && cookie == states[j].writer.cookie && cookie.Cookie?
    ensures VerifySession(cookie, loaded, states[k].View(), now).Some?
       <==> cookie.signature == Hmac(loaded, cookie.username, cookie.expiresAt, cookie.id) && now <= cookie.expiresAt
            && states[k].readable && Forgotten(states, steps, j, k, cookie)
  {
    RunInv(states, steps, j);
    hide Next, Inv, Forgotten;
    FirstWrite(states[j], steps[j]);
    ListedSince(states, steps, j, k, cookie);
  }

  /** A revocation at capacity writes the emptied table. */
  predicate Empties(s: State, step: Step) {
    Revokes(s, step) && s.writer.table == map[]
  }

  /** For a reader whose clock is no earlier than the table it reads, the entry cannot have expired: then it takes a
      revocation at capacity, whose emptied table was written since and which no later write of this cookie
      followed. */
  lemma StaleInOrder(states: seq<State>, steps: seq<Step>, j: nat, k: nat, cookie: Cookie, loaded: Key, now: int)
    requires Run(states, steps) && Inv(states[0]) && j < k < |states|
    requires Revokes(states[j], steps[j]) && cookie == states[j].writer.cookie && cookie.Cookie?
    requires states[k].clock <= now
    ensures VerifySession(cookie, loaded, states[k].View(), now).Some?
       <==> cookie.signature == Hmac(loaded, cookie.username, cookie.expiresAt, cookie.id) && now <= cookie.expiresAt
            && states[k].readable
            && exists m | j <= m < k ::
                 Empties(states[m], steps[m]) && forall n | m < n < k :: !Lists(states[n], steps[n], cookie)
  {
    StaleReader(states, steps, j, k, cookie, loaded, now);
    hide Next, Inv, VerifySession, Lists;
    forall m | j <= m < k && Forgets(states[m], steps[m], cookie) && now <= cookie.expiresAt
      ensures Empties(states[m], steps[m])
    {
      WrittenInTime(states, steps, m, k);
    }
  }

  lemma WrittenInTime(states: seq<State>, steps: seq<Step>, m: nat, k: nat)
    requires Run(states, steps) && Inv(states[0]) && m <= k < |states| && states[m].writer.Writing?
    ensures states[m].writer.at <= states[k].clock
  {
    RunInv(states, steps, m);
    hide Next;
    ClockRuns(states, steps, m, k);
  }

  lemma {:induction false} ClockRuns(states: seq<State>, steps: seq<Step>, m: nat, k: nat)
    requires Run(states, steps) && m <= k < |states|
    ensures states[m].clock <= states[k].clock
    decreases k
  {
    if m < k {
      ClockRuns(states, steps, m, k - 1);
      assert Next(states[k - 1], steps[k - 1]) == Some(states[k - 1 + 1]);
    }
  }

  // ---- one revocation -----------------------------------------------------------------------------

  /** A revocation nothing else interrupts; its two readings of the clock may differ. */
  function Revoked(s: State, cookie: Cookie, secret: Key, later: int, newKey: Key): State
    requires s.writer.Idle? && newKey !in s.issued
  {
    if VerifySession(cookie, secret, s.View(), s.clock).None? then s.(clock := later)
    else match Prepared(cookie, s.table, later)
      case Writing(_, table, _) => s.(clock := later, table := table)
      case _ => s.(clock := later, key := newKey, table := map[], issued := s.issued + {newKey})
  }

  /** It is the steps of the machine, one after the other. */
  lemma RevokedSteps(s: State, cookie: Cookie, secret: Key, later: int, newKey: Key)
    returns (states: seq<State>, steps: seq<Step>)
    requires s.writer.Idle? && secret in s.issued && newKey !in s.issued && Genuine(s.sessions, cookie)
    requires s.clock <= later
    ensures Run(states, steps) && states[0] == s && states[|steps|] == Revoked(s, cookie, secret, later, newKey)
  {
    assert VerifySession(cookie, secret, s.View(), s.clock).Some? ==> cookie.Cookie? && s.readable;
    hide VerifySession, Unexpired;
    var s1 := Next(s, Begin(cookie, secret)).value;
    var s2 := Next(s1, Tick(later)).value;
    states, steps := [s, s1, s2], [Begin(cookie, secret), Tick(later)];
    if s1.writer.Checked? {
      var s3 := Next(s2, Prune).value;
      states, steps := states + [s3], steps + [Prune];
      if s3.writer.Rotating? {
        var s4 := Next(s3, RotateFull(newKey)).value;
        states, steps := states + [s4, Next(s4, WriteTable).value], steps + [RotateFull(newKey), WriteTable];
      } else {
        states, steps := states + [Next(s3, WriteTable).value], steps + [WriteTable];
      }
    }
  }

  /** Below capacity, a revocation ends that session and no other. */
  lemma RevokesOne(s: State, cookie: Cookie, secret: Key, later: int, newKey: Key, other: Cookie)
    requires Inv(s) && s.writer.Idle? && newKey !in s.issued && |Unexpired(s.table, later)| < 4096
    requires s.clock <= later && VerifySession(cookie, secret, s.View(), s.clock).Some?
    requires Genuine(s.sessions, cookie) && Genuine(s.sessions, other) && other != cookie
    ensures var s' := Revoked(s, cookie, secret, later, newKey);
            && s'.key == s.key
            && VerifySession(cookie, s'.key, s'.View(), later) == None
            && forall now | later <= now :: VerifySession(other, s'.key, s'.View(), now)
                                         == VerifySession(other, s.key, s.View(), now)
  {
    var table := Unexpired(s.table, later)[cookie.id := cookie.expiresAt];
    if other.Cookie? && other.signature.Hmac? {
      assert other.id != cookie.id;
      assert other.id in s.table ==> s.table[other.id] == other.expiresAt;
    }
  }

  /** Some listed session does pass again: a revocation at capacity forgets the listed ones together with their
      key, for a reader that loaded that key. */
  lemma StalePasses(s: State, cookie: Cookie, listed: Cookie, secret: Key, later: int, newKey: Key)
    requires s.writer.Idle? && newKey !in s.issued && |Unexpired(s.table, later)| >= 4096
    requires VerifySession(cookie, secret, s.View(), s.clock).Some?
    requires listed.Cookie? && listed.id in s.table && VerifySession(listed, s.key, Some(map[]), later).Some?
    ensures VerifySession(listed, s.key, s.View(), later) == None
    ensures VerifySession(listed, s.key, Revoked(s, cookie, secret, later, newKey).View(), later)
         == Some(listed.username)
  {
  }

  /** So does a session whose time ran out while its reader was at work: once the reader has read the clock, another
      revocation drops the expired entry before the reader comes to the table, under the very key stored. */
  lemma StraddlingPasses(s: State, cookie: Cookie, listed: Cookie, secret: Key, later: int, newKey: Key)
    requires Inv(s) && s.writer.Idle? && newKey !in s.issued && |Unexpired(s.table, later)| < 4096
    requires VerifySession(cookie, secret, s.View(), s.clock).Some?
    requires Signed(s, listed) && listed.id in s.table && listed.signature.key == s.key && listed.expiresAt < later
    ensures var s' := Revoked(s, cookie, secret, later, newKey);
            s'.key == s.key && VerifySession(listed, s'.key, s'.View(), listed.expiresAt) == Some(listed.username)
  {
  }

  /** The two files as the admin process updates them. */
  class SessionFiles {
    var key: Key
    var table: map<string, int>
    var readable: bool
    ghost var issued: set<Key>
    ghost var sessions: map<string, Cookie>

    ghost predicate Valid(now: int)
      reads this
    {
      Inv(Snapshot(now))
    }

    ghost function Snapshot(now: int): State
      reads this
    {
      State(key, table, readable, issued, sessions, Idle, now)
    }

    constructor (newKey: Key)
      ensures table == map[] && key == newKey && forall now :: Valid(now)
    {
      key, table, readable, issued, sessions := newKey, map[], true, {newKey}, map[];
    }

    method RotateSecret(newKey: Key)
      requires newKey !in issued
      modifies this
      ensures key == newKey && table == old(table) && readable == old(readable)
      ensures issued == old(issued) + {newKey} && sessions == old(sessions)
      ensures forall now :: old(Valid(now)) ==> Valid(now)
    {
      key, issued := newKey, issued + {newKey};
    }

    /** Revokes a session under the lock, reading the clock once to verify it and again to prune. The process may
        die before the table is written. */
    method RevokeSession(cookie: Cookie, secret: Key, now: int, later: int, newKey: Key, dies: bool)
      returns (written: bool)
      requires Valid(now) && secret in issued && newKey !in issued && Genuine(sessions, cookie) && now <= later
      modifies this
      ensures Valid(later)
      ensures written ==> Snapshot(later) == Revoked(old(Snapshot(now)), cookie, secret, later, newKey)
      ensures !written ==> dies && table == old(table) && readable == old(readable)
                           && key == if |Unexpired(table, later)| >= 4096 then newKey else old(key)
    {
      ghost var before := Snapshot(now);
      ghost var states, steps := RevokedSteps(before, cookie, secret, later, newKey);
      RunInv(states, steps, |steps|);
      StepKeeps(before, Tick(later), before.(clock := later));
      hide Inv, VerifySession;
      if VerifySession(cookie, secret, if readable then Some(table) else None, now).None? {
        return true;
      }
      var revoked := Unexpired(table, later);
      if |revoked| >= CAPACITY {
        RotateSecret(newKey);
        revoked := map[];
      } else {
        revoked := revoked[cookie.id := cookie.expiresAt];
      }
      if dies {
        return false;
      }
      table, readable := revoked, true;
      return true;
    }
  }
}
