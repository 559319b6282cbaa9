/**
 The read-through dashboard cache under any interleaving of readers, source writes, evictions and Redis
 failures. Every step is atomic; the clock is one monotone clock, in seconds. The fingerprint in a key is
 taken to be injective, so a key is the query itself.
 */
module DashboardCache {
  import opened Options

  datatype Key = Key(organization: nat, restaurant: nat, query: string, arguments: string)

  type Rows = seq<string>

  /** `started` is the clock just before the rows were read. */
  datatype Entry = Entry(started: real, rows: Rows)

  datatype Phase =
    | Begun
    | Got(entry: Entry)                      // GET returned a payload
    | Missed
    | Started(started: real)                 // the query is running
    | Fetched(started: real, rows: Rows)
    | Storing(started: real, rows: Rows)     // SET is in flight
    | Served(rows: Rows, hit: bool, at: real)  // `at` is the clock when the age was checked or the call ended

  /** `since` is the number of the step that began the call. */
  datatype Call = Call(key: Key, since: nat, phase: Phase)

  datatype State = State(clock: real, taken: nat, source: map<Key, Rows>, cache: map<Key, Entry>, calls: map<nat, Call>)

  datatype Step =
    | Tick(seconds: real)
    | Write(key: Key, rows: Rows)
    | Evict(key: Key)
    | Begin(call: nat, key: Key)
    | Get(call: nat)
    | GetFails(call: nat)
    | CheckAge(call: nat)
    | Start(call: nat)
    | Read(call: nat)
    | Measure(call: nat)
    | Store(call: nat)
    | StoreFails(call: nat, applied: bool)

  /** What the query returns at this instant. */
  function Current(s: State, key: Key): Rows {
    if key in s.source then s.source[key] else []
  }

  predicate Enabled(s: State, step: Step) {
    match step
    case Tick(seconds) => seconds >= 0.0
    case Write(_, _) => true
    case Evict(_) => true
    case Begin(c, _) => c !in s.calls
    case Get(c) => c in s.calls && s.calls[c].phase == Begun
    case GetFails(c) => c in s.calls && s.calls[c].phase == Begun
    case CheckAge(c) => c in s.calls && s.calls[c].phase.Got?
    case Start(c) => c in s.calls && s.calls[c].phase == Missed
    case Read(c) => c in s.calls && s.calls[c].phase.Started?
    case Measure(c) => c in s.calls && s.calls[c].phase.Fetched?
    case Store(c) => c in s.calls && s.calls[c].phase.Storing?
    case StoreFails(c, _) => c in s.calls && s.calls[c].phase.Storing?
  }

  function Moved(s: State, c: nat, phase: Phase): map<nat, Call>
    requires c in s.calls
  {
    s.calls[c := s.calls[c].(phase := phase)]
  }

  /** Whole milliseconds left of the ten seconds that began before the read. */
  function Remaining(clock: real, started: real): int {
    var elapsed := (clock - started) * 1000.0;
    10000 - (if elapsed >= 0.0 then elapsed.Floor else -((-elapsed).Floor))
  }

  function Changed(s: State, step: Step): State
    requires Enabled(s, step)
  {
    match step
    case Tick(seconds) => s.(clock := s.clock + seconds)
    case Write(key, rows) => s.(source := s.source[key := rows])
    case Evict(key) => s.(cache := s.cache - {key})
    case Begin(c, key) => s.(calls := s.calls[c := Call(key, s.taken, Begun)])
    case Get(c) =>
      var key := s.calls[c].key;
      s.(calls := Moved(s, c, if key in s.cache then Got(s.cache[key]) else Missed))
    case GetFails(c) => s.(calls := Moved(s, c, Missed))
    case CheckAge(c) =>
      var entry := s.calls[c].phase.entry;
      s.(calls := Moved(s, c, if 0.0 <= s.clock - entry.started < 10.0 then Served(entry.rows, true, s.clock) else Missed))
    case Start(c) => s.(calls := Moved(s, c, Started(s.clock)))
    case Read(c) => s.(calls := Moved(s, c, Fetched(s.calls[c].phase.started, Current(s, s.calls[c].key))))
    case Measure(c) =>
      var p := s.calls[c].phase;
      s.(calls := Moved(s, c, if Remaining(s.clock, p.started) > 0 then Storing(p.started, p.rows) else Served(p.rows, false, s.clock)))
    case Store(c) =>
      var p := s.calls[c].phase;
      s.(cache := s.cache[s.calls[c].key := Entry(p.started, p.rows)], calls := Moved(s, c, Served(p.rows, false, s.clock)))
    case StoreFails(c, applied) =>
      var p := s.calls[c].phase;
      s.(cache := if applied then s.cache[s.calls[c].key := Entry(p.started, p.rows)] else s.cache, calls := Moved(s, c, Served(p.rows, false, s.clock)))
  }

  function Taken(s: State, step: Step): State
    requires Enabled(s, step)
  {
    Changed(s, step).(taken := s.taken + 1)
  }

  ghost predicate Behaviour(states: seq<State>, steps: seq<Step>) {
    && |states| == |steps| + 1 && states[0].taken == 0 && states[0].cache == map[] && states[0].calls == map[]
    && forall i :: 0 <= i < |steps| ==> Enabled(states[i], steps[i]) && states[i + 1] == Taken(states[i], steps[i])
  }

  // ---------------------------------------------------------------------------
  // Where rows come from

  /** In state m the source held these rows and the clock had reached `started`. */
  predicate HeldAt(states: seq<State>, m: nat, key: Key, rows: Rows, started: real) {
    m < |states| && Current(states[m], key) == rows && started <= states[m].clock
  }

  /** Some state from `since` up to i is such an instant. */
  ghost predicate Held(states: seq<State>, since: nat, i: nat, key: Key, rows: Rows, started: real) {
    exists m: nat :: since <= m <= i && HeldAt(states, m, key, rows, started)
  }

  /** The source held these rows less than ten seconds before `at`. */
  ghost predicate Recent(states: seq<State>, i: nat, key: Key, rows: Rows, at: real) {
    exists m: nat :: m <= i && InTime(states, m, key, rows, at)
  }

  predicate InTime(states: seq<State>, m: nat, key: Key, rows: Rows, at: real) {
    m < |states| && Current(states[m], key) == rows && at - 10.0 < states[m].clock <= at
  }

  /** The source held these rows while the call was running. */
  ghost predicate Live(states: seq<State>, since: nat, i: nat, key: Key, rows: Rows) {
    exists m: nat :: since <= m <= i < |states| && Current(states[m], key) == rows
  }

  ghost predicate CallOk(states: seq<State>, i: nat, call: Call)
    requires i < |states|
  {
    && call.since <= i
    && match call.phase
       case Begun => true
       case Missed => true
       case Got(entry) => Held(states, 0, i, call.key, entry.rows, entry.started)
       case Started(started) => started <= states[i].clock
       case Fetched(started, rows) => Held(states, call.since, i, call.key, rows, started)
       case Storing(started, rows) => Held(states, call.since, i, call.key, rows, started)
       case Served(rows, hit, at) => if hit then Recent(states, i, call.key, rows, at) else Live(states, call.since, i, call.key, rows)
  }

  ghost predicate CacheOk(states: seq<State>, i: nat)
    requires i < |states|
  {
    forall key :: key in states[i].cache ==> Held(states, 0, i, key, states[i].cache[key].rows, states[i].cache[key].started)
  }

  ghost predicate Inv(states: seq<State>, i: nat)
    requires i < |states|
  {
    states[i].taken == i && CacheOk(states, i) && CallsOk(states, i)
  }

  ghost predicate CallsOk(states: seq<State>, i: nat)
    requires i < |states|
  {
    forall c :: c in states[i].calls ==> CallOk(states, i, states[i].calls[c])
  }

  lemma {:induction false} ClockRises(states: seq<State>, steps: seq<Step>, m: nat, i: nat)
    requires Behaviour(states, steps) && m <= i < |states|
    ensures states[m].clock <= states[i].clock
    decreases i
  {
    if m < i {
      ClockRises(states, steps, m, i - 1);
      assert states[i] == Taken(states[i - 1], steps[i - 1]);
    }
  }

  /** What was true of a call stays true while the call itself does not move. */
  lemma CallStays(states: seq<State>, steps: seq<Step>, i: nat, call: Call)
    requires Behaviour(states, steps) && i < |steps| && i + 1 < |states| && CallOk(states, i, call)
    ensures CallOk(states, i + 1, call)
  {
    hide Behaviour, HeldAt, InTime;
    ClockRises(states, steps, i, i + 1);
  }

  lemma CacheKept(states: seq<State>, steps: seq<Step>, i: nat)
    requires Behaviour(states, steps) && i < |steps| && Inv(states, i)
    ensures CacheOk(states, i + 1)
  {
    hide HeldAt;
    var s, s', step := states[i], states[i + 1], steps[i];
    forall key | key in s'.cache
      ensures Held(states, 0, i + 1, key, s'.cache[key].rows, s'.cache[key].started)
    {
      if key in s.cache && s'.cache[key] == s.cache[key] {
        assert Held(states, 0, i, key, s.cache[key].rows, s.cache[key].started);
      } else {
        assert step.Store? || step.StoreFails?;
        assert CallOk(states, i, s.calls[step.call]);
      }
    }
  }

  /** The age check passes on what the payload's rows were, and when. */
  lemma CheckMoves(states: seq<State>, steps: seq<Step>, i: nat, c: nat)
    requires Behaviour(states, steps) && i < |steps| && c in states[i].calls && states[i].calls[c].phase.Got?
    requires CallOk(states, i, states[i].calls[c]) && 0.0 <= states[i].clock - states[i].calls[c].phase.entry.started < 10.0
    ensures Recent(states, i + 1, states[i].calls[c].key, states[i].calls[c].phase.entry.rows, states[i].clock)
  {
    var key, entry := states[i].calls[c].key, states[i].calls[c].phase.entry;
    var m: nat :| 0 <= m <= i && HeldAt(states, m, key, entry.rows, entry.started);
    ClockRises(states, steps, m, i);
    assert InTime(states, m, key, entry.rows, states[i].clock);
  }

  /** The call that moves. */
  lemma CallMoves(states: seq<State>, steps: seq<Step>, i: nat, c: nat)
    requires Behaviour(states, steps) && i < |steps| && Inv(states, i)
    requires c in states[i].calls && c in states[i + 1].calls && states[i + 1].calls[c] != states[i].calls[c]
    ensures CallOk(states, i + 1, states[i + 1].calls[c])
  {
    hide Recent, Held, Live, Remaining, Current;
    var s, s', step := states[i], states[i + 1], steps[i];
    var call, key := s.calls[c], s.calls[c].key;
    assert CallOk(states, i, call);
    assert s' == Taken(s, step) && s'.clock == s.clock;
    if step.Get? && key in s.cache {
      StillHeld(states, 0, i, key, s.cache[key].rows, s.cache[key].started);
    } else if step.CheckAge? && s'.calls[c].phase.Served? {
      CheckMoves(states, steps, i, c);
    } else if step.Read? {
      ReadIsHeld(states, i, call, call.phase.started);
    } else if call.phase.Fetched? || call.phase.Storing? {
      StillHeld(states, call.since, i, key, call.phase.rows, call.phase.started);
      HeldIsLive(states, i, call, call.phase.rows, call.phase.started);
    }
  }

  lemma StillHeld(states: seq<State>, since: nat, i: nat, key: Key, rows: Rows, started: real)
    requires Held(states, since, i, key, rows, started)
    ensures Held(states, since, i + 1, key, rows, started)
  {
  }

  lemma HeldIsLive(states: seq<State>, i: nat, call: Call, rows: Rows, started: real)
    requires i + 1 < |states| && Held(states, call.since, i, call.key, rows, started)
    ensures Live(states, call.since, i + 1, call.key, rows)
  {
  }

  lemma ReadIsHeld(states: seq<State>, i: nat, call: Call, started: real)
    requires i < |states| && call.since <= i && started <= states[i].clock
    ensures Held(states, call.since, i + 1, call.key, Current(states[i], call.key), started)
  {
    assert HeldAt(states, i, call.key, Current(states[i], call.key), started);
  }

  lemma CallsKept(states: seq<State>, steps: seq<Step>, i: nat)
    requires Behaviour(states, steps) && i < |steps| && Inv(states, i)
    ensures CallsOk(states, i + 1)
  {
    hide CallOk, CacheOk;
    var s, s' := states[i], states[i + 1];
    forall c | c in s'.calls
      ensures CallOk(states, i + 1, s'.calls[c])
    {
      if c !in s.calls {
        NewCallOk(states, i + 1, s'.calls[c]);
      } else if s'.calls[c] == s.calls[c] {
        CallStays(states, steps, i, s.calls[c]);
      } else {
        CallMoves(states, steps, i, c);
      }
    }
  }

  lemma NewCallOk(states: seq<State>, i: nat, call: Call)
    requires i < |states| && call.since <= i && call.phase == Begun
    ensures CallOk(states, i, call)
  {
  }

  lemma {:induction false} BehaviourInv(states: seq<State>, steps: seq<Step>, i: nat)
    requires Behaviour(states, steps) && i < |states|
    ensures Inv(states, i)
  {
    hide CallOk, CacheOk, CallsOk;
    if i == 0 {
      NothingHeld(states);
    } else {
      BehaviourInv(states, steps, i - 1);
      CacheKept(states, steps, i - 1);
      CallsKept(states, steps, i - 1);
      assert states[i] == Taken(states[i - 1], steps[i - 1]);
    }
  }

  lemma NothingHeld(states: seq<State>)
    requires |states| > 0 && states[0].cache == map[] && states[0].calls == map[]
    ensures CacheOk(states, 0) && CallsOk(states, 0)
  {
  }

  /** A hit returns rows the source held less than ten seconds before the age check. */
  lemma HitsAreRecent(states: seq<State>, steps: seq<Step>, i: nat, c: nat)
    requires Behaviour(states, steps) && i < |states| && c in states[i].calls
    requires states[i].calls[c].phase.Served? && states[i].calls[c].phase.hit
    ensures Recent(states, i, states[i].calls[c].key, states[i].calls[c].phase.rows, states[i].calls[c].phase.at)
  {
    hide Behaviour;
    BehaviourInv(states, steps, i);
    assert CallOk(states, i, states[i].calls[c]);
  }

  /** A miss returns rows the source held while the call was running. */
  lemma MissesAreLive(states: seq<State>, steps: seq<Step>, i: nat, c: nat)
    requires Behaviour(states, steps) && i < |states| && c in states[i].calls
    requires states[i].calls[c].phase.Served? && !states[i].calls[c].phase.hit
    ensures Live(states, states[i].calls[c].since, i, states[i].calls[c].key, states[i].calls[c].phase.rows)
  {
    hide Behaviour;
    BehaviourInv(states, steps, i);
    assert CallOk(states, i, states[i].calls[c]);
  }

  /** Once the source has been still for ten seconds every hit returns what it holds. */
  lemma SettledSourceIsServed(states: seq<State>, steps: seq<Step>, i: nat, c: nat, rows: Rows)
    requires Behaviour(states, steps) && i < |states| && c in states[i].calls
    requires states[i].calls[c].phase.Served? && states[i].calls[c].phase.hit
    requires forall m :: 0 <= m <= i && states[i].calls[c].phase.at - 10.0 < states[m].clock <= states[i].calls[c].phase.at ==>
               Current(states[m], states[i].calls[c].key) == rows
    ensures states[i].calls[c].phase.rows == rows
  {
    hide Behaviour;
    HitsAreRecent(states, steps, i, c);
  }

  // ---------------------------------------------------------------------------
  // What the cache is for

  /** After some time has passed since the payload was fetched, the age check serves it exactly while it is under ten seconds old. */
  lemma FreshEntryIsServed(s: State, c: nat, key: Key, seconds: real)
    requires c !in s.calls && key in s.cache && seconds >= 0.0
    ensures Enabled(s, Begin(c, key)) && var s1 := Taken(s, Begin(c, key));
            Enabled(s1, Get(c)) && var s2 := Taken(s1, Get(c));
            Enabled(s2, Tick(seconds)) && var s3 := Taken(s2, Tick(seconds));
            Enabled(s3, CheckAge(c)) && c in Taken(s3, CheckAge(c)).calls
            && var age := s.clock + seconds - s.cache[key].started;
               Taken(s3, CheckAge(c)).calls[c].phase == if 0.0 <= age < 10.0 then Served(s.cache[key].rows, true, s.clock + seconds) else Missed
  {
  }

  /** A key that is not there, or that Redis does not give, is a miss. */
  lemma AbsentIsMissed(s: State, c: nat)
    requires Enabled(s, Get(c)) && s.calls[c].key !in s.cache
    ensures c in Taken(s, Get(c)).calls && Taken(s, Get(c)).calls[c].phase == Missed
    ensures c in Taken(s, GetFails(c)).calls && Taken(s, GetFails(c)).calls[c].phase == Missed
  {
  }

  /** Rows are stored exactly when reading them took less than ten seconds; they are returned in any case. */
  lemma StoredIff(s: State, c: nat)
    requires Enabled(s, Measure(c)) && s.calls[c].phase.started <= s.clock
    ensures c in Taken(s, Measure(c)).calls
    ensures var p, p' := s.calls[c].phase, Taken(s, Measure(c)).calls[c].phase;
            if s.clock - p.started < 10.0 then p' == Storing(p.started, p.rows) else p' == Served(p.rows, false, s.clock)
  {
    var elapsed := (s.clock - s.calls[c].phase.started) * 1000.0;
    assert elapsed < 10000.0 <==> s.clock - s.calls[c].phase.started < 10.0;
    assert elapsed.Floor < 10000 <==> elapsed < 10000.0;
  }

  /** A store is found under its own key, with the time its reading started, and disturbs no other key. */
  lemma StoreIsFound(s: State, c: nat, key: Key)
    requires Enabled(s, Store(c))
    ensures var s', call := Taken(s, Store(c)), s.calls[c];
            && (if key == call.key then key in s'.cache && s'.cache[key] == Entry(call.phase.started, call.phase.rows)
                else (key in s'.cache <==> key in s.cache) && (key in s.cache ==> s'.cache[key] == s.cache[key]))
            && c in s'.calls && s'.calls[c].phase == Served(call.phase.rows, false, s.clock)
  {
  }

  /** A miss reads the source, and leaves what it read in the cache, dated from before the reading, if that took under ten seconds. */
  lemma FillIsExact(s: State, c: nat, before: real, after: real)
    requires Enabled(s, Start(c)) && before >= 0.0 && after >= 0.0
    ensures var s1 := Taken(s, Start(c));
            Enabled(s1, Tick(before)) && var s2 := Taken(s1, Tick(before));
            Enabled(s2, Read(c)) && var s3 := Taken(s2, Read(c));
            Enabled(s3, Tick(after)) && var s4 := Taken(s3, Tick(after));
            Enabled(s4, Measure(c)) && var s5 := Taken(s4, Measure(c));
            var key, rows := s.calls[c].key, Current(s, s.calls[c].key);
            if before + after < 10.0
            then Enabled(s5, Store(c)) && var s6 := Taken(s5, Store(c));
                 key in s6.cache && s6.cache[key] == Entry(s.clock, rows) && c in s6.calls && s6.calls[c].phase == Served(rows, false, s.clock + before + after)
            else s5.cache == s.cache && c in s5.calls && s5.calls[c].phase == Served(rows, false, s.clock + before + after)
  {
    hide Remaining;
    var s4 := Taken(Taken(Taken(Taken(s, Start(c)), Tick(before)), Read(c)), Tick(after));
    assert s4.calls[c].phase == Fetched(s.clock, Current(s, s.calls[c].key)) && s4.clock == s.clock + before + after;
    StoredIff(s4, c);
  }
}
