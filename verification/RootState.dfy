/** The delegated-read heartbeat: a per-root cache of (epoch, paused) that concurrent calls read
    under a lock, refresh without one, and write back under it again. */
module RootState {
  import opened Basics
  import opened Pacing

  /** A 32-byte root id; only equality matters. */
  type RootId = nat
  type CallId = nat

  /** epochCacheTTL, in seconds. */
  const TTL: int := 10

  datatype RootRecord = RootRecord(epoch: nat, paused: bool)
  datatype Entry = Entry(record: RootRecord, fetched: int)
  datatype Credential = Credential(root: RootId, rootEpoch: nat)
  datatype Verdict = Accepted | Paused | WrongEpoch | Unavailable

  function Judge(r: RootRecord, v: Credential): Verdict {
    if r.paused then Paused else if r.epoch != v.rootEpoch then WrongEpoch else Accepted
  }

  predicate Fresh(cache: map<RootId, Entry>, root: RootId, now: int) {
    root in cache && now - cache[root].fetched < TTL
  }

  // ---- one call, run without interference -------------------------------------------

  /** Verdict and cache after a call that looks at `now`, is answered `answer` if it asks, and
      stamps at `later`. */
  function CheckOnce(cache: map<RootId, Entry>, v: Credential, now: int, answer: Option<RootRecord>, later: int)
    : (Verdict, map<RootId, Entry>)
  {
    if Fresh(cache, v.root, now) then (Judge(cache[v.root].record, v), cache)
    else match answer
      case None => (Unavailable, cache)
      case Some(r) => (Judge(r, v), cache[v.root := Entry(r, later)])
  }

  /** The record used, cached while it is younger than ten seconds and asked for otherwise, decides: a
      pause comes first, then an epoch other than the credential's; only a record that came is stored. */
  lemma VerdictMeans(cache: map<RootId, Entry>, v: Credential, now: int, answer: Option<RootRecord>, later: int)
    ensures var (verdict, after) := CheckOnce(cache, v, now, answer, later);
            var hit := v.root in cache && now - cache[v.root].fetched < 10;
            && (verdict == Unavailable <==> !hit && answer.None?)
            && (hit || answer.None? ==> after == cache)
            && (!hit && answer.Some? ==> after == cache[v.root := Entry(answer.value, later)])
            && (hit || answer.Some? ==>
                  var r := if hit then cache[v.root].record else answer.value;
                  && (verdict == Paused <==> r.paused)
                  && (verdict == WrongEpoch <==> !r.paused && r.epoch != v.rootEpoch)
                  && (verdict == Accepted <==> !r.paused && r.epoch == v.rootEpoch))
  {}

  class RootCache {
    var epochCache: map<RootId, Entry>

    constructor ()
      ensures epochCache == map[]
    {
      epochCache := map[];
    }

    /** First locked region: read the entry and decide whether it is fresh. */
    method Peek(root: RootId, now: int) returns (entry: Option<Entry>, isFresh: bool)
      ensures isFresh <==> Fresh(epochCache, root, now)
      ensures entry == if root in epochCache then Some(epochCache[root]) else None
    {
      entry := if root in epochCache then Some(epochCache[root]) else None;
      isFresh := entry.Some? && now - entry.value.fetched < TTL;
    }

    /** Second locked region. */
    method Store(root: RootId, entry: Entry)
      modifies this
      ensures epochCache == old(epochCache)[root := entry]
    {
      epochCache := epochCache[root := entry];
    }

    method CheckRootState(v: Credential, now: int, answer: Option<RootRecord>, later: int)
      returns (verdict: Verdict)
      modifies this
      ensures (verdict, epochCache) == CheckOnce(old(epochCache), v, now, answer, later)
    {
      var cached, isFresh := Peek(v.root, now);
      var entry: Entry;
      if isFresh {
        entry := cached.value;
      } else {
        if answer.None? {
          return Unavailable;
        }
        entry := Entry(answer.value, later);
        Store(v.root, entry);
      }
      if entry.record.paused {
        return Paused;
      }
      if entry.record.epoch != v.rootEpoch {
        return WrongEpoch;
      }
      return Accepted;
    }
  }

  // ---- many calls, interleaved ------------------------------------------------------

  /** The clock and what the chain would answer at one moment. */
  datatype Instant = Instant(clock: int, chain: map<RootId, RootRecord>)

  /** A call between two of its steps. `checked` and `asOf` are history: the instant of the cache
      check, and the instant at which the chain gave the record the call holds. */
  datatype Call =
    | Asking(v: Credential, checked: nat)
    | Answered(v: Credential, checked: nat, record: RootRecord, asOf: nat)
    | Stamped(v: Credential, checked: nat, entry: Entry, asOf: nat)
    | Deciding(v: Credential, checked: nat, entry: Entry, asOf: nat)
    | Done(v: Credential, checked: nat, verdict: Verdict, asOf: nat)
    | Failed(v: Credential)

  /** past holds every instant so far, the present one last. The other two fields are history: the
      instant each cached record was given, and the longest any answer has waited for its stamp. */
  datatype State = State(past: seq<Instant>, cache: map<RootId, Entry>, calls: map<CallId, Call>,
                         filled: map<RootId, nat>, slowest: nat)

  datatype Action =
    | Tick(seconds: nat)
    | Change(root: RootId, record: Option<RootRecord>)
    | Begin(id: CallId, v: Credential)
    | Ask(id: CallId, reached: bool)
    | Stamp(id: CallId)
    | Store(id: CallId)
    | Decide(id: CallId)

  function Start(i: Instant): State { State([i], map[], map[], map[], 0) }

  function Now(s: State): Instant
    requires s.past != []
  {
    s.past[|s.past| - 1]
  }

  predicate Enabled(s: State, a: Action) {
    s.past != [] &&
    match a
    case Tick(_) => true
    case Change(_, _) => true
    case Begin(id, _) => id !in s.calls
    case Ask(id, _) => id in s.calls && s.calls[id].Asking?
    case Stamp(id) => id in s.calls && s.calls[id].Answered?
    case Store(id) => id in s.calls && s.calls[id].Stamped?
    case Decide(id) => id in s.calls && s.calls[id].Deciding?
  }

  /** How long the answer of instant k has waited by now. */
  function Wait(s: State, k: nat): nat
    requires s.past != []
  {
    if k < |s.past| && s.past[k].clock <= Now(s).clock then Now(s).clock - s.past[k].clock else 0
  }

  function Next(s: State, a: Action): State
    requires Enabled(s, a)
  {
    var now := Now(s);
    var last := |s.past| - 1;
    match a
    case Tick(seconds) => s.(past := s.past + [now.(clock := now.clock + seconds)])
    case Change(root, Some(r)) => s.(past := s.past + [now.(chain := now.chain[root := r])])
    case Change(root, None) => s.(past := s.past + [now.(chain := now.chain - {root})])
    case Begin(id, v) =>
      s.(calls := s.calls[id :=
        if Fresh(s.cache, v.root, now.clock)
        then Deciding(v, last, s.cache[v.root], if v.root in s.filled then s.filled[v.root] else 0)
        else Asking(v, last)])
    case Ask(id, reached) =>
      var c := s.calls[id];
      s.(calls := s.calls[id :=
        if reached && c.v.root in now.chain
        then Answered(c.v, c.checked, now.chain[c.v.root], last)
        else Failed(c.v)])
    case Stamp(id) =>
      var c := s.calls[id];
      var wait := Wait(s, c.asOf);
      s.(slowest := if wait <= s.slowest then s.slowest else wait,
         calls := s.calls[id := Stamped(c.v, c.checked, Entry(c.record, now.clock), c.asOf)])
    case Store(id) =>
      var c := s.calls[id];
      s.(cache := s.cache[c.v.root := c.entry], filled := s.filled[c.v.root := c.asOf],
         calls := s.calls[id := Deciding(c.v, c.checked, c.entry, c.asOf)])
    case Decide(id) =>
      var c := s.calls[id];
      s.(calls := s.calls[id := Done(c.v, c.checked, Judge(c.entry.record, c.v), c.asOf)])
  }

  predicate Legal(s: State, acts: seq<Action>)
    decreases |acts|
  {
    acts == [] || (Enabled(s, acts[0]) && Legal(Next(s, acts[0]), acts[1..]))
  }

  function Exec(s: State, acts: seq<Action>): State
    requires Legal(s, acts)
    decreases |acts|
  {
    if acts == [] then s else Exec(Next(s, acts[0]), acts[1..])
  }

  /** If the step stamps an answer, that answer has waited no longer than lat. */
  predicate InTime(s: State, a: Action, lat: nat) {
    Enabled(s, a) && a.Stamp? ==> Wait(s, s.calls[a.id].asOf) <= lat
  }

  /** Every answer of the run is stamped within lat seconds. */
  predicate OnTime(s: State, acts: seq<Action>, lat: nat)
    requires Legal(s, acts)
    decreases |acts|
  {
    acts == [] || (InTime(s, acts[0], lat) && OnTime(Next(s, acts[0]), acts[1..], lat))
  }

  lemma {:induction false} SlowestIsOnTime(s: State, acts: seq<Action>, lat: nat)
    requires Legal(s, acts) && OnTime(s, acts, lat) && s.slowest <= lat
    ensures Exec(s, acts).slowest <= lat
    decreases |acts|
  {
    if acts != [] {
      SlowestIsOnTime(Next(s, acts[0]), acts[1..], lat);
    }
  }

  // ---- the invariant of every run ---------------------------------------------------

  ghost predicate Ordered(past: seq<Instant>) {
    forall i, j :: 0 <= i <= j < |past| ==> past[i].clock <= past[j].clock
  }

  /** The chain gave this record for this root at instant k. */
  predicate GivenAt(past: seq<Instant>, root: RootId, r: RootRecord, k: nat) {
    k < |past| && root in past[k].chain && past[k].chain[root] == r
  }

  /** A stamped record: stamped at most `late` after it was given, and not in the future. */
  predicate GoodEntry(past: seq<Instant>, root: RootId, e: Entry, k: nat, late: nat) {
    && GivenAt(past, root, e.record, k)
    && past[k].clock <= e.fetched <= past[k].clock + late
    && e.fetched <= past[|past| - 1].clock
  }

  /** Instants a call that checked the cache at `checked` may answer from. */
  predicate InWindow(past: seq<Instant>, checked: nat, k: nat, late: nat)
    requires checked < |past| && k < |past|
  {
    k >= checked || past[checked].clock - past[k].clock < TTL + late
  }

  predicate GoodCall(past: seq<Instant>, c: Call, late: nat) {
    match c
    case Asking(_, checked) => checked < |past|
    case Answered(v, checked, r, k) => checked <= k && GivenAt(past, v.root, r, k)
    case Stamped(v, checked, e, k) => checked <= k && GoodEntry(past, v.root, e, k, late)
    case Deciding(v, checked, e, k) =>
      checked < |past| && GoodEntry(past, v.root, e, k, late) && InWindow(past, checked, k, late)
    case Done(v, checked, verdict, k) =>
      && checked < |past| && k < |past| && v.root in past[k].chain
      && verdict == Judge(past[k].chain[v.root], v) && InWindow(past, checked, k, late)
    case Failed(_) => true
  }

  ghost predicate Inv(s: State) {
    && s.past != [] && Ordered(s.past)
    && s.cache.Keys == s.filled.Keys
    && (forall r :: r in s.cache ==> GoodEntry(s.past, r, s.cache[r], s.filled[r], s.slowest))
    && (forall id :: id in s.calls ==> GoodCall(s.past, s.calls[id], s.slowest))
  }

  /** Time passing and chain changes spoil nothing already established. */
  lemma PastGrows(s: State, i: Instant)
    requires Inv(s) && Now(s).clock <= i.clock
    ensures Inv(s.(past := s.past + [i]))
  {
    var past := s.past + [i];
    forall id | id in s.calls ensures GoodCall(past, s.calls[id], s.slowest) {
      assert GoodCall(s.past, s.calls[id], s.slowest);
    }
  }

  /** Neither does one call moving on, provided its new state is good, nor a longer wait. */
  lemma CallMoves(s: State, id: CallId, c: Call, late: nat)
    requires Inv(s) && s.slowest <= late && GoodCall(s.past, c, late)
    ensures Inv(s.(slowest := late, calls := s.calls[id := c]))
  {
    hide Ordered;
    forall x | x in s.calls ensures GoodCall(s.past, s.calls[x], late) {
      assert GoodCall(s.past, s.calls[x], s.slowest);
    }
    forall r | r in s.cache ensures GoodEntry(s.past, r, s.cache[r], s.filled[r], late) {
      assert GoodEntry(s.past, r, s.cache[r], s.filled[r], s.slowest);
    }
  }

  /** A call's own step changes that call alone, and leaves it good. */
  lemma CallSteps(s: State, a: Action) returns (id: CallId, c: Call, late: nat)
    requires Inv(s) && Enabled(s, a) && !a.Tick? && !a.Change? && !a.Store?
    ensures Next(s, a) == s.(slowest := late, calls := s.calls[id := c])
    ensures s.slowest <= late && GoodCall(s.past, c, late)
  {
    id := a.id;
    c, late := Next(s, a).calls[id], Next(s, a).slowest;
    if a.Begin? {
      if Fresh(s.cache, a.v.root, Now(s).clock) {
        assert GoodEntry(s.past, a.v.root, s.cache[a.v.root], s.filled[a.v.root], s.slowest);
      }
    } else {
      assert GoodCall(s.past, s.calls[id], s.slowest);
      if a.Stamp? {
        assert s.past[s.calls[id].asOf].clock <= Now(s).clock;
      }
    }
  }

  lemma StoreSteps(s: State, id: CallId)
    requires Inv(s) && Enabled(s, Store(id))
    ensures Inv(Next(s, Store(id)))
  {
    assert GoodCall(s.past, s.calls[id], s.slowest);
  }

  lemma StepKeepsInv(s: State, a: Action)
    requires Inv(s) && Enabled(s, a)
    ensures Inv(Next(s, a))
  {
    hide Inv, GoodCall;
    var now := Now(s);
    match a
    case Tick(seconds) => PastGrows(s, now.(clock := now.clock + seconds));
    case Change(root, Some(r)) => PastGrows(s, now.(chain := now.chain[root := r]));
    case Change(root, None) => PastGrows(s, now.(chain := now.chain - {root}));
    case Store(id) => StoreSteps(s, id);
    case _ =>
      var id, c, late := CallSteps(s, a);
      CallMoves(s, id, c, late);
  }

  lemma {:induction false} RunKeepsInv(s: State, acts: seq<Action>)
    requires Inv(s) && Legal(s, acts)
    ensures Inv(Exec(s, acts))
    decreases |acts|
  {
    hide Inv, Next, Enabled;
    if acts != [] {
      StepKeepsInv(s, acts[0]);
      RunKeepsInv(Next(s, acts[0]), acts[1..]);
    }
  }

  // ---- runs put together ---------------------------------------------------------------

  predicate StepsTo(s: State, a: Action, t: State) {
    Enabled(s, a) && Next(s, a) == t
  }

  /** A run given state by state. */
  lemma {:induction false} Chain(states: seq<State>, acts: seq<Action>)
    requires |states| == |acts| + 1
    requires forall j :: 0 <= j < |acts| ==> StepsTo(states[j], acts[j], states[j + 1])
    ensures Legal(states[0], acts) && Exec(states[0], acts) == states[|acts|]
    decreases |acts|
  {
    if acts != [] {
      assert StepsTo(states[0], acts[0], states[1]);
      Chain(states[1..], acts[1..]);
    }
  }

  /** Two runs joined. */
  lemma {:induction false} Join(s: State, a: seq<Action>, b: seq<Action>)
    requires Legal(s, a) && Legal(Exec(s, a), b)
    ensures Legal(s, a + b) && Exec(s, a + b) == Exec(Exec(s, a), b)
    decreases |a|
  {
    hide Next, Enabled;
    if a == [] {
      assert a + b == b;
    } else {
      Join(Next(s, a[0]), a[1..], b);
      assert (a + b)[1..] == a[1..] + b;
    }
  }

  lemma {:induction false} JoinOnTime(s: State, a: seq<Action>, b: seq<Action>, lat: nat)
    requires Legal(s, a) && Legal(Exec(s, a), b) && OnTime(s, a, lat) && OnTime(Exec(s, a), b, lat)
    ensures Legal(s, a + b) && OnTime(s, a + b, lat)
    decreases |a|
  {
    hide Next, Enabled, InTime;
    if a == [] {
      assert a + b == b;
    } else {
      Join(s, a, b);
      JoinOnTime(Next(s, a[0]), a[1..], b, lat);
      assert (a + b)[1..] == a[1..] + b;
    }
  }

  // ---- bounded staleness ------------------------------------------------------------

  /** In every interleaving of a run whose answers are stamped within lat, each decision is what the
      chain gives for the root at some instant after the cache check, or less than TTL + lat before. */
  lemma BoundedStaleness(i: Instant, acts: seq<Action>, lat: nat, id: CallId)
    requires Legal(Start(i), acts) && OnTime(Start(i), acts, lat)
    requires id in Exec(Start(i), acts).calls && Exec(Start(i), acts).calls[id].Done?
    ensures var s := Exec(Start(i), acts); var c := s.calls[id];
            && c.checked < |s.past| && c.asOf < |s.past| && c.v.root in s.past[c.asOf].chain
            && c.verdict == Judge(s.past[c.asOf].chain[c.v.root], c.v)
            && InWindow(s.past, c.checked, c.asOf, lat)
            && (var r := s.past[c.asOf].chain[c.v.root];
                && (c.verdict == Paused <==> r.paused)
                && (c.verdict == WrongEpoch <==> !r.paused && r.epoch != c.v.rootEpoch)
                && (c.verdict == Accepted <==> !r.paused && r.epoch == c.v.rootEpoch))
  {
    RunKeepsInv(Start(i), acts);
    SlowestIsOnTime(Start(i), acts, lat);
    var s := Exec(Start(i), acts);
    assert GoodCall(s.past, s.calls[id], s.slowest);
  }

  /** So once a root has kept one record for that long, every decision agrees with the chain. */
  lemma StableRootDecides(i: Instant, acts: seq<Action>, lat: nat, id: CallId, r: RootRecord)
    requires Legal(Start(i), acts) && OnTime(Start(i), acts, lat)
    requires id in Exec(Start(i), acts).calls && Exec(Start(i), acts).calls[id].Done?
    requires var s := Exec(Start(i), acts); var c := s.calls[id];
             forall k :: 0 <= k < |s.past| && c.checked < |s.past| && InWindow(s.past, c.checked, k, lat) ==>
               GivenAt(s.past, c.v.root, r, k)
    ensures Exec(Start(i), acts).calls[id].verdict == Judge(r, Exec(Start(i), acts).calls[id].v)
  {
    BoundedStaleness(i, acts, lat, id);
    var s := Exec(Start(i), acts);
    assert GivenAt(s.past, s.calls[id].v.root, r, s.calls[id].asOf);
  }

  /** And once a root has been gone from the chain for that long, no call on it is decided at all. */
  lemma RemovedRootRefuses(i: Instant, acts: seq<Action>, lat: nat, id: CallId, since: nat)
    requires Legal(Start(i), acts) && OnTime(Start(i), acts, lat)
    requires id in Exec(Start(i), acts).calls && since < |Exec(Start(i), acts).past|
    requires var s := Exec(Start(i), acts);
             forall k :: since <= k < |s.past| ==> s.calls[id].v.root !in s.past[k].chain
    ensures var s := Exec(Start(i), acts); var c := s.calls[id];
            c.Done? ==> c.checked < |s.past| && s.past[c.checked].clock - s.past[since].clock < TTL + lat
  {
    var s := Exec(Start(i), acts);
    if s.calls[id].Done? {
      BoundedStaleness(i, acts, lat, id);
      RunKeepsInv(Start(i), acts);
      assert s.calls[id].asOf < since;
      assert s.past[s.calls[id].asOf].clock <= s.past[since].clock;
      assert s.calls[id].checked < since ==> s.past[s.calls[id].checked].clock <= s.past[since].clock;
    }
  }

  // ---- the bound is tight ------------------------------------------------------------

  lemma {:induction false} ChainOnTime(states: seq<State>, acts: seq<Action>, lat: nat)
    requires |states| == |acts| + 1
    requires forall j :: 0 <= j < |acts| ==> StepsTo(states[j], acts[j], states[j + 1])
    requires forall j :: 0 <= j < |acts| ==> InTime(states[j], acts[j], lat)
    ensures Legal(states[0], acts) && OnTime(states[0], acts, lat)
    decreases |acts|
  {
    hide InTime;
    Chain(states, acts);
    if acts != [] {
      assert StepsTo(states[0], acts[0], states[1]);
      ChainOnTime(states[1..], acts[1..], lat);
    }
  }

  /** A live root is read, then paused, and lat seconds pass. */
  function LateRead(v: Credential, lat: nat): seq<Action> {
    [Begin(0, v), Ask(0, true), Change(v.root, Some(RootRecord(v.rootEpoch, true))), Tick(lat)]
  }

  function LiveAtZero(v: Credential): Instant { Instant(0, map[v.root := RootRecord(v.rootEpoch, false)]) }

  lemma LateAnswer(v: Credential, lat: nat)
    ensures var i, paused := LiveAtZero(v), map[v.root := RootRecord(v.rootEpoch, true)];
            && Legal(Start(i), LateRead(v, lat)) && OnTime(Start(i), LateRead(v, lat), lat)
            && Exec(Start(i), LateRead(v, lat))
                 == State([i, Instant(0, paused), Instant(lat, paused)], map[],
                          map[0 := Answered(v, 0, RootRecord(v.rootEpoch, false), 0)], map[], 0)
  {
    hide Legal, Exec, OnTime;
    var i, acts := LiveAtZero(v), LateRead(v, lat);
    var live, paused := RootRecord(v.rootEpoch, false), RootRecord(v.rootEpoch, true);
    var s0 := Start(i);
    var s1 := s0.(calls := map[0 := Asking(v, 0)]);
    var s2 := s0.(calls := map[0 := Answered(v, 0, live, 0)]);
    var s3 := s2.(past := [i, Instant(0, map[v.root := paused])]);
    var s4 := s2.(past := [i, Instant(0, map[v.root := paused]), Instant(lat, map[v.root := paused])]);
    assert StepsTo(s0, acts[0], s1) && StepsTo(s1, acts[1], s2);
    assert map[v.root := live][v.root := paused] == map[v.root := paused];
    assert StepsTo(s2, acts[2], s3) && StepsTo(s3, acts[3], s4);
    Chain([s0, s1, s2, s3, s4], acts);
    ChainOnTime([s0, s1, s2, s3, s4], acts, lat);
  }

  function Use(id: CallId): seq<Action> { [Stamp(id), Store(id), Decide(id)] }

  /** Stamp, store and decide, undisturbed. */
  lemma AfterAnswer(s: State, id: CallId, lat: nat)
    requires Enabled(s, Stamp(id)) && InTime(s, Stamp(id), lat)
    ensures Legal(s, Use(id)) && OnTime(s, Use(id), lat)
    ensures var c, e := s.calls[id], Exec(s, Use(id));
            && e.past == s.past && e.calls.Keys == s.calls.Keys
            && e.cache == s.cache[c.v.root := Entry(c.record, Now(s).clock)]
            && e.calls[id] == Done(c.v, c.checked, Judge(c.record, c.v), c.asOf)
  {
    hide Legal, Exec, OnTime;
    var s1 := Next(s, Stamp(id));
    var s2 := Next(s1, Store(id));
    Chain([s, s1, s2, Next(s2, Decide(id))], Use(id));
    ChainOnTime([s, s1, s2, Next(s2, Decide(id))], Use(id), lat);
  }

  /** A second call finds the entry one second short of expiry. */
  lemma LateHit(s: State, v: Credential)
    requires s.past != [] && v.root in s.cache && 1 !in s.calls
    requires s.cache[v.root] == Entry(RootRecord(v.rootEpoch, false), Now(s).clock)
    ensures var acts := [Tick(9), Begin(1, v), Decide(1)];
      && Legal(s, acts) && OnTime(s, acts, 0)
      && (var e := Exec(s, acts);
          && e.past == s.past + [Now(s).(clock := Now(s).clock + TTL - 1)] && 1 in e.calls
          && e.calls[1].Done? && e.calls[1].verdict == Accepted && e.calls[1].checked == |s.past| && e.calls[1].v == v)
  {
    var acts := [Tick(9), Begin(1, v), Decide(1)];
    var s1 := Next(s, acts[0]);
    var s2 := Next(s1, acts[1]);
    Chain([s, s1, s2, Next(s2, acts[2])], acts);
    ChainOnTime([s, s1, s2, Next(s2, acts[2])], acts, 0);
  }

  lemma {:induction false} OnTimeWeakens(s: State, acts: seq<Action>, lat: nat, more: nat)
    requires Legal(s, acts) && OnTime(s, acts, lat) && lat <= more
    ensures OnTime(s, acts, more)
    decreases |acts|
  {
    hide Next, Wait;
    if acts != [] {
      OnTimeWeakens(Next(s, acts[0]), acts[1..], lat, more);
    }
  }

  /** The bound cannot be lowered to the TTL alone, nor by a second: for every latency there is a
      run that accepts a credential whose root has been paused for TTL + lat - 1 seconds. */
  lemma StalenessBoundIsTight(lat: nat) returns (i: Instant, acts: seq<Action>)
    ensures Legal(Start(i), acts) && OnTime(Start(i), acts, lat)
    ensures var s := Exec(Start(i), acts);
            && 1 in s.calls && s.calls[1].Done? && s.calls[1].verdict == Accepted
            && s.calls[1].checked < |s.past|
            && (forall k :: 1 <= k < |s.past| ==> GivenAt(s.past, s.calls[1].v.root, RootRecord(1, true), k))
            && |s.past| > 1 && s.past[0].clock == s.past[1].clock
            && s.past[s.calls[1].checked].clock - s.past[1].clock == TTL + lat - 1
  {
    hide Legal, Exec, OnTime;
    var v := Credential(7, 1);
    i := LiveAtZero(v);
    var s, first, last := Start(i), LateRead(v, lat), [Tick(9), Begin(1, v), Decide(1)];
    LateAnswer(v, lat);
    var e := Exec(s, first);
    AfterAnswer(e, 0, lat);
    Join(s, first, Use(0));
    JoinOnTime(s, first, Use(0), lat);
    var f := Exec(e, Use(0));
    LateHit(f, v);
    OnTimeWeakens(f, last, 0, lat);
    Join(s, first + Use(0), last);
    JoinOnTime(s, first + Use(0), last, lat);
    acts := first + Use(0) + last;
  }

  /** The decision is what the chain gives at some instant after the cache check, or less than the TTL
      before it. */
  ghost predicate WithinTtl(s: State, c: Call)
    requires c.Done?
  {
    exists k :: FromInstant(s, c, k) && InWindow(s.past, c.checked, k, 0)
  }

  ghost predicate FromInstant(s: State, c: Call, k: nat)
    requires c.Done?
  {
    && c.checked < |s.past| && k < |s.past| && c.v.root in s.past[k].chain
    && c.verdict == Judge(s.past[k].chain[c.v.root], c.v)
  }

  ghost predicate DecidesWithinTtl(i: Instant, acts: seq<Action>, id: CallId, lat: nat) {
    Legal(Start(i), acts) && OnTime(Start(i), acts, lat)
    && id in Exec(Start(i), acts).calls && Exec(Start(i), acts).calls[id].Done?
    ==> WithinTtl(Exec(Start(i), acts), Exec(Start(i), acts).calls[id])
  }

  /** The TTL by itself is the bound exactly when answers are stamped in the second they are given. */
  lemma TtlBoundsExactlyAtOnce(lat: nat)
    ensures lat == 0 <==> forall i, acts, id :: DecidesWithinTtl(i, acts, id, lat)
  {
    hide Legal, Exec, OnTime;
    if lat == 0 {
      forall i, acts, id ensures DecidesWithinTtl(i, acts, id, lat) {
        if Legal(Start(i), acts) && OnTime(Start(i), acts, lat)
           && id in Exec(Start(i), acts).calls && Exec(Start(i), acts).calls[id].Done? {
          BoundedStaleness(i, acts, lat, id);
          var s := Exec(Start(i), acts);
          assert FromInstant(s, s.calls[id], s.calls[id].asOf);
        }
      }
    } else {
      var i, acts := StalenessBoundIsTight(lat);
      var s := Exec(Start(i), acts);
      assert s.calls[1].checked != 0;
      forall k: nat | FromInstant(s, s.calls[1], k) ensures !InWindow(s.past, s.calls[1].checked, k, 0) {
        assert k >= 1 ==> GivenAt(s.past, s.calls[1].v.root, RootRecord(1, true), k);
      }
      assert !DecidesWithinTtl(i, acts, 1, lat);
    }
  }

  // ---- how often the chain is asked -------------------------------------------------

  /** Between its stale check and its store. */
  predicate Pending(c: Call) { c.Asking? || c.Answered? || c.Stamped? }

  predicate PendingOn(s: State, root: RootId, id: CallId) {
    id in s.calls && s.calls[id].v.root == root && Pending(s.calls[id])
  }

  /** The step is no check of the root while another call on it is pending. */
  ghost predicate AddsNoOverlap(s: State, a: Action, root: RootId) {
    a.Begin? && a.v.root == root ==> forall id :: !PendingOn(s, root, id)
  }

  /** No call checks the root while another call on that root is pending. */
  ghost predicate OverlapFree(s: State, acts: seq<Action>, root: RootId)
    requires Legal(s, acts)
    decreases |acts|
  {
    acts == [] || (AddsNoOverlap(s, acts[0], root) && OverlapFree(Next(s, acts[0]), acts[1..], root))
  }

  /** The query a step makes for the root, if it makes one. An unknown root is no answer. */
  function QueryOf(s: State, a: Action, root: RootId): seq<Query>
    requires Enabled(s, a)
  {
    if a.Ask? && s.calls[a.id].v.root == root then [Query(Now(s).clock, a.reached && root in Now(s).chain)] else []
  }

  /** All queries for the root, in order. */
  function Queries(s: State, acts: seq<Action>, root: RootId): seq<Query>
    requires Legal(s, acts)
    decreases |acts|
  {
    if acts == [] then [] else QueryOf(s, acts[0], root) + Queries(Next(s, acts[0]), acts[1..], root)
  }

  ghost predicate CleanStep(s: State, a: Action, root: RootId)
    requires Enabled(s, a)
  {
    AddsNoOverlap(s, a, root) && AllAnswered(QueryOf(s, a, root))
  }

  /** Free of overlap and of failed queries. */
  ghost predicate Clean(s: State, acts: seq<Action>, root: RootId)
    requires Legal(s, acts)
    decreases |acts|
  {
    acts == [] || (CleanStep(s, acts[0], root) && Clean(Next(s, acts[0]), acts[1..], root))
  }

  /** The stamps successful queries for the root get. */
  function StampOf(s: State, a: Action, root: RootId): seq<int>
    requires Enabled(s, a)
  {
    if a.Stamp? && s.calls[a.id].v.root == root then [Now(s).clock] else []
  }

  function Stamps(s: State, acts: seq<Action>, root: RootId): seq<int>
    requires Legal(s, acts)
    decreases |acts|
  {
    if acts == [] then [] else StampOf(s, acts[0], root) + Stamps(Next(s, acts[0]), acts[1..], root)
  }

  /** The cache holds the latest stamp. */
  predicate StampHeld(s: State, root: RootId, st: seq<int>) {
    st != [] ==> root in s.cache && s.cache[root].fetched == Last(st)
  }

  /** The cache holds the latest query's answer, if it had one, or a later one. */
  predicate AnswerHeld(s: State, root: RootId, qs: seq<Query>) {
    Resting(qs) ==> root in s.cache && Last(qs).at <= s.cache[root].fetched
  }

  /** A pending call against the queries and stamps so far: the cache stays as stale as it found it;
      once it has a stamp that is the latest, and no earlier than the query it answers. */
  predicate RateCall(s: State, root: RootId, qs: seq<Query>, st: seq<int>, c: Call)
    requires s.past != []
  {
    && !Fresh(s.cache, root, Now(s).clock)
    && (c.Asking? ==> AnswerHeld(s, root, qs))
    && (if c.Stamped? then && st != [] && Last(st) == c.entry.fetched
                           && (Resting(qs) ==> Last(qs).at <= c.entry.fetched)
        else StampHeld(s, root, st))
  }

  /** What a run without overlap keeps, given its queries and stamps so far. */
  ghost predicate RateInv(s: State, root: RootId, qs: seq<Query>, st: seq<int>) {
    && s.past != [] && Paced(qs, TTL) && Spaced(st, TTL)
    && (qs != [] ==> Last(qs).at <= Now(s).clock) && (st != [] ==> Last(st) <= Now(s).clock)
    && (forall a, b :: PendingOn(s, root, a) && PendingOn(s, root, b) ==> a == b)
    && (forall id :: PendingOn(s, root, id) ==> RateCall(s, root, qs, st, s.calls[id]))
    && ((forall id :: !PendingOn(s, root, id)) ==> StampHeld(s, root, st) && AnswerHeld(s, root, qs))
  }

  lemma NothingAsked(i: Instant, root: RootId)
    ensures RateInv(Start(i), root, [], [])
  {}

  lemma BeginKeepsRate(s: State, id: CallId, v: Credential, qs: seq<Query>, st: seq<int>)
    requires RateInv(s, v.root, qs, st) && Enabled(s, Begin(id, v)) && AddsNoOverlap(s, Begin(id, v), v.root)
    ensures RateInv(Next(s, Begin(id, v)), v.root, qs, st)
  {
    hide Paced, Spaced;
    assert forall x :: PendingOn(s, v.root, x) || !PendingOn(Next(s, Begin(id, v)), v.root, x) || x == id;
  }

  lemma AskKeepsRate(s: State, a: Action, root: RootId, qs: seq<Query>, st: seq<int>)
    requires RateInv(s, root, qs, st) && Enabled(s, a) && a.Ask? && s.calls[a.id].v.root == root
    ensures RateInv(Next(s, a), root, qs + QueryOf(s, a, root), st)
  {
    var q := Query(Now(s).clock, a.reached && root in Now(s).chain);
    assert PendingOn(s, root, a.id) && RateCall(s, root, qs, st, s.calls[a.id]);
    PacedGrows(qs, q, TTL);
    hide Paced, Spaced;
    assert QueryOf(s, a, root) == [q] && Last(qs + [q]) == q;
    assert forall x :: PendingOn(s, root, x) || !PendingOn(Next(s, a), root, x);
    assert q.answered ==> PendingOn(Next(s, a), root, a.id);
  }

  lemma StampKeepsRate(s: State, id: CallId, root: RootId, qs: seq<Query>, st: seq<int>)
    requires RateInv(s, root, qs, st) && Enabled(s, Stamp(id)) && s.calls[id].v.root == root
    ensures RateInv(Next(s, Stamp(id)), root, qs, st + [Now(s).clock])
  {
    assert PendingOn(s, root, id) && RateCall(s, root, qs, st, s.calls[id]);
    SpacedGrows(st, Now(s).clock, TTL);
    hide Paced, Spaced;
    assert Last(st + [Now(s).clock]) == Now(s).clock;
    assert PendingOn(Next(s, Stamp(id)), root, id);
    assert forall x :: PendingOn(s, root, x) || !PendingOn(Next(s, Stamp(id)), root, x);
  }

  lemma StoreKeepsRate(s: State, id: CallId, root: RootId, qs: seq<Query>, st: seq<int>)
    requires RateInv(s, root, qs, st) && Enabled(s, Store(id)) && s.calls[id].v.root == root
    ensures RateInv(Next(s, Store(id)), root, qs, st)
  {
    hide Paced, Spaced;
    assert PendingOn(s, root, id) && RateCall(s, root, qs, st, s.calls[id]);
    assert forall x :: PendingOn(s, root, x) || !PendingOn(Next(s, Store(id)), root, x);
  }

  /** Time passing and the chain changing. */
  lemma PastKeepsRate(s: State, i: Instant, root: RootId, qs: seq<Query>, st: seq<int>)
    requires RateInv(s, root, qs, st) && Now(s).clock <= i.clock
    ensures RateInv(s.(past := s.past + [i]), root, qs, st)
  {
    hide Paced, Spaced;
    var t := s.(past := s.past + [i]);
    assert forall x :: PendingOn(s, root, x) <==> PendingOn(t, root, x);
  }

  /** A step that leaves the pending calls on the root, and what is cached for it, as they were. */
  lemma AsideKeepsRate(s: State, a: Action, root: RootId, qs: seq<Query>, st: seq<int>)
    requires RateInv(s, root, qs, st) && Enabled(s, a) && !a.Tick? && !a.Change?
    requires a.Begin? ==> a.v.root != root
    requires a.Ask? || a.Stamp? || a.Store? ==> s.calls[a.id].v.root != root
    ensures RateInv(Next(s, a), root, qs, st)
  {
    hide Paced, Spaced;
    var t := Next(s, a);
    assert t.past == s.past;
    assert (root in t.cache <==> root in s.cache) && (root in s.cache ==> t.cache[root] == s.cache[root]);
    assert !PendingOn(s, root, a.id) && !PendingOn(t, root, a.id);
    forall x ensures PendingOn(t, root, x) <==> PendingOn(s, root, x) {
      assert x != a.id ==> (x in t.calls <==> x in s.calls) && (x in s.calls ==> t.calls[x] == s.calls[x]);
    }
  }

  lemma StepKeepsRate(s: State, a: Action, root: RootId, qs: seq<Query>, st: seq<int>)
    requires RateInv(s, root, qs, st) && Enabled(s, a) && AddsNoOverlap(s, a, root)
    ensures RateInv(Next(s, a), root, qs + QueryOf(s, a, root), st + StampOf(s, a, root))
  {
    hide RateInv;
    if QueryOf(s, a, root) == [] {
      assert qs + QueryOf(s, a, root) == qs;
    }
    if StampOf(s, a, root) == [] {
      assert st + StampOf(s, a, root) == st;
    }
    var t := Next(s, a);
    hide Next;
    if a.Tick? || a.Change? {
      assert t == s.(past := s.past + [Now(t)]) && Now(s).clock <= Now(t).clock by {
        OutsideStep(s, a);
      }
      PastKeepsRate(s, Now(t), root, qs, st);
    } else if a.Begin? && a.v.root == root {
      BeginKeepsRate(s, a.id, a.v, qs, st);
    } else if a.Ask? && s.calls[a.id].v.root == root {
      AskKeepsRate(s, a, root, qs, st);
    } else if a.Stamp? && s.calls[a.id].v.root == root {
      StampKeepsRate(s, a.id, root, qs, st);
    } else if a.Store? && s.calls[a.id].v.root == root {
      StoreKeepsRate(s, a.id, root, qs, st);
    } else {
      AsideKeepsRate(s, a, root, qs, st);
    }
  }

  lemma OutsideStep(s: State, a: Action)
    requires Enabled(s, a) && (a.Tick? || a.Change?)
    ensures var t := Next(s, a);
            t.past != [] && t == s.(past := s.past + [Now(t)]) && Now(s).clock <= Now(t).clock
  {}

  lemma {:induction false} RunKeepsRate(s: State, acts: seq<Action>, root: RootId, qs: seq<Query>, st: seq<int>)
    requires RateInv(s, root, qs, st) && Legal(s, acts) && OverlapFree(s, acts, root)
    ensures RateInv(Exec(s, acts), root, qs + Queries(s, acts, root), st + Stamps(s, acts, root))
    decreases |acts|
  {
    hide RateInv, AddsNoOverlap, StampOf, QueryOf, Next, Enabled;
    if acts == [] {
      assert qs + [] == qs && st + [] == st;
    } else {
      var a, t := acts[0], Next(s, acts[0]);
      StepKeepsRate(s, a, root, qs, st);
      RunKeepsRate(t, acts[1..], root, qs + QueryOf(s, a, root), st + StampOf(s, a, root));
      assert qs + (QueryOf(s, a, root) + Queries(t, acts[1..], root))
          == qs + QueryOf(s, a, root) + Queries(t, acts[1..], root);
      assert st + (StampOf(s, a, root) + Stamps(t, acts[1..], root))
          == st + StampOf(s, a, root) + Stamps(t, acts[1..], root);
    }
  }

  lemma RunRate(i: Instant, acts: seq<Action>, root: RootId)
    requires Legal(Start(i), acts) && OverlapFree(Start(i), acts, root)
    ensures RateInv(Exec(Start(i), acts), root, Queries(Start(i), acts, root), Stamps(Start(i), acts, root))
  {
    hide Legal, OverlapFree, RateInv;
    NothingAsked(i, root);
    RunKeepsRate(Start(i), acts, root, [], []);
    assert [] + Queries(Start(i), acts, root) == Queries(Start(i), acts, root);
    assert [] + Stamps(Start(i), acts, root) == Stamps(Start(i), acts, root);
  }

  /** In every run in which no two calls overlap on the root, whatever calls on other roots do, a
      query that was answered is followed by none for a TTL. */
  lemma QueriesPaced(i: Instant, acts: seq<Action>, root: RootId)
    requires Legal(Start(i), acts) && OverlapFree(Start(i), acts, root)
    ensures Paced(Queries(Start(i), acts, root), TTL)
  {
    hide Legal, OverlapFree, Paced, Spaced;
    RunRate(i, acts, root);
  }

  /** And the stamps of the successful ones are a TTL apart. */
  lemma StampsSpaced(i: Instant, acts: seq<Action>, root: RootId)
    requires Legal(Start(i), acts) && OverlapFree(Start(i), acts, root)
    ensures Spaced(Stamps(Start(i), acts, root), TTL)
  {
    hide Legal, OverlapFree, Paced, Spaced;
    RunRate(i, acts, root);
  }

  /** So queries for the root take a TTL for every answered one but the last. */
  lemma SerialQueryRate(i: Instant, acts: seq<Action>, root: RootId)
    requires Legal(Start(i), acts) && OverlapFree(Start(i), acts, root)
    ensures var qs := Queries(Start(i), acts, root);
            qs != [] ==> Last(qs).at - qs[0].at >= AnsweredCount(qs[..|qs| - 1]) * TTL
  {
    hide Legal, OverlapFree, Paced;
    QueriesPaced(i, acts, root);
    var qs := Queries(Start(i), acts, root);
    if qs != [] {
      PacedSpan(qs, TTL);
    }
  }

  /** A query that fails is not remembered: calls on a root the chain does not know ask every time,
      strictly one after another and all in one second. */
  function AskInVain(v: Credential, n: nat): seq<Action> {
    if n == 0 then [] else [Begin(n - 1, v), Ask(n - 1, true)] + AskInVain(v, n - 1)
  }

  lemma {:induction false} UnknownRootAlwaysAsked(s: State, v: Credential, n: nat)
    requires s.past != [] && v.root !in Now(s).chain && v.root !in s.cache
    requires forall id :: id in s.calls ==> id >= n && !PendingOn(s, v.root, id)
    ensures Legal(s, AskInVain(v, n)) && OverlapFree(s, AskInVain(v, n), v.root)
    ensures |Queries(s, AskInVain(v, n), v.root)| == n
    ensures forall q :: q in Queries(s, AskInVain(v, n), v.root) ==> q == Query(Now(s).clock, false)
    ensures Exec(s, AskInVain(v, n)).past == s.past && Exec(s, AskInVain(v, n)).cache == s.cache
    decreases n
  {
    if n > 0 {
      var a, b := Begin(n - 1, v), Ask(n - 1, true);
      var s1 := Next(s, a);
      var s2 := Next(s1, b);
      UnknownRootAlwaysAsked(s2, v, n - 1);
      var acts := AskInVain(v, n);
      assert acts[0] == a && acts[1..][0] == b && acts[1..][1..] == AskInVain(v, n - 1);
      assert forall id :: !PendingOn(s, v.root, id);
      assert QueryOf(s, a, v.root) == [] && QueryOf(s1, b, v.root) == [Query(Now(s).clock, false)];
      assert Queries(s1, acts[1..], v.root) == [Query(Now(s).clock, false)] + Queries(s2, AskInVain(v, n - 1), v.root);
    }
  }

  // ---- exactly when the rate holds ------------------------------------------------------

  lemma {:induction false} JoinClean(s: State, a: seq<Action>, b: seq<Action>, root: RootId)
    requires Legal(s, a) && Legal(Exec(s, a), b)
    ensures Legal(s, a + b)
    ensures Queries(s, a + b, root) == Queries(s, a, root) + Queries(Exec(s, a), b, root)
    ensures Clean(s, a + b, root) <==> Clean(s, a, root) && Clean(Exec(s, a), b, root)
    decreases |a|
  {
    hide CleanStep, QueryOf, Next, Enabled;
    Join(s, a, b);
    if a == [] {
      assert a + b == b;
    } else {
      JoinClean(Next(s, a[0]), a[1..], b, root);
      assert (a + b)[1..] == a[1..] + b;
    }
  }

  /** A run with one more step. */
  lemma Extend(s: State, acts: seq<Action>, a: Action, root: RootId)
    requires Legal(s, acts) && Enabled(Exec(s, acts), a)
    ensures Legal(s, acts + [a]) && Exec(s, acts + [a]) == Next(Exec(s, acts), a)
    ensures Queries(s, acts + [a], root) == Queries(s, acts, root) + QueryOf(Exec(s, acts), a, root)
    ensures Clean(s, acts + [a], root) <==> Clean(s, acts, root) && CleanStep(Exec(s, acts), a, root)
  {
    hide CleanStep, QueryOf, Next, Enabled;
    var e := Exec(s, acts);
    assert Legal(e, [a]) && Exec(e, [a]) == Next(e, a) by {
      assert [a][1..] == [];
    }
    assert Queries(e, [a], root) == QueryOf(e, a, root) && (Clean(e, [a], root) <==> CleanStep(e, a, root)) by {
      assert [a][1..] == [] && [a][0] == a;
      Nothing(Next(e, a), root);
      assert QueryOf(e, a, root) + [] == QueryOf(e, a, root);
    }
    Join(s, acts, [a]);
    JoinClean(s, acts, [a], root);
  }

  /** In a clean run every query is answered, and no two calls overlap. */
  lemma {:induction false} CleanMeans(s: State, acts: seq<Action>, root: RootId)
    requires Legal(s, acts) && Clean(s, acts, root)
    ensures OverlapFree(s, acts, root) && AllAnswered(Queries(s, acts, root))
    decreases |acts|
  {
    hide QueryOf, AddsNoOverlap, Next, Enabled;
    if acts != [] {
      CleanMeans(Next(s, acts[0]), acts[1..], root);
    }
  }

  /** A run so far, clean, that now knows the root. */
  ghost predicate At(s: State, acts: seq<Action>, t: State, root: RootId) {
    && Legal(s, acts) && Exec(s, acts) == t && Clean(s, acts, root)
    && t.past != [] && root in Now(t).chain
  }

  /** An asking call may ask now, and is answered. */
  lemma AskNow(s: State, acts: seq<Action>, t: State, id: CallId, root: RootId)
    returns (more: seq<Action>, u: State)
    requires At(s, acts, t, root) && PendingOn(t, root, id) && t.calls[id].Asking?
    ensures At(s, more, u, root) && Queries(s, more, root) == Queries(s, acts, root) + [Query(Now(t).clock, true)]
    ensures u.past == t.past && u.cache == t.cache && u.calls.Keys == t.calls.Keys
    ensures PendingOn(u, root, id) && u.calls[id].Answered?
    ensures forall x :: x in t.calls && x != id ==> u.calls[x] == t.calls[x]
  {
    hide Legal, Clean, Exec, Queries;
    Extend(s, acts, Ask(id, true), root);
    more, u := acts + [Ask(id, true)], Next(t, Ask(id, true));
  }

  /** An idle root that is stale in the cache may be checked and asked for now, by a new call. */
  lemma NewCallAsks(s: State, acts: seq<Action>, t: State, root: RootId) returns (more: seq<Action>)
    requires At(s, acts, t, root) && !Fresh(t.cache, root, Now(t).clock) && forall id :: !PendingOn(t, root, id)
    ensures Legal(s, more) && Clean(s, more, root)
    ensures Queries(s, more, root) == Queries(s, acts, root) + [Query(Now(t).clock, true)]
  {
    hide Legal, Clean, Exec, Queries;
    var id := FreshId(t.calls.Keys);
    var v := Credential(root, 0);
    assert id !in t.calls;
    Extend(s, acts, Begin(id, v), root);
    var u := Next(t, Begin(id, v));
    assert At(s, acts + [Begin(id, v)], u, root);
    assert Queries(s, acts, root) + [] == Queries(s, acts, root);
    var w;
    more, w := AskNow(s, acts + [Begin(id, v)], u, id, root);
  }

  /** The chain comes to know the root. */
  lemma Known(s: State, root: RootId) returns (acts: seq<Action>, t: State)
    requires s.past != []
    ensures At(s, acts, t, root) && Queries(s, acts, root) == []
    ensures t.cache == s.cache && t.calls == s.calls && Now(t).clock == Now(s).clock
  {
    hide Exec, Queries;
    var a := Change(root, Some(RootRecord(0, false)));
    assert Legal(s, []) && Exec(s, []) == s && Clean(s, [], root) && Queries(s, [], root) == [] by {
      Nothing(s, root);
    }
    Extend(s, [], a, root);
    acts, t := [] + [a], Next(s, a);
  }

  lemma Nothing(s: State, root: RootId)
    ensures Legal(s, []) && Exec(s, []) == s && Clean(s, [], root) && Queries(s, [], root) == []
  {}

  /** A call's record is stamped now. */
  lemma StampNow(s: State, acts: seq<Action>, t: State, id: CallId, root: RootId)
    returns (more: seq<Action>, u: State)
    requires At(s, acts, t, root) && PendingOn(t, root, id) && t.calls[id].Answered?
    ensures At(s, more, u, root) && Queries(s, more, root) == Queries(s, acts, root)
    ensures u.past == t.past && u.cache == t.cache && u.calls.Keys == t.calls.Keys
    ensures PendingOn(u, root, id) && u.calls[id].Stamped? && u.calls[id].entry.fetched == Now(t).clock
    ensures forall x :: x in t.calls && x != id ==> u.calls[x] == t.calls[x]
  {
    hide Legal, Clean, Exec, Queries;
    Extend(s, acts, Stamp(id), root);
    more, u := acts + [Stamp(id)], Next(t, Stamp(id));
    assert Queries(s, acts, root) + [] == Queries(s, acts, root);
  }

  lemma StoreNow(s: State, acts: seq<Action>, t: State, id: CallId, root: RootId)
    returns (more: seq<Action>, u: State)
    requires At(s, acts, t, root) && PendingOn(t, root, id) && t.calls[id].Stamped?
    ensures At(s, more, u, root) && Queries(s, more, root) == Queries(s, acts, root)
    ensures u.past == t.past && u.calls.Keys == t.calls.Keys && !PendingOn(u, root, id)
    ensures root in u.cache && u.cache[root] == t.calls[id].entry
    ensures forall x :: x in t.calls && x != id ==> u.calls[x] == t.calls[x]
  {
    hide Legal, Clean, Exec, Queries;
    Extend(s, acts, Store(id), root);
    more, u := acts + [Store(id)], Next(t, Store(id));
    assert Queries(s, acts, root) + [] == Queries(s, acts, root);
  }

  lemma TtlPasses(s: State, acts: seq<Action>, t: State, root: RootId) returns (more: seq<Action>, u: State)
    requires At(s, acts, t, root)
    ensures At(s, more, u, root) && Queries(s, more, root) == Queries(s, acts, root)
    ensures Now(u).clock == Now(t).clock + TTL && u.cache == t.cache && u.calls == t.calls
  {
    hide Legal, Clean, Exec, Queries;
    Extend(s, acts, Tick(10), root);
    more, u := acts + [Tick(10)], Next(t, Tick(10));
    assert Queries(s, acts, root) + [] == Queries(s, acts, root);
  }

  /** The only pending calls on the root. */
  ghost predicate OnlyPending(s: State, root: RootId, one: CallId, two: CallId) {
    && one != two && PendingOn(s, root, one) && PendingOn(s, root, two)
    && forall id :: PendingOn(s, root, id) ==> id == one || id == two
  }

  /** When one call already holds a stamped record, a TTL passes, the other asks and stores, the first
      overwrites it with its older record, and a third call asks again at once. */
  lemma OldStampWins(s: State, acts: seq<Action>, t: State, one: CallId, two: CallId, root: RootId)
    returns (more: seq<Action>, at: int)
    requires At(s, acts, t, root) && OnlyPending(t, root, one, two)
    requires t.calls[one].Stamped? && t.calls[one].entry.fetched <= Now(t).clock && t.calls[two].Asking?
    ensures Legal(s, more) && Clean(s, more, root)
    ensures Queries(s, more, root) == Queries(s, acts, root) + [Query(at, true)] + [Query(at, true)]
  {
    hide Legal, Clean, Exec, Queries;
    var a1, t1 := TtlPasses(s, acts, t, root);
    var a2, t2 := AskNow(s, a1, t1, two, root);
    var a3, t3 := StampNow(s, a2, t2, two, root);
    var a4, t4 := StoreNow(s, a3, t3, two, root);
    assert PendingOn(t4, root, one);
    var a5, t5 := StoreNow(s, a4, t4, one, root);
    forall x | x in t.calls && x != one && x != two ensures t5.calls[x] == t.calls[x] {
      assert t2.calls[x] == t1.calls[x] && t3.calls[x] == t2.calls[x] && t4.calls[x] == t3.calls[x];
    }
    assert forall x :: PendingOn(t, root, x) || !PendingOn(t5, root, x);
    at := Now(t1).clock;
    more := NewCallAsks(s, a5, t5, root);
  }

  /** Once a call has checked the root while another was pending, the rate can be broken by clean steps. */
  lemma OverlapBreaks(s: State, one: CallId, two: CallId, root: RootId) returns (more: seq<Action>, at: int)
    requires s.past != [] && OnlyPending(s, root, one, two) && s.calls[two].Asking?
    requires s.calls[one].Stamped? ==> s.calls[one].entry.fetched <= Now(s).clock
    ensures Legal(s, more) && Clean(s, more, root)
    ensures Queries(s, more, root) == [Query(at, true)] + [Query(at, true)]
  {
    hide Legal, Clean, Exec, Queries;
    var a0, t0 := Known(s, root);
    if s.calls[one].Asking? {
      var a1, t1 := AskNow(s, a0, t0, one, root);
      var a2, t2 := AskNow(s, a1, t1, two, root);
      more, at := a2, Now(s).clock;
      assert [] + [Query(at, true)] + [Query(at, true)] == [Query(at, true)] + [Query(at, true)];
    } else {
      var a1, t1 := a0, t0;
      if s.calls[one].Answered? {
        a1, t1 := StampNow(s, a0, t0, one, root);
      }
      assert forall x :: x in s.calls && x != one ==> t1.calls[x] == s.calls[x];
      assert forall x :: PendingOn(s, root, x) || !PendingOn(t1, root, x);
      assert PendingOn(t1, root, one) && PendingOn(t1, root, two);
      more, at := OldStampWins(s, a1, t1, one, two, root);
      assert [] + [Query(at, true)] + [Query(at, true)] == [Query(at, true)] + [Query(at, true)];
    }
  }

  /** Once a query has failed, so can it: nothing is remembered, and the next call asks at once. */
  lemma FailureBreaks(s: State, root: RootId) returns (more: seq<Action>)
    requires s.past != [] && !Fresh(s.cache, root, Now(s).clock) && forall id :: !PendingOn(s, root, id)
    ensures Legal(s, more) && Clean(s, more, root) && Queries(s, more, root) == [Query(Now(s).clock, true)]
  {
    hide Legal, Clean, Exec, Queries;
    var a0, t0 := Known(s, root);
    assert forall id :: PendingOn(t0, root, id) <==> PendingOn(s, root, id);
    more := NewCallAsks(s, a0, t0, root);
    assert [] + [Query(Now(s).clock, true)] == [Query(Now(s).clock, true)];
  }

  /** The first step of a run that is not clean. */
  lemma {:induction false} FirstDirty(s: State, acts: seq<Action>, root: RootId) returns (k: nat)
    requires Legal(s, acts) && !Clean(s, acts, root)
    ensures k < |acts| && Legal(s, acts[..k]) && Clean(s, acts[..k], root)
    ensures Enabled(Exec(s, acts[..k]), acts[k]) && !CleanStep(Exec(s, acts[..k]), acts[k], root)
    decreases |acts|
  {
    hide CleanStep, Next, Enabled;
    if !CleanStep(s, acts[0], root) {
      k := 0;
      assert acts[..0] == [];
    } else {
      var j := FirstDirty(Next(s, acts[0]), acts[1..], root);
      k := j + 1;
      assert acts[..k][1..] == acts[1..][..j] && acts[..k][0] == acts[0];
    }
  }

  lemma {:induction false} PrefixClean(s: State, acts: seq<Action>, k: nat, root: RootId)
    requires Legal(s, acts) && Clean(s, acts, root) && k <= |acts|
    ensures Legal(s, acts[..k]) && Clean(s, acts[..k], root)
    decreases |acts|
  {
    hide CleanStep, Next, Enabled;
    if k > 0 {
      PrefixClean(Next(s, acts[0]), acts[1..], k - 1, root);
      assert acts[..k][1..] == acts[1..][..k - 1];
    }
  }

  /** A run that shares the first k steps of acts and is clean after them. */
  ghost predicate GoesOn(i: Instant, acts: seq<Action>, k: nat, more: seq<Action>, root: RootId) {
    && k <= |acts| && Legal(Start(i), acts[..k])
    && Legal(Exec(Start(i), acts[..k]), more) && Clean(Exec(Start(i), acts[..k]), more, root)
  }

  ghost predicate KeepsRate(i: Instant, run: seq<Action>, root: RootId) {
    Legal(Start(i), run) && EveryTtl(Queries(Start(i), run, root), TTL)
  }

  lemma CleanKeepsRate(i: Instant, run: seq<Action>, root: RootId)
    requires Legal(Start(i), run) && Clean(Start(i), run, root)
    ensures KeepsRate(i, run, root)
  {
    hide Legal, Clean, Paced, EveryTtl, OverlapFree;
    CleanMeans(Start(i), run, root);
    QueriesPaced(i, run, root);
    PacedIsEveryTtl(Queries(Start(i), run, root), TTL);
  }

  /** A step that is not clean, after a clean run, lets clean steps break the rate. */
  lemma DirtyBreaks(e: State, a: Action, root: RootId, qs: seq<Query>, st: seq<int>) returns (more: seq<Action>)
    requires RateInv(e, root, qs, st) && Enabled(e, a) && !CleanStep(e, a, root)
    ensures var t := Next(e, a);
            && Legal(t, more) && Clean(t, more, root)
            && !EveryTtl(qs + QueryOf(e, a, root) + Queries(t, more, root), TTL)
  {
    hide Legal, Clean, Exec, Queries, Paced, Spaced, EveryTtl;
    var t := Next(e, a);
    if a.Begin? {
      var one :| PendingOn(e, root, one);
      assert RateCall(e, root, qs, st, e.calls[one]);
      assert t.calls[a.id].Asking? && PendingOn(t, root, one) && PendingOn(t, root, a.id);
      assert forall x :: PendingOn(e, root, x) || !PendingOn(t, root, x) || x == a.id;
      var at;
      more, at := OverlapBreaks(t, one, a.id, root);
      AtOnce(qs, Query(at, true), Query(at, true), TTL);
      assert qs + [] + ([Query(at, true)] + [Query(at, true)]) == qs + [Query(at, true)] + [Query(at, true)];
    } else {
      var q := Query(Now(e).clock, false);
      assert QueryOf(e, a, root) == [q] && PendingOn(e, root, a.id);
      assert RateCall(e, root, qs, st, e.calls[a.id]);
      assert forall x :: PendingOn(e, root, x) || !PendingOn(t, root, x);
      more := FailureBreaks(t, root);
      AtOnce(qs, q, Query(q.at, true), TTL);
    }
  }

  /** The cache bounds the rate of all queries for a root exactly while no call checks the root with
      another between its stale check and its store, and no query for it fails: a run is clean if and
      only if the rate holds on every run that goes on cleanly from any point of it. */
  lemma QueryRateExact(i: Instant, acts: seq<Action>, root: RootId)
    requires Legal(Start(i), acts)
    ensures Clean(Start(i), acts, root)
            <==> forall k: nat, more: seq<Action> ::
                   GoesOn(i, acts, k, more, root) ==> KeepsRate(i, acts[..k] + more, root)
  {
    hide Legal, Clean, Queries, Exec, EveryTtl;
    var s := Start(i);
    if Clean(s, acts, root) {
      forall k: nat, more | GoesOn(i, acts, k, more, root) ensures KeepsRate(i, acts[..k] + more, root) {
        PrefixClean(s, acts, k, root);
        JoinClean(s, acts[..k], more, root);
        CleanKeepsRate(i, acts[..k] + more, root);
      }
    } else {
      var k, more := RateBroken(i, acts, root);
      assert GoesOn(i, acts, k, more, root);
    }
  }

  lemma RateBroken(i: Instant, acts: seq<Action>, root: RootId) returns (k: nat, more: seq<Action>)
    requires Legal(Start(i), acts) && !Clean(Start(i), acts, root)
    ensures GoesOn(i, acts, k, more, root) && !KeepsRate(i, acts[..k] + more, root)
  {
    hide Legal, Clean, OverlapFree, Queries, Stamps, Exec, EveryTtl, RateInv, CleanStep, QueryOf, Next, Enabled;
    var s := Start(i);
    var j := FirstDirty(s, acts, root);
    var pre, a := acts[..j], acts[j];
    CleanMeans(s, pre, root);
    RunRate(i, pre, root);
    Extend(s, pre, a, root);
    more := DirtyBreaks(Exec(s, pre), a, root, Queries(s, pre, root), Stamps(s, pre, root));
    k := j + 1;
    assert acts[..k] == pre + [a];
    JoinClean(s, acts[..k], more, root);
  }

  function Burst(v: Credential, n: nat): seq<Action> {
    if n == 0 then [] else [Begin(n - 1, v), Ask(n - 1, true)] + Burst(v, n - 1)
  }

  /** Overlapping calls are not bounded: any number of them may ask within one second. */
  lemma {:induction false} OverlappingCallsAllAsk(s: State, v: Credential, n: nat)
    requires s.past != [] && v.root !in s.cache && v.root in Now(s).chain
    requires forall id :: 0 <= id < n ==> id !in s.calls
    ensures Legal(s, Burst(v, n))
    ensures var e := Exec(s, Burst(v, n));
            && e.past == s.past
            && (forall id :: id in s.calls ==> id in e.calls && e.calls[id] == s.calls[id])
            && (forall id :: 0 <= id < n ==> id in e.calls && e.calls[id].Answered?)
    decreases n
  {
    if n > 0 {
      var a, b := Begin(n - 1, v), Ask(n - 1, true);
      var s1 := Next(s, a);
      var s2 := Next(s1, b);
      OverlappingCallsAllAsk(s2, v, n - 1);
      var acts := Burst(v, n);
      assert acts[0] == a && acts[1..][0] == b && acts[1..][1..] == Burst(v, n - 1);
    }
  }

  // ---- the two views agree ----------------------------------------------------------

  /** Clock and chain answer an undisturbed call meets. */
  function AnswerFor(s: State, v: Credential, reached: bool): Option<RootRecord>
    requires s.past != []
  {
    if reached && v.root in Now(s).chain then Some(Now(s).chain[v.root]) else None
  }

  /** The state e shows call id finished as the sequential method would have finished it. */
  predicate FinishedAs(s: State, e: State, id: CallId, v: Credential, reached: bool, d: nat)
    requires s.past != []
  {
    var (verdict, cache) := CheckOnce(s.cache, v, Now(s).clock, AnswerFor(s, v, reached), Now(s).clock + d);
    && e.cache == cache && id in e.calls
    && (if verdict == Unavailable then e.calls[id].Failed?
        else e.calls[id].Done? && e.calls[id].verdict == verdict)
  }

  lemma AloneFresh(s: State, id: CallId, v: Credential, reached: bool, d: nat)
    requires s.past != [] && id !in s.calls && Fresh(s.cache, v.root, Now(s).clock)
    ensures var acts := [Begin(id, v), Decide(id)];
            Legal(s, acts) && FinishedAs(s, Exec(s, acts), id, v, reached, d)
  {
    var s1 := Next(s, Begin(id, v));
    Chain([s, s1, Next(s1, Decide(id))], [Begin(id, v), Decide(id)]);
  }

  lemma AloneUnanswered(s: State, id: CallId, v: Credential, reached: bool, d: nat)
    requires s.past != [] && id !in s.calls && !Fresh(s.cache, v.root, Now(s).clock)
    requires AnswerFor(s, v, reached) == None
    ensures var acts := [Begin(id, v), Ask(id, reached)];
            Legal(s, acts) && FinishedAs(s, Exec(s, acts), id, v, reached, d)
  {
    var s1 := Next(s, Begin(id, v));
    Chain([s, s1, Next(s1, Ask(id, reached))], [Begin(id, v), Ask(id, reached)]);
  }

  lemma AloneAnswered(s: State, id: CallId, v: Credential, reached: bool, d: nat)
    requires s.past != [] && id !in s.calls && !Fresh(s.cache, v.root, Now(s).clock)
    requires AnswerFor(s, v, reached).Some?
    ensures var acts := [Begin(id, v), Ask(id, reached), Tick(d), Stamp(id), Store(id), Decide(id)];
            Legal(s, acts) && FinishedAs(s, Exec(s, acts), id, v, reached, d)
  {
    hide Legal, Exec, FinishedAs;
    var last, now, r := |s.past| - 1, Now(s), Now(s).chain[v.root];
    var e := Entry(r, now.clock + d);
    var past := s.past + [now.(clock := now.clock + d)];
    var s1 := s.(calls := s.calls[id := Asking(v, last)]);
    var s2 := s.(calls := s.calls[id := Answered(v, last, r, last)]);
    var s3 := s2.(past := past);
    assert StepsTo(s, Begin(id, v), s1);
    assert StepsTo(s1, Ask(id, reached), s2);
    assert StepsTo(s2, Tick(d), s3);
    var acts := [Begin(id, v), Ask(id, reached), Tick(d)];
    Chain([s, s1, s2, s3], acts);
    AfterAnswer(s3, id, Wait(s3, last));
    Join(s, acts, Use(id));
    assert acts + Use(id) == [Begin(id, v), Ask(id, reached), Tick(d), Stamp(id), Store(id), Decide(id)];
    FinishedAnswered(s, Exec(s3, Use(id)), id, v, reached, d);
  }

  lemma FinishedAnswered(s: State, e: State, id: CallId, v: Credential, reached: bool, d: nat)
    requires s.past != [] && !Fresh(s.cache, v.root, Now(s).clock) && AnswerFor(s, v, reached).Some?
    requires var r := AnswerFor(s, v, reached).value;
             && e.cache == s.cache[v.root := Entry(r, Now(s).clock + d)]
             && id in e.calls && e.calls[id].Done? && e.calls[id].verdict == Judge(r, v)
    ensures FinishedAs(s, e, id, v, reached, d)
  {}

  /** The steps of a call that nothing else interrupts but the clock. */
  function Alone(s: State, id: CallId, v: Credential, reached: bool, d: nat): seq<Action>
    requires s.past != []
  {
    if Fresh(s.cache, v.root, Now(s).clock) then [Begin(id, v), Decide(id)]
    else if AnswerFor(s, v, reached).None? then [Begin(id, v), Ask(id, reached)]
    else [Begin(id, v), Ask(id, reached), Tick(d), Stamp(id), Store(id), Decide(id)]
  }

  /** It leaves the verdict and the cache the sequential method leaves. */
  lemma AloneIsCheckOnce(s: State, id: CallId, v: Credential, reached: bool, d: nat)
    requires s.past != [] && id !in s.calls
    ensures Legal(s, Alone(s, id, v, reached, d))
    ensures FinishedAs(s, Exec(s, Alone(s, id, v, reached, d)), id, v, reached, d)
  {
    hide Legal, Exec, FinishedAs;
    if Fresh(s.cache, v.root, Now(s).clock) {
      AloneFresh(s, id, v, reached, d);
    } else if AnswerFor(s, v, reached).None? {
      AloneUnanswered(s, id, v, reached, d);
    } else {
      AloneAnswered(s, id, v, reached, d);
    }
  }
}
