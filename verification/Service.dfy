/** The execution service as a protocol: calls interleave step by step over the params cache, the
    sequence lock, the operator's account on the chain, and the log of broadcasts. */
module Service {
  import opened Basics
  import opened Delegation
  import opened Pacing

  type CallId = nat

  /** paramsCacheTTL, in seconds. */
  const PARAMS_TTL: int := 60

  predicate ParamsFresh(cached: Option<Params>, fetched: int, now: int) {
    cached.Some? && now - fetched < PARAMS_TTL
  }

  /** Result, cached value and stamp after one walletParams call that looks at `now`, is answered
      `answer` if it asks, and stamps the answer at `later`. */
  function ParamsOnce(cached: Option<Params>, fetched: int, now: int, answer: Option<Params>, later: int)
    : (Option<Params>, Option<Params>, int)
  {
    if ParamsFresh(cached, fetched, now) then (cached, cached, fetched)
    else if answer.None? then (None, cached, fetched)
    else (answer, answer, later)
  }

  /** The cache walletParams keeps; its lock is held from check to stamp. */
  class ParamsCache {
    var cachedParams: Option<Params>
    var paramsFetched: int

    constructor ()
      ensures cachedParams == None
    {
      cachedParams, paramsFetched := None, 0;
    }

    /** One critical section. */
    method WalletParams(now: int, answer: Option<Params>, later: int) returns (r: Option<Params>)
      modifies this
      ensures (r, cachedParams, paramsFetched)
           == ParamsOnce(old(cachedParams), old(paramsFetched), now, answer, later)
    {
      if cachedParams.Some? && now - paramsFetched < PARAMS_TTL {
        return cachedParams;
      }
      if answer.None? {
        return None;
      }
      cachedParams := answer;
      paramsFetched := later;
      return answer;
    }
  }

  // ---- states -------------------------------------------------------------------------

  datatype Request =
    | Execute(op: ExecOp)
    | ReadProof
    | OwnRegister
    | OwnUpdate

  /** The clock and the chain's agentwallet params at one moment. */
  datatype Instant = Instant(clock: int, params: Params)

  /** A call as it came in; `at` is history, the instant it did. */
  datatype Arrival = Arrival(req: Request, proof: seq<string>, tenant: Option<string>, at: nat)

  /** Where a call is between two of its steps. `checked` and `asOf` are history: the instant of the
      cache check, and the instant at which the chain gave the parameters the call holds. */
  datatype Phase =
    | NeedParams(tokens: seq<Bytes>)
    | HoldingParams(tokens: seq<Bytes>)
    | AskingParams(tokens: seq<Bytes>, checked: nat)
    | ParamsAnswered(tokens: seq<Bytes>, checked: nat, answer: Params, asOf: nat)
    | HaveParams(tokens: seq<Bytes>, params: Params, checked: nat, asOf: nat)
    | ReadVerified(tokens: seq<Bytes>, v: Verified, check: Check)
    | NeedBond
    | Ready(msg: Msg, cause: Cause)
    | Locked(msg: Msg, cause: Cause)
    | Signed(msg: Msg, cause: Cause, tx: Tx)
    | Finished

  datatype Call = Call(from: Arrival, phase: Phase)

  /** The cache and its lock. The rest is history: the stamps of all successful queries, the instant
      the cached value was given, and the longest any answer has waited for its stamp. */
  datatype ParamsState = ParamsState(mu: Option<CallId>, cached: Option<Params>, fetched: int,
                                     fetches: seq<int>, asOf: nat, slowest: nat)

  /** One broadcast: which call sent what, why and when, the account sequence then, and whether the
      chain took it. */
  datatype Sent = Sent(id: CallId, msg: Msg, cause: Cause, tx: Tx, sequence: nat, accepted: bool, at: nat)

  datatype Ledger = Ledger(mu: Option<CallId>, next: nat, sent: seq<Sent>)

  /** past holds every instant so far, the present one last. */
  datatype State = State(past: seq<Instant>, params: ParamsState, ledger: Ledger, calls: map<CallId, Call>)

  datatype Action =
    | Tick(seconds: nat)
    | Govern(params: Params)
    | Arrive(id: CallId, req: Request, proof: seq<string>, tenant: Option<string>)
    | LockParams(id: CallId)
    | CheckParams(id: CallId)
    | AnswerParams(id: CallId, reached: bool)
    | StampParams(id: CallId)
    | Prepare(id: CallId)
    | Bond(id: CallId, bond: Option<nat>)
    | LockSequence(id: CallId)
    | ReadAccount(id: CallId, reached: bool)
    | Broadcast(id: CallId, accepted: bool)

  /** The steps that are no call's. */
  predicate Outside(a: Action) { a.Tick? || a.Govern? }

  function Start(i: Instant, next: nat): State {
    State([i], ParamsState(None, None, 0, [], 0, 0), Ledger(None, next, []), map[])
  }

  function Now(s: State): Instant
    requires s.past != []
  {
    s.past[|s.past| - 1]
  }

  // ---- steps --------------------------------------------------------------------------

  function ArrivalPhase(lib: Lib, cfg: Config, from: Arrival): Phase {
    if from.req.Execute? || from.req.ReadProof? then
      match DecodedProof(lib, from.proof)
      case Ok(tokens) => NeedParams(tokens)
      case Err(_) => Finished
    else if RequireOperator(lib, cfg, from.tenant).Some? then Finished
    else if from.req.OwnRegister? then NeedBond
    else match BuildOwn(lib, cfg, None)
      case Ok(m) => Ready(m, ByOperator(from.tenant.value))
      case Err(_) => Finished
  }

  ghost function PreparedPhase(lib: Lib, cfg: Config, c: Call, now: int, at: nat): Phase
    requires c.phase.HaveParams?
  {
    var check := Check(c.phase.params, now, c.phase.checked, c.phase.asOf, at);
    match VerifyTokens(lib, cfg, c.phase.tokens, c.phase.params, now)
    case Err(_) => Finished
    case Ok(v) =>
      if !c.from.req.Execute? then ReadVerified(c.phase.tokens, v, check)
      else match BuildExec(lib, cfg, c.from.req.op, c.phase.tokens, v)
        case Err(_) => Finished
        case Ok(m) => Ready(m, Granted(c.from.req.op, c.from.proof, check, v))
  }

  function BondPhase(lib: Lib, cfg: Config, from: Arrival, bond: Option<nat>): Phase {
    if bond.None? || from.tenant.None? then Finished
    else match BuildOwn(lib, cfg, bond)
      case Ok(m) => Ready(m, ByOperator(from.tenant.value))
      case Err(_) => Finished
  }

  /** A call that pays a fee signs and sends under the sequence lock; a gas-free one does not. */
  predicate InWindow(lib: Lib, c: Phase) {
    c.Locked? || (c.Signed? && !IsGasFree(lib, c.msg))
  }

  predicate HoldsParams(c: Phase) { c.HoldingParams? || c.AskingParams? || c.ParamsAnswered? }

  predicate Enabled(lib: Lib, s: State, a: Action) {
    s.past != [] &&
    match a
    case Tick(_) => true
    case Govern(_) => true
    case Arrive(id, _, _, _) => id !in s.calls
    case LockParams(id) => id in s.calls && s.calls[id].phase.NeedParams? && s.params.mu == None
    case CheckParams(id) => id in s.calls && s.calls[id].phase.HoldingParams?
    case AnswerParams(id, _) => id in s.calls && s.calls[id].phase.AskingParams?
    case StampParams(id) => id in s.calls && s.calls[id].phase.ParamsAnswered?
    case Prepare(id) => id in s.calls && s.calls[id].phase.HaveParams?
    case Bond(id, _) => id in s.calls && s.calls[id].phase.NeedBond?
    case LockSequence(id) =>
      && id in s.calls && s.calls[id].phase.Ready? && !IsGasFree(lib, s.calls[id].phase.msg)
      && s.ledger.mu == None
    case ReadAccount(id, _) =>
      && id in s.calls
      && (s.calls[id].phase.Locked? || (s.calls[id].phase.Ready? && IsGasFree(lib, s.calls[id].phase.msg)))
    // The chain takes a fee-paying transaction only at the account's own sequence.
    case Broadcast(id, accepted) =>
      && id in s.calls && s.calls[id].phase.Signed?
      && (accepted && !IsGasFree(lib, s.calls[id].phase.msg) ==> s.calls[id].phase.tx.sequence == s.ledger.next)
  }

  /** The deferred unlock of a call that ends. */
  function Unlocked(lib: Lib, l: Ledger, c: Phase): Ledger {
    if InWindow(lib, c) then l.(mu := None) else l
  }

  /** One call moves on. */
  function Move(s: State, id: CallId, phase: Phase): State
    requires id in s.calls
  {
    s.(calls := s.calls[id := Call(s.calls[id].from, phase)])
  }

  /** The answer is stored and stamped with the present clock. */
  function StampedParams(s: State, c: Phase): ParamsState
    requires s.past != [] && c.ParamsAnswered?
  {
    var now := Now(s).clock;
    var wait := if c.asOf < |s.past| && s.past[c.asOf].clock <= now then now - s.past[c.asOf].clock else 0;
    ParamsState(None, Some(c.answer), now, s.params.fetches + [now], c.asOf,
                if wait <= s.params.slowest then s.params.slowest else wait)
  }

  ghost function Next(lib: Lib, cfg: Config, s: State, a: Action): State
    requires Enabled(lib, s, a)
  {
    var now := Now(s);
    var last := |s.past| - 1;
    match a
    case Tick(n) => s.(past := s.past + [now.(clock := now.clock + n)])
    case Govern(p) => s.(past := s.past + [now.(params := p)])
    case Arrive(id, req, proof, tenant) =>
      var from := Arrival(req, proof, tenant, last);
      s.(calls := s.calls[id := Call(from, ArrivalPhase(lib, cfg, from))])
    case LockParams(id) =>
      Move(s.(params := s.params.(mu := Some(id))), id, HoldingParams(s.calls[id].phase.tokens))
    case CheckParams(id) =>
      var c := s.calls[id].phase;
      if ParamsFresh(s.params.cached, s.params.fetched, now.clock)
      then Move(s.(params := s.params.(mu := None)), id,
                HaveParams(c.tokens, s.params.cached.value, last, s.params.asOf))
      else Move(s, id, AskingParams(c.tokens, last))
    case AnswerParams(id, reached) =>
      var c := s.calls[id].phase;
      if reached then Move(s, id, ParamsAnswered(c.tokens, c.checked, now.params, last))
      else Move(s.(params := s.params.(mu := None)), id, Finished)
    case StampParams(id) =>
      var c := s.calls[id].phase;
      Move(s.(params := StampedParams(s, c)), id, HaveParams(c.tokens, c.answer, c.checked, c.asOf))
    case Prepare(id) => Move(s, id, PreparedPhase(lib, cfg, s.calls[id], now.clock, last))
    case Bond(id, bond) => Move(s, id, BondPhase(lib, cfg, s.calls[id].from, bond))
    case LockSequence(id) =>
      var c := s.calls[id].phase;
      Move(s.(ledger := s.ledger.(mu := Some(id))), id, Locked(c.msg, c.cause))
    case ReadAccount(id, reached) =>
      var c := s.calls[id].phase;
      var tx := SignedTx(lib, [c.msg], s.ledger.next, cfg.fee, IsGasFree(lib, c.msg));
      if reached && tx.Some?
      then Move(s, id, Signed(c.msg, c.cause, tx.value))
      else Move(s.(ledger := Unlocked(lib, s.ledger, c)), id, Finished)
    case Broadcast(id, accepted) =>
      var c := s.calls[id].phase;
      var l := s.ledger;
      var paid := accepted && !IsGasFree(lib, c.msg);
      var sent := l.sent + [Sent(id, c.msg, c.cause, c.tx, l.next, accepted, last)];
      Move(s.(ledger := Unlocked(lib, Ledger(l.mu, if paid then l.next + 1 else l.next, sent), c)), id, Finished)
  }

  ghost predicate Legal(lib: Lib, cfg: Config, s: State, acts: seq<Action>)
    decreases |acts|
  {
    acts == [] || (Enabled(lib, s, acts[0]) && Legal(lib, cfg, Next(lib, cfg, s, acts[0]), acts[1..]))
  }

  ghost function Exec(lib: Lib, cfg: Config, s: State, acts: seq<Action>): State
    requires Legal(lib, cfg, s, acts)
    decreases |acts|
  {
    if acts == [] then s else Exec(lib, cfg, Next(lib, cfg, s, acts[0]), acts[1..])
  }

  // ---- first invariant: the params lock spaces the queries, and bounds what they answer ----------

  ghost predicate Ordered(past: seq<Instant>) {
    forall i, j :: 0 <= i <= j < |past| ==> past[i].clock <= past[j].clock
  }

  /** Parameters looked up at `checked`, and given by the chain after that, or less than TTL + late
      before it. */
  predicate Looked(past: seq<Instant>, p: Params, checked: nat, asOf: nat, late: nat) {
    && checked < |past| && asOf < |past| && past[asOf].params == p
    && (asOf >= checked || past[checked].clock - past[asOf].clock < PARAMS_TTL + late)
  }

  ghost predicate ParamsOk(past: seq<Instant>, p: ParamsState) {
    && past != [] && Ordered(past)
    && Spaced(p.fetches, PARAMS_TTL)
    && (p.cached.Some? <==> p.fetches != [])
    && (p.fetches != [] ==> p.fetches[|p.fetches| - 1] == p.fetched <= past[|past| - 1].clock)
    && (p.cached.Some? ==> && p.asOf < |past| && past[p.asOf].params == p.cached.value
                           && past[p.asOf].clock <= p.fetched <= past[p.asOf].clock + p.slowest)
  }

  predicate ParamsCallOk(past: seq<Instant>, p: ParamsState, id: CallId, c: Call)
    requires past != []
  {
    && c.from.at < |past|
    && (HoldsParams(c.phase) ==> p.mu == Some(id))
    && (c.phase.AskingParams? || c.phase.ParamsAnswered? ==>
          && c.from.at <= c.phase.checked < |past|
          && (p.fetches == [] || past[|past| - 1].clock - p.fetched >= PARAMS_TTL))
    && (c.phase.ParamsAnswered? ==>
          c.phase.checked <= c.phase.asOf < |past| && past[c.phase.asOf].params == c.phase.answer)
    && (c.phase.HaveParams? ==>
          c.from.at <= c.phase.checked && Looked(past, c.phase.params, c.phase.checked, c.phase.asOf, p.slowest))
  }

  ghost predicate ParamsInv(s: State) {
    ParamsOk(s.past, s.params) && forall id :: id in s.calls ==> ParamsCallOk(s.past, s.params, id, s.calls[id])
  }

  /** Time passing and governance spoil nothing already established. */
  lemma ParamsLater(s: State, i: Instant)
    requires ParamsInv(s) && Now(s).clock <= i.clock
    ensures ParamsInv(s.(past := s.past + [i]))
  {
    hide Spaced;
    forall id | id in s.calls ensures ParamsCallOk(s.past + [i], s.params, id, s.calls[id]) {
      assert ParamsCallOk(s.past, s.params, id, s.calls[id]);
    }
  }

  lemma StampKeepsParams(s: State, c: Phase)
    requires ParamsOk(s.past, s.params) && c.ParamsAnswered? && c.asOf < |s.past| && s.past[c.asOf].params == c.answer
    requires s.params.fetches == [] || Now(s).clock - s.params.fetched >= PARAMS_TTL
    ensures ParamsOk(s.past, StampedParams(s, c)) && s.params.slowest <= StampedParams(s, c).slowest
  {
    assert s.past[c.asOf].clock <= Now(s).clock;
    SpacedGrows(s.params.fetches, Now(s).clock, PARAMS_TTL);
    hide Spaced;
  }

  lemma StepKeepsParams(lib: Lib, cfg: Config, s: State, a: Action)
    requires ParamsInv(s) && Enabled(lib, s, a)
    ensures ParamsInv(Next(lib, cfg, s, a))
  {
    hide DecodedProof, RequireOperator, BuildOwn, VerifyTokens, BuildExec, SignedTx, Spaced, IsGasFree;
    match a
    case Tick(n) => ParamsLater(s, Now(s).(clock := Now(s).clock + n));
    case Govern(p) => ParamsLater(s, Now(s).(params := p));
    case _ => CallKeepsParams(lib, cfg, s, a);
  }

  lemma CallKeepsParams(lib: Lib, cfg: Config, s: State, a: Action)
    requires ParamsInv(s) && Enabled(lib, s, a) && !Outside(a)
    ensures ParamsInv(Next(lib, cfg, s, a))
  {
    hide DecodedProof, RequireOperator, BuildOwn, VerifyTokens, BuildExec, SignedTx, Spaced, IsGasFree, Ordered;
    if !a.Arrive? {
      assert ParamsCallOk(s.past, s.params, a.id, s.calls[a.id]);
    }
    if a.StampParams? {
      StampKeepsParams(s, s.calls[a.id].phase);
    }
    var t := Next(lib, cfg, s, a);
    forall id | id in t.calls ensures ParamsCallOk(t.past, t.params, id, t.calls[id]) {
      if id in s.calls {
        assert ParamsCallOk(s.past, s.params, id, s.calls[id]);
      }
    }
  }

  // ---- second invariant: the sequence lock --------------------------------------------------

  predicate WindowOk(lib: Lib, l: Ledger, id: CallId, c: Phase) {
    && (InWindow(lib, c) ==> l.mu == Some(id))
    && (c.Signed? && !IsGasFree(lib, c.msg) ==> c.tx.sequence == l.next)
    && (c.Locked? ==> !IsGasFree(lib, c.msg))
  }

  predicate Pays(lib: Lib, x: Sent) { !IsGasFree(lib, x.msg) }

  /** Sequences of the fee-paying transactions the chain took, in order. */
  function Taken(lib: Lib, sent: seq<Sent>): seq<nat> {
    if sent == [] then []
    else
      var n := |sent| - 1;
      Taken(lib, sent[..n]) + if sent[n].accepted && Pays(lib, sent[n]) then [sent[n].tx.sequence] else []
  }

  ghost predicate LedgerOk(lib: Lib, base: nat, l: Ledger) {
    && l.next == base + |Taken(lib, l.sent)|
    && (forall i :: 0 <= i < |Taken(lib, l.sent)| ==> Taken(lib, l.sent)[i] == base + i)
    && (forall i :: 0 <= i < |l.sent| && Pays(lib, l.sent[i]) ==> l.sent[i].tx.sequence == l.sent[i].sequence)
  }

  ghost predicate SequenceInv(lib: Lib, base: nat, s: State) {
    LedgerOk(lib, base, s.ledger) && forall id :: id in s.calls ==> WindowOk(lib, s.ledger, id, s.calls[id].phase)
  }

  lemma SentGrows(lib: Lib, base: nat, l: Ledger, x: Sent)
    requires LedgerOk(lib, base, l) && x.sequence == l.next && (Pays(lib, x) ==> x.tx.sequence == l.next)
    ensures LedgerOk(lib, base, Ledger(l.mu, if x.accepted && Pays(lib, x) then l.next + 1 else l.next, l.sent + [x]))
  {
    var sent := l.sent + [x];
    assert sent[..|sent| - 1] == l.sent;
  }

  lemma SignedSequence(lib: Lib, msgs: seq<Msg>, sequence: nat, fee: FeeSpec, gasFree: bool)
    requires SignedTx(lib, msgs, sequence, fee, gasFree).Some?
    ensures SignedTx(lib, msgs, sequence, fee, gasFree).value.sequence == sequence
  {}

  lemma BroadcastKeepsSequence(lib: Lib, cfg: Config, base: nat, s: State, a: Action)
    requires SequenceInv(lib, base, s) && Enabled(lib, s, a) && a.Broadcast?
    ensures SequenceInv(lib, base, Next(lib, cfg, s, a))
  {
    hide LedgerOk, IsGasFree;
    var c, l := s.calls[a.id].phase, s.ledger;
    assert WindowOk(lib, l, a.id, c);
    var x := Sent(a.id, c.msg, c.cause, c.tx, l.next, a.accepted, |s.past| - 1);
    SentGrows(lib, base, l, x);
    var grown := Ledger(l.mu, if x.accepted && Pays(lib, x) then l.next + 1 else l.next, l.sent + [x]);
    var t := Next(lib, cfg, s, a);
    assert t.ledger == Unlocked(lib, grown, c);
    LockIrrelevant(lib, base, grown, t.ledger);
    forall id | id in t.calls ensures WindowOk(lib, t.ledger, id, t.calls[id].phase) {
      if id != a.id {
        assert WindowOk(lib, l, id, s.calls[id].phase);
      }
    }
  }

  lemma LockIrrelevant(lib: Lib, base: nat, l: Ledger, k: Ledger)
    requires LedgerOk(lib, base, l) && k.next == l.next && k.sent == l.sent
    ensures LedgerOk(lib, base, k)
  {}

  lemma StepKeepsSequence(lib: Lib, cfg: Config, base: nat, s: State, a: Action)
    requires SequenceInv(lib, base, s) && Enabled(lib, s, a)
    ensures SequenceInv(lib, base, Next(lib, cfg, s, a))
  {
    hide LedgerOk, IsGasFree, DecodedProof, RequireOperator, BuildOwn, VerifyTokens, BuildExec, SignedTx;
    if a.Broadcast? {
      BroadcastKeepsSequence(lib, cfg, base, s, a);
    } else {
      var t := Next(lib, cfg, s, a);
      LockIrrelevant(lib, base, s.ledger, t.ledger);
      if a.ReadAccount? {
        var m := s.calls[a.id].phase.msg;
        if SignedTx(lib, [m], s.ledger.next, cfg.fee, IsGasFree(lib, m)).Some? {
          SignedSequence(lib, [m], s.ledger.next, cfg.fee, IsGasFree(lib, m));
        }
      }
      forall id | id in t.calls ensures WindowOk(lib, t.ledger, id, t.calls[id].phase) {
        if id in s.calls {
          assert WindowOk(lib, s.ledger, id, s.calls[id].phase);
        }
        if !Outside(a) && a.id in s.calls {
          assert WindowOk(lib, s.ledger, a.id, s.calls[a.id].phase);
        }
      }
    }
  }

  // ---- no lock is left behind -----------------------------------------------------------------

  /** Whoever holds a lock is still on the way to releasing it. */
  ghost predicate LocksOwned(lib: Lib, s: State) {
    && (s.params.mu.Some? ==> s.params.mu.value in s.calls && HoldsParams(s.calls[s.params.mu.value].phase))
    && (s.ledger.mu.Some? ==> s.ledger.mu.value in s.calls && InWindow(lib, s.calls[s.ledger.mu.value].phase))
  }

  lemma StepKeepsLocks(lib: Lib, cfg: Config, base: nat, s: State, a: Action)
    requires ParamsInv(s) && SequenceInv(lib, base, s) && LocksOwned(lib, s) && Enabled(lib, s, a)
    ensures LocksOwned(lib, Next(lib, cfg, s, a))
  {
    hide LedgerOk, Spaced, IsGasFree, DecodedProof, RequireOperator, BuildOwn, VerifyTokens, BuildExec, SignedTx;
    if !Outside(a) && !a.Arrive? {
      assert ParamsCallOk(s.past, s.params, a.id, s.calls[a.id]);
      assert WindowOk(lib, s.ledger, a.id, s.calls[a.id].phase);
    }
  }

  // ---- third invariant: nothing unjustified is ever sent -----------------------------------

  /** tx carries exactly the message, and fee coins exactly when it pays and the fee is not zero. */
  ghost predicate SignedFor(lib: Lib, cfg: Config, m: Msg, tx: Tx) {
    && tx.msgs == [m]
    && (tx.fee != [] <==> !IsGasFree(lib, m) && lib.parseAmount(cfg.fee.amount) != Some(0))
    && (tx.fee != [] ==> lib.parseAmount(cfg.fee.amount).Some?
                         && tx.fee == [Coin(cfg.fee.denom, lib.parseAmount(cfg.fee.amount).value)])
  }

  /** A verification made for a call that arrived at `arrived`: its clock is a reading taken after
      that, its ceilings are the chain's, looked up after that and old by no more than the cache allows. */
  predicate CheckOk(past: seq<Instant>, arrived: nat, c: Check, late: nat) {
    && arrived <= c.checked <= c.at < |past| && c.asOf <= c.at && c.now == past[c.at].clock
    && Looked(past, c.params, c.checked, c.asOf, late)
  }

  /** The cause of m is what the call itself asked for and brought. */
  predicate Requested(past: seq<Instant>, late: nat, from: Arrival, m: Msg, cause: Cause) {
    match cause
    case Granted(op, proof, check, _) =>
      from.req == Execute(op) && from.proof == proof && CheckOk(past, from.at, check, late)
    case ByOperator(tenant) =>
      && from.tenant == Some(tenant)
      && ((from.req.OwnRegister? && m.Register?) || (from.req.OwnUpdate? && m.Update?))
  }

  predicate BroughtProof(lib: Lib, from: Arrival, tokens: seq<Bytes>) {
    (from.req.Execute? || from.req.ReadProof?) && DecodedProof(lib, from.proof) == Ok(tokens)
  }

  ghost predicate CallSafe(lib: Lib, cfg: Config, past: seq<Instant>, late: nat, c: Call) {
    match c.phase
    case NeedParams(tokens) => BroughtProof(lib, c.from, tokens)
    case HoldingParams(tokens) => BroughtProof(lib, c.from, tokens)
    case AskingParams(tokens, _) => BroughtProof(lib, c.from, tokens)
    case ParamsAnswered(tokens, _, _, _) => BroughtProof(lib, c.from, tokens)
    case HaveParams(tokens, _, _, _) => BroughtProof(lib, c.from, tokens)
    case ReadVerified(tokens, v, check) =>
      && c.from.req.ReadProof? && BroughtProof(lib, c.from, tokens)
      && VerifyTokens(lib, cfg, tokens, check.params, check.now) == Ok(v) && CheckOk(past, c.from.at, check, late)
    case NeedBond =>
      c.from.req.OwnRegister? && c.from.tenant.Some? && lib.tenantOwner(c.from.tenant.value) == Some(cfg.operator)
    case Ready(m, cause) => Warranted(lib, cfg, m, cause) && Requested(past, late, c.from, m, cause)
    case Locked(m, cause) => Warranted(lib, cfg, m, cause) && Requested(past, late, c.from, m, cause)
    case Signed(m, cause, tx) =>
      Warranted(lib, cfg, m, cause) && Requested(past, late, c.from, m, cause) && SignedFor(lib, cfg, m, tx)
    case Finished => true
  }

  ghost predicate SentSafe(lib: Lib, cfg: Config, s: State, x: Sent) {
    && x.id in s.calls && s.calls[x.id].phase.Finished? && s.calls[x.id].from.at <= x.at < |s.past|
    && Warranted(lib, cfg, x.msg, x.cause) && SignedFor(lib, cfg, x.msg, x.tx)
    && Requested(s.past, s.params.slowest, s.calls[x.id].from, x.msg, x.cause)
    && (x.cause.Granted? ==> x.cause.check.at <= x.at)
  }

  ghost predicate SafeInv(lib: Lib, cfg: Config, s: State) {
    && (forall id :: id in s.calls ==> CallSafe(lib, cfg, s.past, s.params.slowest, s.calls[id]))
    && (forall i :: 0 <= i < |s.ledger.sent| ==> SentSafe(lib, cfg, s, s.ledger.sent[i]))
    && (forall i, j :: 0 <= i < j < |s.ledger.sent| ==> s.ledger.sent[i].id != s.ledger.sent[j].id)
  }

  lemma RequestedLater(past: seq<Instant>, later: seq<Instant>, late: nat, slower: nat, from: Arrival,
                       m: Msg, cause: Cause)
    requires past <= later && late <= slower && Requested(past, late, from, m, cause)
    ensures Requested(later, slower, from, m, cause)
  {}

  lemma CallSafeLater(lib: Lib, cfg: Config, past: seq<Instant>, later: seq<Instant>, late: nat, slower: nat, c: Call)
    requires past <= later && late <= slower && CallSafe(lib, cfg, past, late, c)
    ensures CallSafe(lib, cfg, later, slower, c)
  {
    hide Warranted, SignedFor, VerifyTokens, DecodedProof;
  }

  lemma SignsFor(lib: Lib, cfg: Config, m: Msg, sequence: nat)
    requires SignedTx(lib, [m], sequence, cfg.fee, IsGasFree(lib, m)).Some?
    ensures SignedFor(lib, cfg, m, SignedTx(lib, [m], sequence, cfg.fee, IsGasFree(lib, m)).value)
  {}

  lemma OwnWarranted(lib: Lib, cfg: Config, tenant: string, bond: Option<nat>)
    requires lib.tenantOwner(tenant) == Some(cfg.operator) && BuildOwn(lib, cfg, bond).Ok?
    ensures var m := BuildOwn(lib, cfg, bond).value;
            Warranted(lib, cfg, m, ByOperator(tenant)) && (if bond.Some? then m.Register? else m.Update?)
  {}

  lemma PreparedSafe(lib: Lib, cfg: Config, s: State, c: Call)
    requires s.past != [] && Ordered(s.past) && c.phase.HaveParams? && c.from.at <= c.phase.checked
    requires CallSafe(lib, cfg, s.past, s.params.slowest, c)
    requires Looked(s.past, c.phase.params, c.phase.checked, c.phase.asOf, s.params.slowest)
    ensures CallSafe(lib, cfg, s.past, s.params.slowest,
                     Call(c.from, PreparedPhase(lib, cfg, c, Now(s).clock, |s.past| - 1)))
  {
    hide Warranted, BuildExec, VerifyTokens, DecodedProof;
    var ph, now := c.phase, Now(s).clock;
    var check := Check(ph.params, now, ph.checked, ph.asOf, |s.past| - 1);
    var r := VerifyTokens(lib, cfg, ph.tokens, ph.params, now);
    if r.Ok? && c.from.req.Execute? && BuildExec(lib, cfg, c.from.req.op, ph.tokens, r.value).Ok? {
      ExecWarranted(lib, cfg, c.from.req.op, c.from.proof, ph.tokens, check);
    }
  }

  lemma ArrivalSafe(lib: Lib, cfg: Config, past: seq<Instant>, late: nat, from: Arrival)
    ensures CallSafe(lib, cfg, past, late, Call(from, ArrivalPhase(lib, cfg, from)))
  {
    hide Warranted, BuildOwn, DecodedProof;
    if from.req.OwnUpdate? && RequireOperator(lib, cfg, from.tenant).None? && BuildOwn(lib, cfg, None).Ok? {
      OwnWarranted(lib, cfg, from.tenant.value, None);
    }
  }

  /** The phase a call's own step leaves it in is justified. */
  lemma StepSafe(lib: Lib, cfg: Config, s: State, a: Action)
    requires ParamsInv(s) && SafeInv(lib, cfg, s) && Enabled(lib, s, a) && !Outside(a)
    ensures CallSafe(lib, cfg, s.past, s.params.slowest, Next(lib, cfg, s, a).calls[a.id])
  {
    hide Warranted, SignedFor, IsGasFree, SignedTx, VerifyTokens, BuildExec, BuildOwn, DecodedProof, Spaced, SentSafe;
    if a.Arrive? {
      ArrivalSafe(lib, cfg, s.past, s.params.slowest, Arrival(a.req, a.proof, a.tenant, |s.past| - 1));
    } else {
      var c := s.calls[a.id];
      assert CallSafe(lib, cfg, s.past, s.params.slowest, c) && ParamsCallOk(s.past, s.params, a.id, c);
      if a.Prepare? {
        PreparedSafe(lib, cfg, s, c);
      } else if a.Bond? && a.bond.Some? && BuildOwn(lib, cfg, a.bond).Ok? {
        OwnWarranted(lib, cfg, c.from.tenant.value, a.bond);
      } else if a.ReadAccount? {
        var m := c.phase.msg;
        if SignedTx(lib, [m], s.ledger.next, cfg.fee, IsGasFree(lib, m)).Some? {
          SignsFor(lib, cfg, m, s.ledger.next);
        }
      }
    }
  }

  /** What a step does to the history: it only grows, and only the stepping call changes. */
  lemma StepGrows(lib: Lib, cfg: Config, s: State, a: Action)
    requires ParamsInv(s) && Enabled(lib, s, a)
    ensures var t := Next(lib, cfg, s, a);
      && s.past <= t.past && s.params.slowest <= t.params.slowest
      && (forall id :: id in s.calls ==> id in t.calls && t.calls[id].from == s.calls[id].from)
      && (forall id :: id in t.calls && (Outside(a) || id != a.id) ==> id in s.calls && t.calls[id] == s.calls[id])
      && (if a.Broadcast? then
            var c := s.calls[a.id].phase;
            t.ledger.sent
              == s.ledger.sent + [Sent(a.id, c.msg, c.cause, c.tx, s.ledger.next, a.accepted, |s.past| - 1)]
          else t.ledger.sent == s.ledger.sent)
  {
    hide IsGasFree, SignedTx, VerifyTokens, BuildExec, BuildOwn, DecodedProof, RequireOperator, ParamsInv;
  }

  lemma SentStays(lib: Lib, cfg: Config, s: State, a: Action, x: Sent)
    requires ParamsInv(s) && Enabled(lib, s, a) && SentSafe(lib, cfg, s, x)
    ensures SentSafe(lib, cfg, Next(lib, cfg, s, a), x) && (Outside(a) || x.id != a.id)
  {
    StepGrows(lib, cfg, s, a);
    var t, from := Next(lib, cfg, s, a), s.calls[x.id].from;
    assert Outside(a) || x.id != a.id;
    hide Next, Warranted, SignedFor, Enabled, ParamsInv;
    RequestedLater(s.past, t.past, s.params.slowest, t.params.slowest, from, x.msg, x.cause);
  }

  lemma StepKeepsSafe(lib: Lib, cfg: Config, s: State, a: Action)
    requires ParamsInv(s) && SafeInv(lib, cfg, s) && Enabled(lib, s, a)
    ensures SafeInv(lib, cfg, Next(lib, cfg, s, a))
  {
    var t := Next(lib, cfg, s, a);
    StepGrows(lib, cfg, s, a);
    forall id | id in t.calls ensures CallSafe(lib, cfg, t.past, t.params.slowest, t.calls[id]) {
      if !Outside(a) && id == a.id {
        StepSafe(lib, cfg, s, a);
        CallSafeLater(lib, cfg, s.past, t.past, s.params.slowest, t.params.slowest, t.calls[id]);
      } else {
        CallSafeLater(lib, cfg, s.past, t.past, s.params.slowest, t.params.slowest, s.calls[id]);
      }
    }
    forall i | 0 <= i < |s.ledger.sent|
      ensures SentSafe(lib, cfg, t, s.ledger.sent[i]) && (Outside(a) || s.ledger.sent[i].id != a.id)
    {
      SentStays(lib, cfg, s, a, s.ledger.sent[i]);
    }
    if a.Broadcast? {
      BroadcastSafe(lib, cfg, s, a);
    }
  }

  lemma BroadcastSafe(lib: Lib, cfg: Config, s: State, a: Action)
    requires ParamsInv(s) && SafeInv(lib, cfg, s) && Enabled(lib, s, a) && a.Broadcast?
    ensures var t := Next(lib, cfg, s, a); SentSafe(lib, cfg, t, t.ledger.sent[|s.ledger.sent|])
  {
    hide Warranted, SignedFor, IsGasFree, Spaced;
    StepGrows(lib, cfg, s, a);
    var c := s.calls[a.id];
    assert CallSafe(lib, cfg, s.past, s.params.slowest, c) && ParamsCallOk(s.past, s.params, a.id, c);
  }

  // ---- every run ----------------------------------------------------------------------------

  ghost predicate Inv(lib: Lib, cfg: Config, base: nat, s: State) {
    ParamsInv(s) && SequenceInv(lib, base, s) && LocksOwned(lib, s) && SafeInv(lib, cfg, s)
  }

  /** Whatever the libraries answer. */
  lemma {:induction false} RunKeepsInv(lib: Lib, cfg: Config, base: nat, s: State, acts: seq<Action>)
    requires Inv(lib, cfg, base, s) && Legal(lib, cfg, s, acts)
    ensures Inv(lib, cfg, base, Exec(lib, cfg, s, acts))
    decreases |acts|
  {
    hide ParamsInv, SequenceInv, LocksOwned, SafeInv, Next, Enabled;
    if acts != [] {
      StepKeepsParams(lib, cfg, s, acts[0]);
      StepKeepsSequence(lib, cfg, base, s, acts[0]);
      StepKeepsLocks(lib, cfg, base, s, acts[0]);
      StepKeepsSafe(lib, cfg, s, acts[0]);
      RunKeepsInv(lib, cfg, base, Next(lib, cfg, s, acts[0]), acts[1..]);
    }
  }

  lemma ReachableInv(lib: Lib, cfg: Config, i: Instant, base: nat, acts: seq<Action>)
    requires Legal(lib, cfg, Start(i, base), acts)
    ensures Inv(lib, cfg, base, Exec(lib, cfg, Start(i, base), acts))
  {
    RunKeepsInv(lib, cfg, base, Start(i, base), acts);
  }

  lemma Unroll(lib: Lib, cfg: Config, s: State, a: Action, rest: seq<Action>)
    requires Enabled(lib, s, a) && Legal(lib, cfg, Next(lib, cfg, s, a), rest)
    ensures Legal(lib, cfg, s, [a] + rest)
    ensures Exec(lib, cfg, s, [a] + rest) == Exec(lib, cfg, Next(lib, cfg, s, a), rest)
  {
    hide Next, Enabled;
    assert ([a] + rest)[1..] == rest;
  }

  /** The k-th action of the run is the arrival that `from` records, at the instant it records. */
  ghost predicate ArrivedAt(lib: Lib, cfg: Config, s: State, acts: seq<Action>, id: CallId, from: Arrival, k: nat) {
    && k < |acts| && acts[k] == Arrive(id, from.req, from.proof, from.tenant)
    && Legal(lib, cfg, s, acts[..k]) && |Exec(lib, cfg, s, acts[..k]).past| == from.at + 1
  }

  /** What a call is recorded to have come in with is what it came in with. */
  lemma {:induction false} ArrivalsAreActions(lib: Lib, cfg: Config, s: State, acts: seq<Action>, id: CallId)
    requires s.past != [] && Legal(lib, cfg, s, acts) && id in Exec(lib, cfg, s, acts).calls
    ensures var from := Exec(lib, cfg, s, acts).calls[id].from;
            || (id in s.calls && s.calls[id].from == from)
            || (exists k :: ArrivedAt(lib, cfg, s, acts, id, from, k))
    decreases |acts|
  {
    hide IsGasFree, SignedTx, VerifyTokens, BuildExec, BuildOwn, DecodedProof, RequireOperator;
    if acts != [] {
      var t, from := Next(lib, cfg, s, acts[0]), Exec(lib, cfg, s, acts).calls[id].from;
      ArrivalsAreActions(lib, cfg, t, acts[1..], id);
      if k: nat :| ArrivedAt(lib, cfg, t, acts[1..], id, from, k) {
        Unroll(lib, cfg, s, acts[0], acts[1..][..k]);
        assert [acts[0]] + acts[1..][..k] == acts[..k + 1];
        assert ArrivedAt(lib, cfg, s, acts, id, from, k + 1);
      } else if acts[0].Arrive? && acts[0].id == id {
        assert acts[..0] == [];
        assert ArrivedAt(lib, cfg, s, acts, id, from, 0);
      }
    }
  }

  /** n successful params queries take at least (n - 1) TTLs of clock, however calls interleave. */
  lemma ParamsQueryRate(lib: Lib, cfg: Config, i: Instant, base: nat, acts: seq<Action>)
    requires Legal(lib, cfg, Start(i, base), acts)
    ensures var st := Exec(lib, cfg, Start(i, base), acts).params.fetches;
            st != [] ==> st[|st| - 1] - st[0] >= (|st| - 1) * PARAMS_TTL
  {
    hide SafeInv, SequenceInv, LocksOwned;
    ReachableInv(lib, cfg, i, base, acts);
  }

  /** The ceilings a call goes on with are the chain's at some instant after its cache check, or less
      than the TTL, and the longest wait of an answer for its stamp, before it. */
  lemma BoundedCeilings(lib: Lib, cfg: Config, i: Instant, base: nat, acts: seq<Action>, id: CallId)
    requires Legal(lib, cfg, Start(i, base), acts)
    requires var s := Exec(lib, cfg, Start(i, base), acts); id in s.calls && s.calls[id].phase.HaveParams?
    ensures var s := Exec(lib, cfg, Start(i, base), acts); var c := s.calls[id];
            && c.from.at <= c.phase.checked
            && Looked(s.past, c.phase.params, c.phase.checked, c.phase.asOf, s.params.slowest)
  {
    hide SafeInv, SequenceInv, LocksOwned;
    ReachableInv(lib, cfg, i, base, acts);
    var s := Exec(lib, cfg, Start(i, base), acts);
    assert ParamsCallOk(s.past, s.params, id, s.calls[id]);
  }

  /** Every answer of the run is stamped within lat seconds. */
  ghost predicate OnTime(lib: Lib, cfg: Config, s: State, acts: seq<Action>, lat: nat)
    requires Legal(lib, cfg, s, acts)
    decreases |acts|
  {
    acts == [] ||
    (&& (acts[0].StampParams? ==>
           var k := s.calls[acts[0].id].phase.asOf; k < |s.past| && Now(s).clock - s.past[k].clock <= lat)
     && OnTime(lib, cfg, Next(lib, cfg, s, acts[0]), acts[1..], lat))
  }

  /** The longest wait is no longer than the environment lets any be. */
  lemma {:induction false} SlowestIsOnTime(lib: Lib, cfg: Config, s: State, acts: seq<Action>, lat: nat)
    requires Legal(lib, cfg, s, acts) && OnTime(lib, cfg, s, acts, lat) && s.params.slowest <= lat
    ensures Exec(lib, cfg, s, acts).params.slowest <= lat
    decreases |acts|
  {
    hide IsGasFree, SignedTx, VerifyTokens, BuildExec, BuildOwn, DecodedProof, RequireOperator;
    if acts != [] {
      SlowestIsOnTime(lib, cfg, Next(lib, cfg, s, acts[0]), acts[1..], lat);
    }
  }

  /** The windows from account read to broadcast of fee-paying transactions never overlap. */
  lemma WindowsDisjoint(lib: Lib, cfg: Config, i: Instant, base: nat, acts: seq<Action>, a: CallId, b: CallId)
    requires Legal(lib, cfg, Start(i, base), acts)
    requires var s := Exec(lib, cfg, Start(i, base), acts);
             a in s.calls && b in s.calls && InWindow(lib, s.calls[a].phase) && InWindow(lib, s.calls[b].phase)
    ensures a == b
  {
    hide SafeInv, ParamsInv, LocksOwned;
    ReachableInv(lib, cfg, i, base, acts);
    var s := Exec(lib, cfg, Start(i, base), acts);
    assert WindowOk(lib, s.ledger, a, s.calls[a].phase) && WindowOk(lib, s.ledger, b, s.calls[b].phase);
  }

  /** Hence every fee-paying transaction is sent at the account's sequence, and those the chain
      takes carry consecutive sequences from the account's first on. */
  lemma SequencesConsecutive(lib: Lib, cfg: Config, i: Instant, base: nat, acts: seq<Action>)
    requires Legal(lib, cfg, Start(i, base), acts)
    ensures var l := Exec(lib, cfg, Start(i, base), acts).ledger; var taken := Taken(lib, l.sent);
            && l.next == base + |taken|
            && (forall k :: 0 <= k < |taken| ==> taken[k] == base + k)
            && (forall k :: 0 <= k < |l.sent| && Pays(lib, l.sent[k]) ==> l.sent[k].tx.sequence == l.sent[k].sequence)
  {
    hide SafeInv, ParamsInv, LocksOwned;
    ReachableInv(lib, cfg, i, base, acts);
  }

  /** Some step of call id is possible. */
  ghost predicate CanMove(lib: Lib, s: State, id: CallId) {
    exists a: Action :: !Outside(a) && a.id == id && Enabled(lib, s, a)
  }

  /** A call that has nothing left to do here. */
  predicate Over(c: Phase) { c.Finished? || c.ReadVerified? }

  lemma MovesUnlessWaiting(lib: Lib, s: State, id: CallId)
    requires s.past != [] && id in s.calls && !Over(s.calls[id].phase)
    ensures CanMove(lib, s, id)
            || (s.calls[id].phase.NeedParams? && s.params.mu.Some?)
            || (s.calls[id].phase.Ready? && s.ledger.mu.Some?)
  {
    var a := match s.calls[id].phase
      case NeedParams(_) => LockParams(id)
      case HoldingParams(_) => CheckParams(id)
      case AskingParams(_, _) => AnswerParams(id, false)
      case ParamsAnswered(_, _, _, _) => StampParams(id)
      case HaveParams(_, _, _, _) => Prepare(id)
      case NeedBond => Bond(id, None)
      case Ready(m, _) => if IsGasFree(lib, m) then ReadAccount(id, true) else LockSequence(id)
      case Locked(_, _) => ReadAccount(id, true)
      case Signed(_, _, _) => Broadcast(id, false);
    assert !Outside(a) && a.id == id;
  }

  /** The two locks cannot deadlock: every unfinished call can move, or waits for a lock whose
      holder can. In particular every path out of a locked region unlocks. */
  lemma NoDeadlock(lib: Lib, cfg: Config, i: Instant, base: nat, acts: seq<Action>, id: CallId)
    requires Legal(lib, cfg, Start(i, base), acts)
    requires var s := Exec(lib, cfg, Start(i, base), acts); id in s.calls && !Over(s.calls[id].phase)
    ensures var s := Exec(lib, cfg, Start(i, base), acts);
            || CanMove(lib, s, id)
            || (s.calls[id].phase.NeedParams? && s.params.mu.Some? && CanMove(lib, s, s.params.mu.value))
            || (s.calls[id].phase.Ready? && s.ledger.mu.Some? && CanMove(lib, s, s.ledger.mu.value))
  {
    hide CanMove, SafeInv, SequenceInv;
    ReachableInv(lib, cfg, i, base, acts);
    var s := Exec(lib, cfg, Start(i, base), acts);
    MovesUnlessWaiting(lib, s, id);
    if s.params.mu.Some? {
      MovesUnlessWaiting(lib, s, s.params.mu.value);
    }
    if s.ledger.mu.Some? {
      MovesUnlessWaiting(lib, s, s.ledger.mu.value);
    }
  }

  /** Bounds the steps a call still has to make. */
  function Rank(c: Phase): nat {
    match c
    case NeedParams(_) => 8
    case HoldingParams(_) => 7
    case AskingParams(_, _) => 6
    case ParamsAnswered(_, _, _, _) => 5
    case HaveParams(_, _, _, _) => 4
    case NeedBond => 4
    case Ready(_, _) => 3
    case Locked(_, _) => 2
    case Signed(_, _, _) => 1
    case ReadVerified(_, _, _) => 0
    case Finished => 0
  }

  /** Nothing is ever retried: every step of a call lowers its rank, and no other step raises it. */
  lemma StepLowersRank(lib: Lib, cfg: Config, s: State, a: Action, id: CallId)
    requires Enabled(lib, s, a) && id in s.calls
    ensures var t := Next(lib, cfg, s, a);
            && id in t.calls
            && (if Outside(a) || a.id != id then t.calls[id] == s.calls[id]
                else Rank(t.calls[id].phase) < Rank(s.calls[id].phase))
  {
    hide IsGasFree, SignedTx, VerifyTokens, BuildExec, BuildOwn, DecodedProof, RequireOperator;
  }

  function OwnSteps(acts: seq<Action>, id: CallId): nat {
    if acts == [] then 0
    else OwnSteps(acts[1..], id) + if !Outside(acts[0]) && acts[0].id == id then 1 else 0
  }

  lemma {:induction false} RankFalls(lib: Lib, cfg: Config, s: State, acts: seq<Action>, id: CallId)
    requires Legal(lib, cfg, s, acts)
    ensures var e := Exec(lib, cfg, s, acts);
            && (id in s.calls ==>
                  id in e.calls && OwnSteps(acts, id) + Rank(e.calls[id].phase) <= Rank(s.calls[id].phase))
            && (id !in s.calls ==> if id in e.calls then OwnSteps(acts, id) + Rank(e.calls[id].phase) <= 9
                                   else OwnSteps(acts, id) == 0)
    decreases |acts|
  {
    hide IsGasFree, SignedTx, VerifyTokens, BuildExec, BuildOwn, DecodedProof, RequireOperator;
    if acts != [] {
      var t := Next(lib, cfg, s, acts[0]);
      RankFalls(lib, cfg, t, acts[1..], id);
      if id in s.calls {
        hide Next, Enabled;
        StepLowersRank(lib, cfg, s, acts[0], id);
      }
    }
  }

  /** In every run a call makes at most nine steps, its arrival included, however long the run and
      whatever fails; at its ninth it is over. */
  lemma CallsAreShort(lib: Lib, cfg: Config, i: Instant, base: nat, acts: seq<Action>, id: CallId)
    requires Legal(lib, cfg, Start(i, base), acts)
    ensures OwnSteps(acts, id) <= 9
    ensures OwnSteps(acts, id) == 9 ==>
              var e := Exec(lib, cfg, Start(i, base), acts); id in e.calls && Over(e.calls[id].phase)
  {
    hide Legal, Exec;
    RankFalls(lib, cfg, Start(i, base), acts, id);
  }

  /** Gas-free calls interleave freely: whoever holds the sequence lock, a gas-free call can read,
      sign and send, and disturbs neither the lock nor the account. */
  lemma GasFreeNeverWaits(lib: Lib, cfg: Config, s: State, id: CallId, accepted: bool)
    requires s.past != [] && id in s.calls && s.calls[id].phase.Ready? && IsGasFree(lib, s.calls[id].phase.msg)
    ensures Enabled(lib, s, ReadAccount(id, true))
    ensures var t := Next(lib, cfg, s, ReadAccount(id, true));
            && t.ledger == s.ledger && Enabled(lib, t, Broadcast(id, accepted))
            && (var u := Next(lib, cfg, t, Broadcast(id, accepted));
                && u.ledger.mu == s.ledger.mu && u.ledger.next == s.ledger.next
                && |u.ledger.sent| == |s.ledger.sent| + 1 && u.ledger.sent[|s.ledger.sent|].tx.fee == []
                && u.calls == s.calls[id := Call(s.calls[id].from, Finished)])
  {
    var t := Next(lib, cfg, s, ReadAccount(id, true));
    assert t.calls[id].phase.Signed?;
    var done := Call(s.calls[id].from, Finished);
    assert t.calls[id := done] == s.calls[id := done];
  }

  /** Every transaction ever broadcast answers to one call of the run, the only transaction of that
      call. It has one message: a wrapper for what that call asked for under the proof it brought,
      within the grant the chain verified for, at a clock reading taken and with ceilings looked up
      while the call was under way; or the registry message that call asked for, authenticated as the
      operator. It carries fee coins exactly when it is not gas-free and the amount is not zero. */
  lemma BroadcastSafety(lib: Lib, cfg: Config, i: Instant, base: nat, acts: seq<Action>, n: nat) returns (k: nat)
    requires BuildersFaithful(lib) && Legal(lib, cfg, Start(i, base), acts)
    requires n < |Exec(lib, cfg, Start(i, base), acts).ledger.sent|
    ensures var s := Exec(lib, cfg, Start(i, base), acts); var x := s.ledger.sent[n];
            && x.id in s.calls && s.calls[x.id].from.at <= x.at < |s.past|
            && ArrivedAt(lib, cfg, Start(i, base), acts, x.id, s.calls[x.id].from, k)
            && Requested(s.past, s.params.slowest, s.calls[x.id].from, x.msg, x.cause)
            && (x.cause.Granted? ==> x.cause.check.at <= x.at)
            && Entitled(lib, cfg, x.msg, x.cause)
            && (x.cause.Granted? ==>
                  var op, action := x.cause.op, x.msg.inner.action;
                  && action in x.cause.v.actions
                  && (op.PlaceOrder? ==> action == "clob.place_order")
                  && (op.CancelOrder? ==> action == "clob.cancel_order")
                  && (op.BatchCancel? ==> action == "clob.batch_cancel")
                  && (op.Deposit? ==> action == "sending.deposit_to_subaccount"))
            && x.tx.msgs == [x.msg]
            && (x.tx.fee != [] <==> !IsGasFree(lib, x.msg) && lib.parseAmount(cfg.fee.amount) != Some(0))
            && (forall m :: 0 <= m < |s.ledger.sent| && s.ledger.sent[m].id == x.id ==> m == n)
  {
    hide Entitled, Warranted, Requested, ParamsInv, SequenceInv, LocksOwned, ArrivedAt, Legal, Exec, IsGasFree;
    ReachableInv(lib, cfg, i, base, acts);
    var s := Exec(lib, cfg, Start(i, base), acts);
    var x := s.ledger.sent[n];
    assert SentSafe(lib, cfg, s, x);
    WarrantedIsEntitled(lib, cfg, x.msg, x.cause);
    if x.cause.Granted? {
      EntitledAction(lib, cfg, x.msg, x.cause);
    }
    ArrivalsAreActions(lib, cfg, Start(i, base), acts, x.id);
    k :| ArrivedAt(lib, cfg, Start(i, base), acts, x.id, s.calls[x.id].from, k);
  }

  /** Behind every wrapper broadcast is a chain no longer than the chain's own depth ceiling, with no
      token meant to outlive its own ceiling, each hop of which the hop before allowed, that ends at
      this agent; and it was verified for this chain and agent, at an instant between the call's
      arrival and its broadcast at which its leaf was alive. */
  lemma BroadcastChainAlive(lib: Lib, cfg: Config, i: Instant, base: nat, acts: seq<Action>, n: nat)
    requires VerifierSound(lib) && Legal(lib, cfg, Start(i, base), acts)
    requires var sent := Exec(lib, cfg, Start(i, base), acts).ledger.sent; n < |sent| && sent[n].msg.Wrapper?
    ensures var s := Exec(lib, cfg, Start(i, base), acts); var x := s.ledger.sent[n];
            && x.cause.Granted? && x.id in s.calls
            && x.msg.executor == cfg.operator && x.msg.agentId == "did:svp:" + cfg.operator
            && s.calls[x.id].from.at <= x.cause.check.at <= x.at < |s.past|
            && VerifiedFor(lib, cfg, s.past, x.msg.tokens, x.cause.v, x.cause.check)
            && (forall k :: 1 <= k < |x.cause.v.tokens| && x.cause.v.tokens[k - 1].redelegateTo.Only? ==>
                  x.cause.v.tokens[k].audience in x.cause.v.tokens[k - 1].redelegateTo.audiences)
  {
    hide ParamsInv, SequenceInv, LocksOwned, Legal, Exec, IsGasFree, VerifiedFor;
    ReachableInv(lib, cfg, i, base, acts);
    var s := Exec(lib, cfg, Start(i, base), acts);
    var x := s.ledger.sent[n];
    assert SentSafe(lib, cfg, s, x);
    EntitledChain(lib, cfg, x.msg, x.cause);
    CheckVerifies(lib, cfg, s.past, s.calls[x.id].from.at, x.msg.tokens, x.cause.v, x.cause.check, s.params.slowest);
  }

  /** v is what the verifier answered for these tokens when asked with this agent's identity, the clock
      of instant check.at and the ceilings of instant check.asOf; and it keeps to them. */
  ghost predicate VerifiedFor(lib: Lib, cfg: Config, past: seq<Instant>, tokens: seq<Bytes>, v: Verified, check: Check)
  {
    && check.at < |past| && check.asOf < |past|
    && (var now, p, me := past[check.at].clock, past[check.asOf].params, "did:svp:" + cfg.operator;
        && lib.verify(tokens, VerifyOpts(cfg.chainId, now, p.maxDepth, p.maxTtl, me)) == Some(v)
        && 0 < |v.tokens| <= p.maxDepth && (forall t :: t in v.tokens ==> t.lifetime <= p.maxTtl)
        && v.tokens[|v.tokens| - 1].audience == me && now < v.leafExp)
  }

  lemma CheckVerifies(lib: Lib, cfg: Config, past: seq<Instant>, arrived: nat, tokens: seq<Bytes>, v: Verified,
                      check: Check, late: nat)
    requires VerifierSound(lib) && CheckOk(past, arrived, check, late)
    requires lib.verify(tokens, OptsFor(cfg, check.params, check.now)) == Some(v)
    ensures VerifiedFor(lib, cfg, past, tokens, v, check)
  {}

  lemma EntitledAction(lib: Lib, cfg: Config, m: Msg, cause: Cause)
    requires BuildersFaithful(lib) && Entitled(lib, cfg, m, cause) && cause.Granted?
    ensures m.inner.action in cause.v.actions
    ensures cause.op.PlaceOrder? ==> m.inner.action == "clob.place_order"
    ensures cause.op.CancelOrder? ==> m.inner.action == "clob.cancel_order"
    ensures cause.op.BatchCancel? ==> m.inner.action == "clob.batch_cancel"
    ensures cause.op.Deposit? ==> m.inner.action == "sending.deposit_to_subaccount"
  {
    assert lib.build(cause.op, cause.v.principal) == Some(m.inner);
  }

  /** A read that was authorized rests on the proof it came with, verified while it was under way for
      this chain and agent under the chain's own ceilings. */
  lemma ReadsVerified(lib: Lib, cfg: Config, i: Instant, base: nat, acts: seq<Action>, id: CallId) returns (k: nat)
    requires Legal(lib, cfg, Start(i, base), acts)
    requires var s := Exec(lib, cfg, Start(i, base), acts); id in s.calls && s.calls[id].phase.ReadVerified?
    ensures var s := Exec(lib, cfg, Start(i, base), acts); var c := s.calls[id]; var ph := c.phase;
            && ArrivedAt(lib, cfg, Start(i, base), acts, id, c.from, k)
            && c.from.req.ReadProof? && Decodes(lib, c.from.proof, ph.tokens)
            && lib.verify(ph.tokens, OptsFor(cfg, ph.check.params, ph.check.now)) == Some(ph.v)
            && LinksAllowed(ph.v.tokens) && CheckOk(s.past, c.from.at, ph.check, s.params.slowest)
            && (VerifierSound(lib) ==> VerifiedFor(lib, cfg, s.past, ph.tokens, ph.v, ph.check))
  {
    hide ParamsInv, SequenceInv, LocksOwned, Legal, Exec, ArrivedAt, LinksAllowed, CheckOk, VerifierSound, VerifiedFor;
    ReachableInv(lib, cfg, i, base, acts);
    var s := Exec(lib, cfg, Start(i, base), acts);
    var c := s.calls[id];
    assert CallSafe(lib, cfg, s.past, s.params.slowest, c);
    ArrivalsAreActions(lib, cfg, Start(i, base), acts, id);
    k :| ArrivedAt(lib, cfg, Start(i, base), acts, id, c.from, k);
    if VerifierSound(lib) {
      CheckVerifies(lib, cfg, s.past, c.from.at, c.phase.tokens, c.phase.v, c.phase.check, s.params.slowest);
    }
  }

  // ---- the params section, run undisturbed ----------------------------------------------------

  ghost predicate StepsTo(lib: Lib, cfg: Config, s: State, a: Action, t: State) {
    Enabled(lib, s, a) && Next(lib, cfg, s, a) == t
  }

  /** A run given state by state. */
  lemma {:induction false} Chain(lib: Lib, cfg: Config, states: seq<State>, acts: seq<Action>)
    requires |states| == |acts| + 1
    requires forall j :: 0 <= j < |acts| ==> StepsTo(lib, cfg, states[j], acts[j], states[j + 1])
    ensures Legal(lib, cfg, states[0], acts) && Exec(lib, cfg, states[0], acts) == states[|acts|]
    decreases |acts|
  {
    hide Enabled, Next;
    if acts != [] {
      assert StepsTo(lib, cfg, states[0], acts[0], states[1]);
      Chain(lib, cfg, states[1..], acts[1..]);
    }
  }

  /** A walletParams call of the step machine with nothing but the clock moving in between. */
  function ParamsAlone(s: State, id: CallId, reached: bool, d: nat): seq<Action>
    requires s.past != []
  {
    if ParamsFresh(s.params.cached, s.params.fetched, Now(s).clock) then [LockParams(id), CheckParams(id)]
    else if !reached then [LockParams(id), CheckParams(id), AnswerParams(id, false)]
    else [LockParams(id), CheckParams(id), AnswerParams(id, true), Tick(d), StampParams(id)]
  }

  /** It leaves the cache, and hands the call the parameters, as the sequential method would. */
  lemma ParamsAloneIsOnce(lib: Lib, cfg: Config, s: State, id: CallId, reached: bool, d: nat)
    requires s.past != [] && id in s.calls && s.calls[id].phase.NeedParams? && s.params.mu == None
    ensures Legal(lib, cfg, s, ParamsAlone(s, id, reached, d))
    ensures var e := Exec(lib, cfg, s, ParamsAlone(s, id, reached, d));
            var answer := if reached then Some(Now(s).params) else None;
            var (r, cached, fetched) :=
              ParamsOnce(s.params.cached, s.params.fetched, Now(s).clock, answer, Now(s).clock + d);
            && e.params.mu == None && e.params.cached == cached && e.params.fetched == fetched
            && id in e.calls && e.calls[id].from == s.calls[id].from && e.ledger == s.ledger
            && e.past != [] && Now(s).clock <= Now(e).clock <= Now(s).clock + d
            && (e.calls[id].phase.HaveParams? ==> e.calls[id].phase.tokens == s.calls[id].phase.tokens)
            && (match r case None => e.calls[id].phase.Finished?
                case Some(p) => e.calls[id].phase.HaveParams? && e.calls[id].phase.params == p)
  {
    hide Legal, Exec, DecodedProof, RequireOperator, BuildOwn, VerifyTokens, BuildExec, SignedTx, IsGasFree;
    var s1 := Next(lib, cfg, s, LockParams(id));
    var s2 := Next(lib, cfg, s1, CheckParams(id));
    if ParamsFresh(s.params.cached, s.params.fetched, Now(s).clock) {
      Chain(lib, cfg, [s, s1, s2], [LockParams(id), CheckParams(id)]);
    } else {
      var s3 := Next(lib, cfg, s2, AnswerParams(id, reached));
      if reached {
        var s4 := Next(lib, cfg, s3, Tick(d));
        var s5 := Next(lib, cfg, s4, StampParams(id));
        Chain(lib, cfg, [s, s1, s2, s3, s4, s5],
              [LockParams(id), CheckParams(id), AnswerParams(id, true), Tick(d), StampParams(id)]);
      } else {
        Chain(lib, cfg, [s, s1, s2, s3], [LockParams(id), CheckParams(id), AnswerParams(id, false)]);
      }
    }
  }

  // ---- a whole call, run undisturbed -----------------------------------------------------------

  /** What a call does once its message is ready. */
  function Send(lib: Lib, id: CallId, m: Msg, accepted: bool): seq<Action> {
    (if IsGasFree(lib, m) then [] else [LockSequence(id)]) + [ReadAccount(id, true), Broadcast(id, accepted)]
  }

  /** The broadcast, and its effect on the account, that a ready message ends in. */
  predicate SentNow(lib: Lib, s: State, e: State, id: CallId, m: Msg, tx: Tx, accepted: bool) {
    && id in e.calls && e.calls[id].phase.Finished? && e.ledger.mu == s.ledger.mu
    && |e.ledger.sent| == |s.ledger.sent| + 1 && e.ledger.sent[..|s.ledger.sent|] == s.ledger.sent
    && (var x := e.ledger.sent[|s.ledger.sent|];
        x.id == id && x.msg == m && x.tx == tx && x.sequence == s.ledger.next && x.accepted == accepted)
    && e.ledger.next == s.ledger.next + if accepted && !IsGasFree(lib, m) then 1 else 0
  }

  /** A ready message is sent, at the account's sequence and with the fee that is due, and leaves the
      lock free. */
  lemma ReadySends(lib: Lib, cfg: Config, s: State, id: CallId, accepted: bool)
    requires s.past != [] && id in s.calls && s.calls[id].phase.Ready? && s.ledger.mu == None
    requires SignedTx(lib, [s.calls[id].phase.msg], s.ledger.next, cfg.fee, IsGasFree(lib, s.calls[id].phase.msg)).Some?
    ensures var m := s.calls[id].phase.msg;
            var tx := SignedTx(lib, [m], s.ledger.next, cfg.fee, IsGasFree(lib, m)).value;
            && Legal(lib, cfg, s, Send(lib, id, m, accepted))
            && Exec(lib, cfg, s, Send(lib, id, m, accepted)).params == s.params
            && SentNow(lib, s, Exec(lib, cfg, s, Send(lib, id, m, accepted)), id, m, tx, accepted)
  {
    hide Legal, Exec, IsGasFree;
    var m := s.calls[id].phase.msg;
    SignedSequence(lib, [m], s.ledger.next, cfg.fee, IsGasFree(lib, m));
    hide SignedTx;
    var a, b := ReadAccount(id, true), Broadcast(id, accepted);
    if IsGasFree(lib, m) {
      var s1 := Next(lib, cfg, s, a);
      Chain(lib, cfg, [s, s1, Next(lib, cfg, s1, b)], [a, b]);
      assert Send(lib, id, m, accepted) == [a, b];
    } else {
      var s1 := Next(lib, cfg, s, LockSequence(id));
      var s2 := Next(lib, cfg, s1, a);
      Chain(lib, cfg, [s, s1, s2, Next(lib, cfg, s2, b)], [LockSequence(id), a, b]);
      assert Send(lib, id, m, accepted) == [LockSequence(id), a, b];
    }
  }

  /** An execute call that has its parameters sends the message its operation is built into, or ends
      without sending when the proof does not verify or nothing is built. */
  lemma ExecuteSends(lib: Lib, cfg: Config, s: State, id: CallId, accepted: bool) returns (acts: seq<Action>)
    requires s.past != [] && id in s.calls && s.calls[id].phase.HaveParams? && s.calls[id].from.req.Execute?
    requires s.ledger.mu == None
    ensures Legal(lib, cfg, s, acts) && Exec(lib, cfg, s, acts).params == s.params
    ensures var c, e := s.calls[id], Exec(lib, cfg, s, acts);
            var v := VerifyTokens(lib, cfg, c.phase.tokens, c.phase.params, Now(s).clock);
            if v.Err? || BuildExec(lib, cfg, c.from.req.op, c.phase.tokens, v.value).Err?
            then id in e.calls && e.calls[id].phase.Finished? && e.ledger == s.ledger
            else
              var m := BuildExec(lib, cfg, c.from.req.op, c.phase.tokens, v.value).value;
              var tx := SignedTx(lib, [m], s.ledger.next, cfg.fee, IsGasFree(lib, m));
              tx.Some? ==> SentNow(lib, s, e, id, m, tx.value, accepted)
  {
    hide Legal, Exec, SignedTx, IsGasFree, VerifyTokens, BuildExec;
    var a := Prepare(id);
    var t := Next(lib, cfg, s, a);
    Chain(lib, cfg, [s, t], [a]);
    acts := [a];
    if t.calls[id].phase.Ready? {
      var m := t.calls[id].phase.msg;
      if SignedTx(lib, [m], t.ledger.next, cfg.fee, IsGasFree(lib, m)).Some? {
        ReadySends(lib, cfg, t, id, accepted);
        Join(lib, cfg, s, [a], Send(lib, id, m, accepted));
        acts := [a] + Send(lib, id, m, accepted);
      }
    }
  }

  /** An execute request whose proof decodes, met by a chain that answers, ends exactly so. */
  lemma ExecuteAlone(lib: Lib, cfg: Config, s: State, id: CallId, op: ExecOp, proof: seq<string>, d: nat,
                     accepted: bool)
    returns (acts: seq<Action>, e1: State)
    requires s.past != [] && id !in s.calls && s.params.mu == None && s.ledger.mu == None
    requires DecodedProof(lib, proof).Ok?
    ensures Legal(lib, cfg, s, acts) && e1.past != [] && Now(s).clock <= Now(e1).clock <= Now(s).clock + d
    ensures var tokens, e := DecodedProof(lib, proof).value, Exec(lib, cfg, s, acts);
            var p := if ParamsFresh(s.params.cached, s.params.fetched, Now(s).clock) then s.params.cached.value
                     else Now(s).params;
            var v := VerifyTokens(lib, cfg, tokens, p, Now(e1).clock);
            && e.params.mu == None
            && if v.Err? || BuildExec(lib, cfg, op, tokens, v.value).Err?
               then id in e.calls && e.calls[id].phase.Finished? && e.ledger == s.ledger
               else
                 var m := BuildExec(lib, cfg, op, tokens, v.value).value;
                 var tx := SignedTx(lib, [m], s.ledger.next, cfg.fee, IsGasFree(lib, m));
                 tx.Some? ==> SentNow(lib, s, e, id, m, tx.value, accepted)
  {
    hide Legal, Exec, DecodedProof, SignedTx, IsGasFree, VerifyTokens, BuildExec;
    var a := Arrive(id, Execute(op), proof, None);
    var t := Next(lib, cfg, s, a);
    Chain(lib, cfg, [s, t], [a]);
    var mid := ParamsAlone(t, id, true, d);
    ParamsAloneIsOnce(lib, cfg, t, id, true, d);
    Join(lib, cfg, s, [a], mid);
    e1 := Exec(lib, cfg, t, mid);
    var last := ExecuteSends(lib, cfg, e1, id, accepted);
    Join(lib, cfg, s, [a] + mid, last);
    acts := [a] + mid + last;
  }

  /** A read's proof, met by a chain that answers, is verified exactly when it decodes and verifies. */
  lemma ReadAlone(lib: Lib, cfg: Config, s: State, id: CallId, proof: seq<string>, d: nat)
    returns (acts: seq<Action>, e1: State)
    requires s.past != [] && id !in s.calls && s.params.mu == None
    ensures Legal(lib, cfg, s, acts) && e1.past != []
    ensures var e := Exec(lib, cfg, s, acts);
            var p := if ParamsFresh(s.params.cached, s.params.fetched, Now(s).clock) then s.params.cached.value
                     else Now(s).params;
            && e.params.mu == None && e.ledger == s.ledger && id in e.calls && Over(e.calls[id].phase)
            && (e.calls[id].phase.ReadVerified? <==>
                  && DecodedProof(lib, proof).Ok?
                  && VerifyTokens(lib, cfg, DecodedProof(lib, proof).value, p, Now(e1).clock).Ok?)
            && (e.calls[id].phase.ReadVerified? ==>
                  Ok(e.calls[id].phase.v)
                    == VerifyTokens(lib, cfg, DecodedProof(lib, proof).value, p, Now(e1).clock))
  {
    hide Legal, Exec, DecodedProof, VerifyTokens;
    var a := Arrive(id, ReadProof, proof, None);
    var t := Next(lib, cfg, s, a);
    Chain(lib, cfg, [s, t], [a]);
    acts, e1 := [a], t;
    if DecodedProof(lib, proof).Ok? {
      var mid := ParamsAlone(t, id, true, d);
      ParamsAloneIsOnce(lib, cfg, t, id, true, d);
      Join(lib, cfg, s, [a], mid);
      e1 := Exec(lib, cfg, t, mid);
      var b := Prepare(id);
      Chain(lib, cfg, [e1, Next(lib, cfg, e1, b)], [b]);
      Join(lib, cfg, s, [a] + mid, [b]);
      acts := [a] + mid + [b];
    }
  }

  /** An own registration or update asked for as the operator sends its message; anyone else's request
      ends at once. */
  lemma OwnAlone(lib: Lib, cfg: Config, s: State, id: CallId, tenant: Option<string>, bond: Option<nat>, accepted: bool)
    returns (acts: seq<Action>)
    requires s.past != [] && id !in s.calls && s.ledger.mu == None
    ensures Legal(lib, cfg, s, acts)
    ensures var e := Exec(lib, cfg, s, acts);
            if RequireOperator(lib, cfg, tenant).Some? || BuildOwn(lib, cfg, bond).Err?
            then id in e.calls && e.calls[id].phase.Finished? && e.ledger == s.ledger
            else
              var m := BuildOwn(lib, cfg, bond).value;
              var tx := SignedTx(lib, [m], s.ledger.next, cfg.fee, false);
              tx.Some? ==> SentNow(lib, s, e, id, m, tx.value, accepted)
  {
    hide Legal, Exec, SignedTx, IsGasFree, RequireOperator, BuildOwn;
    var a := Arrive(id, if bond.Some? then OwnRegister else OwnUpdate, [], tenant);
    var t := Next(lib, cfg, s, a);
    Chain(lib, cfg, [s, t], [a]);
    acts := [a];
    if t.calls[id].phase.NeedBond? {
      var u := Next(lib, cfg, t, Bond(id, bond));
      TenantGiven(lib, cfg, tenant);
      Chain(lib, cfg, [t, u], [Bond(id, bond)]);
      Join(lib, cfg, s, acts, [Bond(id, bond)]);
      acts, t := acts + [Bond(id, bond)], u;
    }
    if t.calls[id].phase.Ready? {
      var m := t.calls[id].phase.msg;
      OwnPays(lib, cfg, bond);
      if SignedTx(lib, [m], t.ledger.next, cfg.fee, false).Some? {
        ReadySends(lib, cfg, t, id, accepted);
        Join(lib, cfg, s, acts, Send(lib, id, m, accepted));
        acts := acts + Send(lib, id, m, accepted);
      }
    }
  }

  lemma TenantGiven(lib: Lib, cfg: Config, tenant: Option<string>)
    ensures RequireOperator(lib, cfg, tenant).None? ==> tenant.Some?
  {}

  lemma OwnPays(lib: Lib, cfg: Config, bond: Option<nat>)
    ensures BuildOwn(lib, cfg, bond).Ok? ==> !IsGasFree(lib, BuildOwn(lib, cfg, bond).value)
  {}

  // ---- the bound on the ceilings is tight -------------------------------------------------------

  /** Two runs joined. */
  lemma {:induction false} Join(lib: Lib, cfg: Config, s: State, a: seq<Action>, b: seq<Action>)
    requires Legal(lib, cfg, s, a) && Legal(lib, cfg, Exec(lib, cfg, s, a), b)
    ensures Legal(lib, cfg, s, a + b)
    ensures Exec(lib, cfg, s, a + b) == Exec(lib, cfg, Exec(lib, cfg, s, a), b)
    decreases |a|
  {
    hide Enabled, Next;
    if a == [] {
      assert a + b == b;
    } else {
      Join(lib, cfg, Next(lib, cfg, s, a[0]), a[1..], b);
      assert (a + b)[1..] == a[1..] + b;
    }
  }

  function Enter(id: CallId, proof: seq<string>): seq<Action> {
    [Arrive(id, ReadProof, proof, None), LockParams(id), CheckParams(id)]
  }

  /** A call comes in and looks at the cache. */
  lemma Entering(lib: Lib, cfg: Config, s: State, id: CallId, proof: seq<string>)
    requires s.past != [] && id !in s.calls && s.params.mu == None && DecodedProof(lib, proof).Ok?
    ensures Legal(lib, cfg, s, Enter(id, proof))
    ensures var p, last, tokens := s.params, |s.past| - 1, DecodedProof(lib, proof).value;
            var isFresh := ParamsFresh(p.cached, p.fetched, Now(s).clock);
            var phase := if isFresh then HaveParams(tokens, p.cached.value, last, p.asOf)
                         else AskingParams(tokens, last);
            Exec(lib, cfg, s, Enter(id, proof))
              == s.(params := if isFresh then p else p.(mu := Some(id)),
                    calls := s.calls[id := Call(Arrival(ReadProof, proof, None, last), phase)])
  {
    hide Legal, Exec, DecodedProof;
    var s1 := Next(lib, cfg, s, Arrive(id, ReadProof, proof, None));
    var s2 := Next(lib, cfg, s1, LockParams(id));
    var s3 := Next(lib, cfg, s2, CheckParams(id));
    Chain(lib, cfg, [s, s1, s2, s3], Enter(id, proof));
    var c := s3.calls[id];
    assert s.calls[id := c] == s3.calls;
  }

  /** The chain answers, its params change, and the answer is stamped only `late` seconds after. */
  lemma LateAnswer(lib: Lib, cfg: Config, s: State, id: CallId, p: Params, late: nat) returns (acts: seq<Action>)
    requires s.past != [] && id in s.calls && s.calls[id].phase.AskingParams? && s.params.slowest == 0
    ensures Legal(lib, cfg, s, acts)
    ensures var now := Now(s); var e := Exec(lib, cfg, s, acts);
            && e.past == s.past + [Instant(now.clock, p), Instant(now.clock + late, p)]
            && e.params == ParamsState(None, Some(now.params), now.clock + late,
                                       s.params.fetches + [now.clock + late], |s.past| - 1, late)
            && e.calls.Keys == s.calls.Keys
  {
    hide Legal, Exec;
    acts := [AnswerParams(id, true), Govern(p), Tick(late), StampParams(id)];
    var s1 := Next(lib, cfg, s, acts[0]);
    var s2 := Next(lib, cfg, s1, acts[1]);
    var s3 := Next(lib, cfg, s2, acts[2]);
    var s4 := Next(lib, cfg, s3, acts[3]);
    Chain(lib, cfg, [s, s1, s2, s3, s4], acts);
  }

  /** The TTL alone is no bound, nor is one second less than what is proved: for every wait there is a
      run in which a call goes on with ceilings that governance replaced TTL + late - 1 seconds before. */
  lemma CeilingsBoundIsTight(lib: Lib, cfg: Config, proof: seq<string>, p: Params, q: Params, late: nat)
    returns (acts: seq<Action>)
    requires DecodedProof(lib, proof).Ok?
    ensures Legal(lib, cfg, Start(Instant(0, p), 0), acts)
    ensures var e := Exec(lib, cfg, Start(Instant(0, p), 0), acts);
            && 1 in e.calls && e.calls[1].phase.HaveParams? && e.calls[1].phase.params == p
            && e.params.slowest == late && e.calls[1].phase.checked < |e.past| && |e.past| > 1
            && (forall k :: 1 <= k < |e.past| ==> e.past[k].params == q)
            && e.past[0] == Instant(0, p) && e.past[1].clock == 0
            && e.past[e.calls[1].phase.checked].clock - e.past[1].clock == PARAMS_TTL + late - 1
  {
    hide Legal, Exec, DecodedProof;
    var s := Start(Instant(0, p), 0);
    Entering(lib, cfg, s, 0, proof);
    var s1 := Exec(lib, cfg, s, Enter(0, proof));
    var wait := LateAnswer(lib, cfg, s1, 0, q, late);
    Join(lib, cfg, s, Enter(0, proof), wait);
    var s2 := Exec(lib, cfg, s1, wait);
    var s3 := Next(lib, cfg, s2, Tick(59));
    Chain(lib, cfg, [s2, s3], [Tick(59)]);
    Join(lib, cfg, s, Enter(0, proof) + wait, [Tick(59)]);
    Entering(lib, cfg, s3, 1, proof);
    acts := Enter(0, proof) + wait + [Tick(59)] + Enter(1, proof);
    Join(lib, cfg, s, Enter(0, proof) + wait + [Tick(59)], Enter(1, proof));
  }

  /** The ceilings a call goes on with are the chain's at some instant after its cache check, or less
      than the TTL before it. */
  ghost predicate WithinTtl(s: State, c: Phase)
    requires c.HaveParams?
  {
    exists k :: Looked(s.past, c.params, c.checked, k, 0)
  }

  ghost predicate CeilingsWithinTtl(lib: Lib, cfg: Config, i: Instant, base: nat, acts: seq<Action>, id: CallId,
                                    late: nat)
  {
    Legal(lib, cfg, Start(i, base), acts) && Exec(lib, cfg, Start(i, base), acts).params.slowest <= late
    && id in Exec(lib, cfg, Start(i, base), acts).calls
    && Exec(lib, cfg, Start(i, base), acts).calls[id].phase.HaveParams?
    ==> WithinTtl(Exec(lib, cfg, Start(i, base), acts), Exec(lib, cfg, Start(i, base), acts).calls[id].phase)
  }

  /** For the ceilings, too, the TTL by itself is the bound exactly when no answer waits for its stamp. */
  lemma TtlBoundsExactlyAtOnce(lib: Lib, cfg: Config, proof: seq<string>, p: Params, q: Params, late: nat)
    requires DecodedProof(lib, proof).Ok? && p != q
    ensures late == 0 <==> forall i, base, acts, id :: CeilingsWithinTtl(lib, cfg, i, base, acts, id, late)
  {
    hide Legal, Exec, DecodedProof;
    if late == 0 {
      forall i, base, acts, id ensures CeilingsWithinTtl(lib, cfg, i, base, acts, id, late) {
        if Legal(lib, cfg, Start(i, base), acts) {
          var s := Exec(lib, cfg, Start(i, base), acts);
          if s.params.slowest <= late && id in s.calls && s.calls[id].phase.HaveParams? {
            BoundedCeilings(lib, cfg, i, base, acts, id);
            assert Looked(s.past, s.calls[id].phase.params, s.calls[id].phase.checked, s.calls[id].phase.asOf, 0);
          }
        }
      }
    } else {
      var acts := CeilingsBoundIsTight(lib, cfg, proof, p, q, late);
      var s := Exec(lib, cfg, Start(Instant(0, p), 0), acts);
      var c := s.calls[1].phase;
      forall k: nat ensures !Looked(s.past, c.params, c.checked, k, 0) {
        assert 1 <= k < |s.past| ==> s.past[k].params == q;
        assert c.checked != 0;
      }
      assert !CeilingsWithinTtl(lib, cfg, Instant(0, p), 0, acts, 1, late);
    }
  }

  // ---- how often the params are asked for, failures included --------------------------------------

  /** The query a step makes, if it makes one. */
  function QueryOf(lib: Lib, s: State, a: Action): seq<Query>
    requires Enabled(lib, s, a)
  {
    if a.AnswerParams? then [Query(Now(s).clock, a.reached)] else []
  }

  /** All params queries of a run, in order. */
  ghost function Queries(lib: Lib, cfg: Config, s: State, acts: seq<Action>): seq<Query>
    requires Legal(lib, cfg, s, acts)
    decreases |acts|
  {
    if acts == [] then [] else QueryOf(lib, s, acts[0]) + Queries(lib, cfg, Next(lib, cfg, s, acts[0]), acts[1..])
  }

  /** Unless an answer waits for its stamp, the cache holds the latest query's answer or a later one. */
  ghost predicate PaceInv(s: State, qs: seq<Query>) {
    && s.past != [] && Paced(qs, PARAMS_TTL) && (qs != [] ==> Last(qs).at <= Now(s).clock)
    && ((forall id :: id in s.calls ==> !s.calls[id].phase.ParamsAnswered?) && Resting(qs) ==>
          s.params.cached.Some? && Last(qs).at <= s.params.fetched)
  }

  lemma AnswerKeepsPace(lib: Lib, cfg: Config, s: State, a: Action, qs: seq<Query>)
    requires ParamsInv(s) && PaceInv(s, qs) && Enabled(lib, s, a) && a.AnswerParams?
    ensures PaceInv(Next(lib, cfg, s, a), qs + QueryOf(lib, s, a))
  {
    hide Spaced, Ordered;
    var q := Query(Now(s).clock, a.reached);
    assert ParamsCallOk(s.past, s.params, a.id, s.calls[a.id]);
    forall id | id in s.calls ensures !s.calls[id].phase.ParamsAnswered? {
      assert ParamsCallOk(s.past, s.params, id, s.calls[id]);
    }
    PacedGrows(qs, q, PARAMS_TTL);
    hide Paced;
    assert Last(qs + [q]) == q;
    assert Next(lib, cfg, s, a).calls[a.id].phase.ParamsAnswered? <==> a.reached;
  }

  lemma StepKeepsPace(lib: Lib, cfg: Config, s: State, a: Action, qs: seq<Query>)
    requires ParamsInv(s) && PaceInv(s, qs) && Enabled(lib, s, a)
    ensures PaceInv(Next(lib, cfg, s, a), qs + QueryOf(lib, s, a))
  {
    hide IsGasFree, SignedTx, VerifyTokens, BuildExec, BuildOwn, DecodedProof, RequireOperator, ParamsInv, Paced;
    if a.AnswerParams? {
      AnswerKeepsPace(lib, cfg, s, a, qs);
    } else {
      var t := Next(lib, cfg, s, a);
      assert qs + QueryOf(lib, s, a) == qs;
      assert Now(s).clock <= Now(t).clock;
      if !a.StampParams? {
        assert t.params.cached == s.params.cached && t.params.fetched == s.params.fetched;
        assert forall id :: id in s.calls && s.calls[id].phase.ParamsAnswered? ==>
          id in t.calls && t.calls[id].phase.ParamsAnswered?;
      }
    }
  }

  lemma {:induction false} RunKeepsPace(lib: Lib, cfg: Config, s: State, acts: seq<Action>, qs: seq<Query>)
    requires ParamsInv(s) && PaceInv(s, qs) && Legal(lib, cfg, s, acts)
    ensures PaceInv(Exec(lib, cfg, s, acts), qs + Queries(lib, cfg, s, acts))
    decreases |acts|
  {
    hide ParamsInv, PaceInv, QueryOf, Next, Enabled;
    if acts == [] {
      assert qs + [] == qs;
    } else {
      var t, q := Next(lib, cfg, s, acts[0]), QueryOf(lib, s, acts[0]);
      StepKeepsParams(lib, cfg, s, acts[0]);
      StepKeepsPace(lib, cfg, s, acts[0], qs);
      RunKeepsPace(lib, cfg, t, acts[1..], qs + q);
      assert qs + (q + Queries(lib, cfg, t, acts[1..])) == qs + q + Queries(lib, cfg, t, acts[1..]);
    }
  }

  lemma NothingAsked(i: Instant, base: nat)
    ensures ParamsInv(Start(i, base)) && PaceInv(Start(i, base), [])
  {}

  lemma PaceInvPaced(s: State, qs: seq<Query>)
    requires PaceInv(s, qs)
    ensures Paced(qs, PARAMS_TTL)
  {}

  /** In every interleaving a params query that was answered is followed by none for a TTL; n queries
      take a TTL for every answered one but the last. */
  lemma ParamsQueriesPaced(lib: Lib, cfg: Config, i: Instant, base: nat, acts: seq<Action>)
    requires Legal(lib, cfg, Start(i, base), acts)
    ensures var qs := Queries(lib, cfg, Start(i, base), acts);
            && Paced(qs, PARAMS_TTL)
            && (qs != [] ==> Last(qs).at - qs[0].at >= AnsweredCount(qs[..|qs| - 1]) * PARAMS_TTL)
  {
    hide Legal, Exec, Queries, Paced, PaceInv;
    var qs := Queries(lib, cfg, Start(i, base), acts);
    NothingAsked(i, base);
    RunKeepsPace(lib, cfg, Start(i, base), acts, []);
    assert [] + qs == qs;
    PaceInvPaced(Exec(lib, cfg, Start(i, base), acts), qs);
    if qs != [] {
      PacedSpan(qs, PARAMS_TTL);
    }
  }

  predicate NoFailure(acts: seq<Action>) {
    forall k :: 0 <= k < |acts| && acts[k].AnswerParams? ==> acts[k].reached
  }

  lemma {:induction false} NoFailureAnswersAll(lib: Lib, cfg: Config, s: State, acts: seq<Action>)
    requires Legal(lib, cfg, s, acts) && NoFailure(acts)
    ensures AllAnswered(Queries(lib, cfg, s, acts))
    decreases |acts|
  {
    hide Next, Enabled;
    if acts != [] {
      NoFailureAnswersAll(lib, cfg, Next(lib, cfg, s, acts[0]), acts[1..]);
    }
  }

  lemma {:induction false} JoinQueries(lib: Lib, cfg: Config, s: State, a: seq<Action>, b: seq<Action>)
    requires Legal(lib, cfg, s, a) && Legal(lib, cfg, Exec(lib, cfg, s, a), b)
    ensures Legal(lib, cfg, s, a + b)
    ensures Queries(lib, cfg, s, a + b) == Queries(lib, cfg, s, a) + Queries(lib, cfg, Exec(lib, cfg, s, a), b)
    decreases |a|
  {
    hide QueryOf, Enabled, Next;
    Join(lib, cfg, s, a, b);
    if a == [] {
      assert a + b == b;
    } else {
      JoinQueries(lib, cfg, Next(lib, cfg, s, a[0]), a[1..], b);
      assert (a + b)[1..] == a[1..] + b;
    }
  }

  lemma {:induction false} SplitRun(lib: Lib, cfg: Config, s: State, acts: seq<Action>, k: nat)
    requires Legal(lib, cfg, s, acts) && k < |acts|
    ensures Legal(lib, cfg, s, acts[..k]) && Enabled(lib, Exec(lib, cfg, s, acts[..k]), acts[k])
    decreases |acts|
  {
    hide Enabled, Next;
    if k > 0 {
      SplitRun(lib, cfg, Next(lib, cfg, s, acts[0]), acts[1..], k - 1);
      assert acts[..k][1..] == acts[1..][..k - 1] && acts[..k][0] == acts[0];
    }
  }

  /** A call that finds nothing fresh asks, and is answered or not. */
  function EnterAndAsk(id: CallId, proof: seq<string>, reached: bool): seq<Action> {
    Enter(id, proof) + [AnswerParams(id, reached)]
  }

  lemma Asks(lib: Lib, cfg: Config, s: State, id: CallId, proof: seq<string>, reached: bool)
    requires s.past != [] && id !in s.calls && s.params.mu == None && DecodedProof(lib, proof).Ok?
    requires !ParamsFresh(s.params.cached, s.params.fetched, Now(s).clock)
    ensures Legal(lib, cfg, s, EnterAndAsk(id, proof, reached))
    ensures Queries(lib, cfg, s, EnterAndAsk(id, proof, reached)) == [Query(Now(s).clock, reached)]
    ensures var e := Exec(lib, cfg, s, EnterAndAsk(id, proof, reached));
            e.past == s.past && e.calls.Keys == s.calls.Keys + {id} && (!reached ==> e.params == s.params)
  {
    hide Legal, Exec, Queries, DecodedProof;
    Entering(lib, cfg, s, id, proof);
    var e, a := Exec(lib, cfg, s, Enter(id, proof)), AnswerParams(id, reached);
    Chain(lib, cfg, [e, Next(lib, cfg, e, a)], [a]);
    Join(lib, cfg, s, Enter(id, proof), [a]);
    JoinQueries(lib, cfg, s, Enter(id, proof), [a]);
    QueriesOf(lib, cfg, s, Enter(id, proof));
    OneQuery(lib, cfg, e, a);
    assert [] + [Query(Now(s).clock, reached)] == [Query(Now(s).clock, reached)];
  }

  lemma {:induction false} QueriesOf(lib: Lib, cfg: Config, s: State, acts: seq<Action>)
    requires Legal(lib, cfg, s, acts) && forall k :: 0 <= k < |acts| ==> !acts[k].AnswerParams?
    ensures Queries(lib, cfg, s, acts) == []
    decreases |acts|
  {
    hide Enabled, Next;
    if acts != [] {
      QueriesOf(lib, cfg, Next(lib, cfg, s, acts[0]), acts[1..]);
    }
  }

  lemma OneQuery(lib: Lib, cfg: Config, s: State, a: Action)
    requires Legal(lib, cfg, s, [a])
    ensures Enabled(lib, s, a) && Queries(lib, cfg, s, [a]) == QueryOf(lib, s, a)
  {
    hide Enabled, Next, QueryOf;
    assert [a][0] == a && [a][1..] == [];
    assert QueryOf(lib, s, a) + [] == QueryOf(lib, s, a);
  }

  function AskInVain(proof: seq<string>, n: nat): seq<Action> {
    if n == 0 then [] else EnterAndAsk(n - 1, proof, false) + AskInVain(proof, n - 1)
  }

  /** A query that fails is not remembered here either: while the chain does not answer, every call
      asks again, one after another and all in one second. */
  lemma {:induction false} FailedParamsAlwaysAsked(lib: Lib, cfg: Config, s: State, proof: seq<string>, n: nat)
    requires s.past != [] && s.params.mu == None && DecodedProof(lib, proof).Ok?
    requires !ParamsFresh(s.params.cached, s.params.fetched, Now(s).clock)
    requires forall id :: id in s.calls ==> id >= n
    ensures Legal(lib, cfg, s, AskInVain(proof, n))
    ensures |Queries(lib, cfg, s, AskInVain(proof, n))| == n
    ensures forall q :: q in Queries(lib, cfg, s, AskInVain(proof, n)) ==> q == Query(Now(s).clock, false)
    ensures var e := Exec(lib, cfg, s, AskInVain(proof, n)); e.past == s.past && e.params == s.params
    decreases n
  {
    hide Legal, Exec, Queries, DecodedProof;
    if n == 0 {
      QueriesOfNothing(lib, cfg, s);
    } else {
      var first := EnterAndAsk(n - 1, proof, false);
      Asks(lib, cfg, s, n - 1, proof, false);
      var e := Exec(lib, cfg, s, first);
      FailedParamsAlwaysAsked(lib, cfg, e, proof, n - 1);
      Join(lib, cfg, s, first, AskInVain(proof, n - 1));
      JoinQueries(lib, cfg, s, first, AskInVain(proof, n - 1));
    }
  }

  lemma QueriesOfNothing(lib: Lib, cfg: Config, s: State)
    ensures Legal(lib, cfg, s, []) && Exec(lib, cfg, s, []) == s && Queries(lib, cfg, s, []) == []
  {}

  /** A run that shares the first k steps of acts and has no failed query after them. */
  ghost predicate GoesOn(lib: Lib, cfg: Config, i: Instant, base: nat, acts: seq<Action>, k: nat, more: seq<Action>) {
    k <= |acts| && Legal(lib, cfg, Start(i, base), acts[..k] + more) && NoFailure(more)
  }

  ghost predicate KeepsRate(lib: Lib, cfg: Config, i: Instant, base: nat, run: seq<Action>) {
    Legal(lib, cfg, Start(i, base), run) && EveryTtl(Queries(lib, cfg, Start(i, base), run), PARAMS_TTL)
  }

  lemma FailureBreaks(lib: Lib, cfg: Config, i: Instant, base: nat, acts: seq<Action>, j: nat)
    returns (more: seq<Action>)
    requires Legal(lib, cfg, Start(i, base), acts) && j < |acts| && acts[j].AnswerParams? && !acts[j].reached
    ensures GoesOn(lib, cfg, i, base, acts, j + 1, more) && !KeepsRate(lib, cfg, i, base, acts[..j + 1] + more)
  {
    hide Legal, Exec, Queries, EveryTtl, DecodedProof, SequenceInv, LocksOwned;
    var s, pre, a := Start(i, base), acts[..j], acts[j];
    SplitRun(lib, cfg, s, acts, j);
    ReachableInv(lib, cfg, i, base, pre);
    var e := Exec(lib, cfg, s, pre);
    var c, t := e.calls[a.id], Next(lib, cfg, e, a);
    assert ParamsCallOk(e.past, e.params, a.id, c) && CallSafe(lib, cfg, e.past, e.params.slowest, c);
    Chain(lib, cfg, [e, t], [a]);
    Join(lib, cfg, s, pre, [a]);
    JoinQueries(lib, cfg, s, pre, [a]);
    OneQuery(lib, cfg, e, a);
    assert acts[..j + 1] == pre + [a];
    var id := FreshId(t.calls.Keys);
    assert id !in t.calls;
    more := EnterAndAsk(id, c.from.proof, true);
    Asks(lib, cfg, t, id, c.from.proof, true);
    Join(lib, cfg, s, pre + [a], more);
    JoinQueries(lib, cfg, s, pre + [a], more);
    var now := Now(e).clock;
    AtOnce(Queries(lib, cfg, s, pre), Query(now, false), Query(now, true), PARAMS_TTL);
  }

  /** The params cache, whose lock is held across the query, bounds the rate of all queries exactly
      while none fails: a run has no failed query if and only if the rate holds on every run that goes
      on without one from any point of it. */
  lemma ParamsRateExact(lib: Lib, cfg: Config, i: Instant, base: nat, acts: seq<Action>)
    requires Legal(lib, cfg, Start(i, base), acts)
    ensures NoFailure(acts)
            <==> forall k: nat, more: seq<Action> ::
                   GoesOn(lib, cfg, i, base, acts, k, more) ==> KeepsRate(lib, cfg, i, base, acts[..k] + more)
  {
    hide Legal, Queries, EveryTtl, Paced;
    if NoFailure(acts) {
      forall k: nat, more | GoesOn(lib, cfg, i, base, acts, k, more)
        ensures KeepsRate(lib, cfg, i, base, acts[..k] + more)
      {
        var run := acts[..k] + more;
        NoFailureAnswersAll(lib, cfg, Start(i, base), run);
        ParamsQueriesPaced(lib, cfg, i, base, run);
        PacedIsEveryTtl(Queries(lib, cfg, Start(i, base), run), PARAMS_TTL);
      }
    } else {
      var j :| 0 <= j < |acts| && acts[j].AnswerParams? && !acts[j].reached;
      var more := FailureBreaks(lib, cfg, i, base, acts, j);
      assert GoesOn(lib, cfg, i, base, acts, j + 1, more);
    }
  }
}
