/** Delegated reads as one protocol: verification by the service, the root check and the admission
    of the tenant are steps of the same calls, over both caches and the tenant table, and all of them
    read one clock. */
module Reads {
  import opened Basics
  import opened Delegation
  import opened ReadTenants
  import Pipeline
  import RootState
  import Service

  type CallId = nat

  /** The two caches' machines side by side, and the table. The rest is history: the instant each call
      was admitted at, and the admissions in order with the calls that made them. */
  datatype State = State(svc: Service.State, root: RootState.State, table: Table,
                         admitted: map<CallId, nat>, ops: seq<Op>, who: seq<CallId>)

  datatype Action =
    | Tick(seconds: nat)
    | Govern(params: Params)
    | Change(root: RootState.RootId, record: Option<RootState.RootRecord>)
    | Svc(s: Service.Action)
    | Check(id: CallId, credential: RootState.Credential)
    | Root(r: RootState.Action)
    | Grant(id: CallId)

  function CredentialOf(v: Verified): RootState.Credential { RootState.Credential(v.root, v.rootEpoch) }

  function Start(i: Service.Instant, base: nat, ri: RootState.Instant): State {
    State(Service.Start(i, base), RootState.Start(ri), map[], map[], [], [])
  }

  /** What a step does in either machine. A change seen by one is a moment passing in the other. */
  function SvcPart(a: Action): Option<Service.Action> {
    match a
    case Tick(n) => Some(Service.Tick(n))
    case Govern(p) => Some(Service.Govern(p))
    case Change(_, _) => Some(Service.Tick(0))
    case Svc(b) => Some(b)
    case _ => None
  }

  function RootPart(a: Action): Option<RootState.Action> {
    match a
    case Tick(n) => Some(RootState.Tick(n))
    case Govern(_) => Some(RootState.Tick(0))
    case Change(r, x) => Some(RootState.Change(r, x))
    case Check(id, v) => Some(RootState.Begin(id, v))
    case Root(b) => Some(b)
    case _ => None
  }

  /** A call may check the root of the credential it has verified, once that grants account queries;
      it is admitted once the root was accepted. */
  predicate InOrder(s: State, a: Action) {
    match a
    case Svc(b) => !Service.Outside(b)
    case Check(id, v) =>
      && id in s.svc.calls && s.svc.calls[id].phase.ReadVerified?
      && Pipeline.QUERY_ACCOUNT in s.svc.calls[id].phase.v.actions && v == CredentialOf(s.svc.calls[id].phase.v)
    case Root(b) => b.Ask? || b.Stamp? || b.Store? || b.Decide?
    case Grant(id) =>
      && id in s.root.calls && s.root.calls[id].Done? && s.root.calls[id].verdict == RootState.Accepted
      && id !in s.admitted && id in s.svc.calls && s.svc.calls[id].phase.ReadVerified? && s.svc.past != []
    case _ => true
  }

  predicate Enabled(lib: Lib, s: State, a: Action) {
    && InOrder(s, a)
    && (SvcPart(a).Some? ==> Service.Enabled(lib, s.svc, SvcPart(a).value))
    && (RootPart(a).Some? ==> RootState.Enabled(s.root, RootPart(a).value))
  }

  ghost function Next(lib: Lib, cfg: Config, s: State, a: Action): State
    requires Enabled(lib, s, a)
  {
    var svc := if SvcPart(a).Some? then Service.Next(lib, cfg, s.svc, SvcPart(a).value) else s.svc;
    var root := if RootPart(a).Some? then RootState.Next(s.root, RootPart(a).value) else s.root;
    if a.Grant? then
      var v, now := s.svc.calls[a.id].phase.v, Service.Now(s.svc).clock;
      State(svc, root, Admitted(s.table, v, now), s.admitted[a.id := |s.svc.past| - 1],
            s.ops + [Op.Admit(v, now)], s.who + [a.id])
    else s.(svc := svc, root := root)
  }

  ghost predicate Legal(lib: Lib, cfg: Config, s: State, acts: seq<Action>)
    decreases |acts|
  {
    acts == [] || (Enabled(lib, s, acts[0]) && Legal(lib, cfg, Next(lib, cfg, s, acts[0]), acts[1..]))
  }

  ghost function Exec(lib: Lib, cfg: Config, s: State, acts: seq<Action>): State
    requires Legal(lib, cfg, s, acts)
    decreases |acts|
  {
    if acts == [] then s else Exec(lib, cfg, Next(lib, cfg, s, acts[0]), acts[1..])
  }

  // ---- each machine's own theorems carry over ------------------------------------------------------

  function SvcRun(acts: seq<Action>): seq<Service.Action> {
    if acts == [] then []
    else (if SvcPart(acts[0]).Some? then [SvcPart(acts[0]).value] else []) + SvcRun(acts[1..])
  }

  function RootRun(acts: seq<Action>): seq<RootState.Action> {
    if acts == [] then []
    else (if RootPart(acts[0]).Some? then [RootPart(acts[0]).value] else []) + RootRun(acts[1..])
  }

  /** What either machine does in a joint run is a run of that machine. */
  lemma {:induction false} RunsProject(lib: Lib, cfg: Config, s: State, acts: seq<Action>)
    requires Legal(lib, cfg, s, acts)
    ensures Service.Legal(lib, cfg, s.svc, SvcRun(acts))
    ensures Service.Exec(lib, cfg, s.svc, SvcRun(acts)) == Exec(lib, cfg, s, acts).svc
    ensures RootState.Legal(s.root, RootRun(acts))
    ensures RootState.Exec(s.root, RootRun(acts)) == Exec(lib, cfg, s, acts).root
    decreases |acts|
  {
    hide InOrder, SvcPart, RootPart, Service.Next, Service.Enabled, RootState.Next, RootState.Enabled;
    if acts != [] {
      var a, t := acts[0], Next(lib, cfg, s, acts[0]);
      RunsProject(lib, cfg, t, acts[1..]);
      if SvcPart(a).Some? {
        Service.Unroll(lib, cfg, s.svc, SvcPart(a).value, SvcRun(acts[1..]));
      } else {
        assert [] + SvcRun(acts[1..]) == SvcRun(acts[1..]);
      }
      if RootPart(a).Some? {
        assert ([RootPart(a).value] + RootRun(acts[1..]))[1..] == RootRun(acts[1..]);
      } else {
        assert [] + RootRun(acts[1..]) == RootRun(acts[1..]);
      }
    }
  }

  // ---- what ties them together ---------------------------------------------------------------------

  ghost predicate SameClock(a: seq<Service.Instant>, b: seq<RootState.Instant>) {
    |a| == |b| && forall k :: 0 <= k < |a| ==> a[k].clock == b[k].clock
  }

  /** A root check belongs to a verified call, and comes after that verification. */
  predicate CheckFollows(svc: Service.State, id: CallId, q: RootState.Call) {
    && id in svc.calls && svc.calls[id].phase.ReadVerified?
    && Pipeline.QUERY_ACCOUNT in svc.calls[id].phase.v.actions
    && q.v == CredentialOf(svc.calls[id].phase.v)
    && (!q.Failed? ==> svc.calls[id].phase.check.at <= q.checked)
  }

  /** An admission belongs to a call whose root was accepted, and comes after that check. */
  predicate AdmissionFollows(root: RootState.State, id: CallId, at: nat) {
    && id in root.calls && root.calls[id].Done? && root.calls[id].verdict == RootState.Accepted
    && root.calls[id].checked <= at < |root.past|
  }

  ghost predicate TableOk(s: State) {
    && s.table == TableAfter(s.ops) && |s.ops| == |s.who|
    && (forall n :: 0 <= n < |s.ops| ==> AdmissionOf(s, s.ops[n], s.who[n]))
  }

  predicate AdmissionOf(s: State, op: Op, id: CallId) {
    && id in s.admitted && id in s.svc.calls && s.svc.calls[id].phase.ReadVerified?
    && s.admitted[id] < |s.svc.past|
    && op == Op.Admit(s.svc.calls[id].phase.v, s.svc.past[s.admitted[id]].clock)
  }

  ghost predicate Tied(s: State) {
    && SameClock(s.svc.past, s.root.past)
    && (forall id :: id in s.root.calls ==> CheckFollows(s.svc, id, s.root.calls[id]))
    && (forall id :: id in s.admitted ==> AdmissionFollows(s.root, id, s.admitted[id]))
    && TableOk(s)
  }

  /** Each machine's own invariants. */
  ghost predicate Parts(lib: Lib, cfg: Config, s: State) {
    Service.ParamsInv(s.svc) && Service.SafeInv(lib, cfg, s.svc) && RootState.Inv(s.root)
  }

  lemma StepKeepsParts(lib: Lib, cfg: Config, s: State, a: Action)
    requires Parts(lib, cfg, s) && Enabled(lib, s, a)
    ensures Parts(lib, cfg, Next(lib, cfg, s, a))
  {
    hide Service.ParamsInv, Service.SafeInv, RootState.Inv, Service.Next, RootState.Next, InOrder, SvcPart, RootPart;
    if SvcPart(a).Some? {
      Service.StepKeepsParams(lib, cfg, s.svc, SvcPart(a).value);
      Service.StepKeepsSafe(lib, cfg, s.svc, SvcPart(a).value);
    }
    if RootPart(a).Some? {
      RootState.StepKeepsInv(s.root, RootPart(a).value);
    }
  }

  /** A verified read makes no further step in the service. */
  lemma VerifiedStays(lib: Lib, cfg: Config, s: Service.State, a: Service.Action, id: CallId)
    requires Service.Enabled(lib, s, a) && id in s.calls && s.calls[id].phase.ReadVerified?
    ensures var t := Service.Next(lib, cfg, s, a); id in t.calls && t.calls[id] == s.calls[id]
  {
    hide Service.Next;
    Service.StepLowersRank(lib, cfg, s, a, id);
  }

  lemma SvcStep(lib: Lib, cfg: Config, s: State, a: Service.Action)
    requires Parts(lib, cfg, s) && Tied(s) && Service.Enabled(lib, s.svc, a) && !Service.Outside(a)
    ensures Tied(s.(svc := Service.Next(lib, cfg, s.svc, a)))
  {
    hide TableAfter, SameClock;
    var t := Service.Next(lib, cfg, s.svc, a);
    assert t.past == s.svc.past by {
      PastStays(lib, cfg, s.svc, a);
    }
    hide Service.Next, Service.Enabled, Parts;
    forall id | id in s.svc.calls && s.svc.calls[id].phase.ReadVerified?
      ensures id in t.calls && t.calls[id] == s.svc.calls[id]
    {
      VerifiedStays(lib, cfg, s.svc, a, id);
    }
  }

  lemma PastStays(lib: Lib, cfg: Config, s: Service.State, a: Service.Action)
    requires Service.Enabled(lib, s, a) && !Service.Outside(a)
    ensures Service.Next(lib, cfg, s, a).past == s.past
  {}

  lemma TableIgnoresRoots(s: State, root: RootState.State)
    requires TableOk(s)
    ensures TableOk(s.(root := root))
  {
    hide TableAfter;
  }

  /** A step of one root check other than its first. */
  lemma RootStep(s: State, a: RootState.Action)
    requires Tied(s) && RootState.Enabled(s.root, a) && (a.Ask? || a.Stamp? || a.Store? || a.Decide?)
    ensures Tied(s.(root := RootState.Next(s.root, a)))
  {
    hide TableOk, SameClock;
    var t := RootState.Next(s.root, a);
    TableIgnoresRoots(s, t);
    assert t.past == s.root.past;
    assert CheckFollows(s.svc, a.id, s.root.calls[a.id]);
    assert a.id in s.admitted ==> AdmissionFollows(s.root, a.id, s.admitted[a.id]);
    forall id | id in s.admitted ensures AdmissionFollows(t, id, s.admitted[id]) {
      assert AdmissionFollows(s.root, id, s.admitted[id]);
    }
  }

  /** The first step of a root check, for a verified call. */
  lemma CheckStep(s: State, id: CallId, v: RootState.Credential)
    requires Tied(s) && RootState.Enabled(s.root, RootState.Begin(id, v))
    requires id in s.svc.calls && s.svc.calls[id].phase.ReadVerified?
    requires Pipeline.QUERY_ACCOUNT in s.svc.calls[id].phase.v.actions && v == CredentialOf(s.svc.calls[id].phase.v)
    requires s.svc.calls[id].phase.check.at < |s.svc.past|
    ensures Tied(s.(root := RootState.Next(s.root, RootState.Begin(id, v))))
  {
    hide TableOk, RootState.Fresh;
    var t := RootState.Next(s.root, RootState.Begin(id, v));
    TableIgnoresRoots(s, t);
    assert t.past == s.root.past && !t.calls[id].Failed? && t.calls[id].checked == |s.root.past| - 1;
    assert forall x :: x in s.root.calls ==> x != id && t.calls[x] == s.root.calls[x];
    hide RootState.Next, SameClock;
    forall x | x in s.admitted ensures AdmissionFollows(t, x, s.admitted[x]) {
      assert AdmissionFollows(s.root, x, s.admitted[x]);
    }
  }

  lemma VerifiedInPast(lib: Lib, cfg: Config, s: State, id: CallId)
    requires Parts(lib, cfg, s) && id in s.svc.calls && s.svc.calls[id].phase.ReadVerified?
    ensures s.svc.calls[id].phase.check.at < |s.svc.past|
  {
    hide Service.ParamsInv, RootState.Inv, Warranted, VerifyTokens, DecodedProof;
    assert Service.CallSafe(lib, cfg, s.svc.past, s.svc.params.slowest, s.svc.calls[id]);
  }

  /** A moment passes in both machines at once. */
  lemma MomentStep(s: State, i: Service.Instant, r: RootState.Instant)
    requires Tied(s) && i.clock == r.clock
    ensures Tied(s.(svc := s.svc.(past := s.svc.past + [i]), root := s.root.(past := s.root.past + [r])))
  {
    hide TableAfter;
    var t := s.(svc := s.svc.(past := s.svc.past + [i]), root := s.root.(past := s.root.past + [r]));
    forall n | 0 <= n < |s.ops| ensures AdmissionOf(t, t.ops[n], t.who[n]) {
      assert AdmissionOf(s, s.ops[n], s.who[n]);
    }
    forall id | id in s.admitted ensures AdmissionFollows(t.root, id, t.admitted[id]) {
      assert AdmissionFollows(s.root, id, s.admitted[id]);
    }
    forall id | id in t.root.calls ensures CheckFollows(t.svc, id, t.root.calls[id]) {
      assert CheckFollows(s.svc, id, s.root.calls[id]);
    }
  }

  /** The state once call id is admitted now. */
  function AfterGrant(s: State, id: CallId): State
    requires s.svc.past != [] && id in s.svc.calls && s.svc.calls[id].phase.ReadVerified?
  {
    var v, now := s.svc.calls[id].phase.v, Service.Now(s.svc).clock;
    State(s.svc, s.root, Admitted(s.table, v, now), s.admitted[id := |s.svc.past| - 1], s.ops + [Op.Admit(v, now)],
          s.who + [id])
  }

  lemma TableGrants(s: State, id: CallId)
    requires TableOk(s) && s.svc.past != [] && id !in s.admitted
    requires id in s.svc.calls && s.svc.calls[id].phase.ReadVerified?
    ensures TableOk(AfterGrant(s, id))
  {
    hide Admitted;
    var t := AfterGrant(s, id);
    assert t.ops[..|t.ops| - 1] == s.ops && t.table == TableAfter(t.ops);
    hide TableAfter;
    forall n | 0 <= n < |t.ops| ensures AdmissionOf(t, t.ops[n], t.who[n]) {
      if n < |s.ops| {
        assert AdmissionOf(s, s.ops[n], s.who[n]);
      }
    }
  }

  /** An accepted call is admitted now. */
  lemma GrantStep(s: State, id: CallId)
    requires Tied(s) && s.svc.past != [] && id !in s.admitted
    requires id in s.svc.calls && s.svc.calls[id].phase.ReadVerified?
    requires AdmissionFollows(s.root, id, |s.svc.past| - 1)
    ensures Tied(AfterGrant(s, id))
  {
    TableGrants(s, id);
    hide Admitted, AdmissionFollows, CheckFollows, SameClock, TableOk;
  }

  lemma DoneInPast(s: RootState.State, id: CallId)
    requires RootState.Inv(s) && id in s.calls && s.calls[id].Done?
    ensures s.calls[id].checked < |s.past|
  {
    assert RootState.GoodCall(s.past, s.calls[id], s.slowest);
  }

  lemma StepKeepsTied(lib: Lib, cfg: Config, s: State, a: Action)
    requires Parts(lib, cfg, s) && Tied(s) && Enabled(lib, s, a)
    ensures Tied(Next(lib, cfg, s, a))
  {
    hide Parts, CheckFollows, TableOk, SameClock, RootState.Next, Service.Next, Service.Enabled, RootState.Enabled;
    match a
    case Svc(b) => SvcStep(lib, cfg, s, b);
    case Root(b) => RootStep(s, b);
    case Check(id, v) =>
      VerifiedInPast(lib, cfg, s, id);
      CheckStep(s, id, v);
    case Grant(id) =>
      PartsAndPast(lib, cfg, s);
      DoneInPast(s.root, id);
      GrantStep(s, id);
    case _ => OutsideStep(lib, cfg, s, a);
  }

  lemma PartsAndPast(lib: Lib, cfg: Config, s: State)
    requires Parts(lib, cfg, s) && Tied(s)
    ensures RootState.Inv(s.root) && |s.svc.past| == |s.root.past|
  {}

  lemma OutsideStep(lib: Lib, cfg: Config, s: State, a: Action)
    requires Tied(s) && Enabled(lib, s, a) && (a.Tick? || a.Govern? || a.Change?)
    ensures Tied(Next(lib, cfg, s, a))
  {
    hide TableOk, CheckFollows, AdmissionFollows;
    var t := Next(lib, cfg, s, a);
    var i, r := Service.Now(t.svc), RootState.Now(t.root);
    assert t == s.(svc := s.svc.(past := s.svc.past + [i]), root := s.root.(past := s.root.past + [r]));
    assert s.svc.past[|s.svc.past| - 1].clock == s.root.past[|s.root.past| - 1].clock;
    MomentStep(s, i, r);
  }

  lemma {:induction false} RunKeepsTied(lib: Lib, cfg: Config, s: State, acts: seq<Action>)
    requires Parts(lib, cfg, s) && Tied(s) && Legal(lib, cfg, s, acts)
    ensures Parts(lib, cfg, Exec(lib, cfg, s, acts)) && Tied(Exec(lib, cfg, s, acts))
    decreases |acts|
  {
    hide Parts, Tied, Next, Enabled;
    if acts != [] {
      StepKeepsParts(lib, cfg, s, acts[0]);
      StepKeepsTied(lib, cfg, s, acts[0]);
      RunKeepsTied(lib, cfg, Next(lib, cfg, s, acts[0]), acts[1..]);
    }
  }

  lemma Reachable(lib: Lib, cfg: Config, i: Service.Instant, base: nat, ri: RootState.Instant, acts: seq<Action>)
    requires i.clock == ri.clock && Legal(lib, cfg, Start(i, base, ri), acts)
    ensures var s := Exec(lib, cfg, Start(i, base, ri), acts); Parts(lib, cfg, s) && Tied(s)
  {
    hide Legal, Exec;
    assert Parts(lib, cfg, Start(i, base, ri)) && Tied(Start(i, base, ri));
    RunKeepsTied(lib, cfg, Start(i, base, ri), acts);
  }

  // ---- what an authorized read rests on ---------------------------------------------------------

  /** The grant of call id: the proof it brought decodes and verified, every hop allowed, at a clock
      reading and under ceilings of the chain taken while the call was under way; it grants account
      queries; and the chain had the root at the credential's epoch and not paused, at an instant after
      the check that followed, or less than the TTL and the longest wait before that check. */
  ghost predicate Rests(lib: Lib, cfg: Config, s: State, id: CallId) {
    && id in s.svc.calls && s.svc.calls[id].phase.ReadVerified? && id in s.root.calls && s.root.calls[id].Done?
    && (var c, q := s.svc.calls[id], s.root.calls[id]; var ph := c.phase;
        && Decodes(lib, c.from.proof, ph.tokens)
        && lib.verify(ph.tokens, OptsFor(cfg, ph.check.params, ph.check.now)) == Some(ph.v)
        && LinksAllowed(ph.v.tokens) && Pipeline.QUERY_ACCOUNT in ph.v.actions
        && Service.CheckOk(s.svc.past, c.from.at, ph.check, s.svc.params.slowest)
        && ph.check.at <= q.checked < |s.root.past| && q.asOf < |s.root.past|
        && RootState.GivenAt(s.root.past, ph.v.root, RootState.RootRecord(ph.v.rootEpoch, false), q.asOf)
        && RootState.InWindow(s.root.past, q.checked, q.asOf, s.root.slowest))
  }

  lemma VerifiedRests(lib: Lib, cfg: Config, s: State, id: CallId)
    requires Parts(lib, cfg, s) && id in s.svc.calls && s.svc.calls[id].phase.ReadVerified?
    ensures var c := s.svc.calls[id]; var ph := c.phase;
            && Decodes(lib, c.from.proof, ph.tokens)
            && lib.verify(ph.tokens, OptsFor(cfg, ph.check.params, ph.check.now)) == Some(ph.v)
            && LinksAllowed(ph.v.tokens)
            && Service.CheckOk(s.svc.past, c.from.at, ph.check, s.svc.params.slowest)
  {
    hide Service.ParamsInv, RootState.Inv, Warranted, LinksAllowed, Service.CheckOk;
    assert Service.CallSafe(lib, cfg, s.svc.past, s.svc.params.slowest, s.svc.calls[id]);
  }

  lemma AcceptedMeans(s: RootState.State, id: CallId)
    requires RootState.Inv(s) && id in s.calls && s.calls[id].Done? && s.calls[id].verdict == RootState.Accepted
    ensures var q := s.calls[id];
            && q.checked < |s.past| && q.asOf < |s.past|
            && RootState.GivenAt(s.past, q.v.root, RootState.RootRecord(q.v.rootEpoch, false), q.asOf)
            && RootState.InWindow(s.past, q.checked, q.asOf, s.slowest)
  {
    assert RootState.GoodCall(s.past, s.calls[id], s.slowest);
  }

  lemma AcceptedRests(lib: Lib, cfg: Config, s: State, id: CallId)
    requires Parts(lib, cfg, s) && Tied(s)
    ensures id in s.root.calls && s.root.calls[id].Done? && s.root.calls[id].verdict == RootState.Accepted
            ==> Rests(lib, cfg, s, id)
  {
    hide Service.ParamsInv, Service.SafeInv, RootState.Inv, TableOk, SameClock, LinksAllowed, Service.CheckOk,
         Decodes, RootState.GivenAt, RootState.InWindow, AdmissionFollows;
    if id in s.root.calls && s.root.calls[id].Done? && s.root.calls[id].verdict == RootState.Accepted {
      assert CheckFollows(s.svc, id, s.root.calls[id]);
      AcceptedMeans(s.root, id);
      VerifiedRests(lib, cfg, s, id);
    }
  }

  /** A verified call whose grant covers account queries may always check its root, for that root and
      epoch. */
  lemma VerifiedChecks(lib: Lib, cfg: Config, s: State, id: CallId)
    requires s.root.past != [] && id in s.svc.calls && s.svc.calls[id].phase.ReadVerified? && id !in s.root.calls
    ensures var v := s.svc.calls[id].phase.v;
            var a := Action.Check(id, RootState.Credential(v.root, v.rootEpoch));
            && (Enabled(lib, s, a) <==> "query.account" in v.actions)
            && ("query.account" in v.actions ==>
                  id in Next(lib, cfg, s, a).root.calls && !Next(lib, cfg, s, a).root.calls[id].Failed?)
  {}

  /** An accepted one is admitted, and unless the table is full answers from then on as its principal. */
  lemma AcceptedIsAdmitted(lib: Lib, cfg: Config, s: State, id: CallId)
    requires s.svc.past != [] && id in s.svc.calls && s.svc.calls[id].phase.ReadVerified? && id !in s.admitted
    requires id in s.root.calls && s.root.calls[id].Done? && |s.table| <= 4096
    ensures var v, now := s.svc.calls[id].phase.v, Service.Now(s.svc).clock;
            && (Enabled(lib, s, Grant(id)) <==> s.root.calls[id].verdict == RootState.Accepted)
            && (s.root.calls[id].verdict == RootState.Accepted ==>
                  Found(Next(lib, cfg, s, Grant(id)).table, TenantId(v.chainHash), now)
                    == if !Refuses(s.table, TenantId(v.chainHash), now) && now < v.leafExp
                       then Some(Policy(TenantId(v.chainHash), v.principal, set n | n in v.subaccounts, false))
                       else None)
  {
    var v, now := s.svc.calls[id].phase.v, Service.Now(s.svc).clock;
    AdmissionEffect(s.table, v, now, TenantId(v.chainHash), now);
  }

  /** The answers this world gives are those of call id. */
  ghost predicate AnsweredBy(w: Pipeline.World, tokens: seq<string>, s: State, id: CallId) {
    && id in s.svc.calls && s.svc.calls[id].phase.ReadVerified? && s.svc.calls[id].from.proof == tokens
    && id in s.root.calls && s.root.calls[id].Done?
    && w.verify(tokens) == Some(s.svc.calls[id].phase.v)
    && w.root(s.svc.calls[id].phase.v) == s.root.calls[id].verdict
  }

  /** End to end, whatever else interleaves: a delegated read reaches its operation only on a grant
      that rests on the tokens of its own message, brought by a call of the run, and on that call's own
      root check, made after the verification and by the same clock. */
  lemma DelegatedReadRests(
      lib: Lib, cfg: Config, i: Service.Instant, base: nat, ri: RootState.Instant, acts: seq<Action>, id: CallId,
      d: Pipeline.Deployment, w: Pipeline.World, req: Pipeline.Request, tokens: seq<string>)
    returns (k: nat)
    requires i.clock == ri.clock && Legal(lib, cfg, Start(i, base, ri), acts)
    requires AnsweredBy(w, tokens, Exec(lib, cfg, Start(i, base, ri), acts), id)
    requires Pipeline.Dispatched(d, w, req, Pipeline.Tokens(tokens)).0.Called?
    requires Pipeline.Dispatched(d, w, req, Pipeline.Tokens(tokens)).1.Some?
    ensures var s := Exec(lib, cfg, Start(i, base, ri), acts);
            && Rests(lib, cfg, s, id) && SameClock(s.svc.past, s.root.past)
            && s.svc.calls[id].from.proof == tokens
            && Pipeline.Dispatched(d, w, req, Pipeline.Tokens(tokens)).1 == Some(s.svc.calls[id].phase.v)
            && Service.Legal(lib, cfg, Service.Start(i, base), SvcRun(acts))
            && Service.ArrivedAt(lib, cfg, Service.Start(i, base), SvcRun(acts), id, s.svc.calls[id].from, k)
  {
    hide Legal, Exec, Rests, Service.Legal, Service.Exec, Service.ArrivedAt, RootState.Legal, RootState.Exec, Parts;
    var s := Exec(lib, cfg, Start(i, base, ri), acts);
    Reachable(lib, cfg, i, base, ri, acts);
    AcceptedRests(lib, cfg, s, id);
    RunsProject(lib, cfg, Start(i, base, ri), acts);
    k := Service.ReadsVerified(lib, cfg, i, base, SvcRun(acts), id);
  }

  /** Every tabled tenant comes from an admission that names it. */
  lemma {:induction false} TableFrom(ops: seq<Op>, tid: string) returns (n: nat)
    requires tid in TableAfter(ops)
    ensures n < |ops| && ops[n].Admit? && TenantId(ops[n].v.chainHash) == tid
    ensures TableAfter(ops)[tid] == ReadTenant(PolicyOf(ops[n].v), ops[n].v.leafExp)
  {
    var init, op := ops[..|ops| - 1], ops[|ops| - 1];
    if op.Admit? && !Refuses(TableAfter(init), TenantId(op.v.chainHash), op.now) && TenantId(op.v.chainHash) == tid {
      n := |ops| - 1;
    } else {
      n := TableFrom(init, tid);
    }
  }

  /** And whatever policy the table answers with is a live credential's own: its principal and exactly
      its subaccounts, on a grant that rests on that call's checks, made before it was admitted. */
  lemma AnsweredTenantRests(lib: Lib, cfg: Config, i: Service.Instant, base: nat, ri: RootState.Instant,
                            acts: seq<Action>, tid: string)
    returns (id: CallId)
    requires i.clock == ri.clock && Legal(lib, cfg, Start(i, base, ri), acts)
    requires var s := Exec(lib, cfg, Start(i, base, ri), acts);
             s.svc.past != [] && Found(s.table, tid, Service.Now(s.svc).clock).Some?
    ensures var s := Exec(lib, cfg, Start(i, base, ri), acts); var now := Service.Now(s.svc).clock;
            && Rests(lib, cfg, s, id) && SameClock(s.svc.past, s.root.past)
            && id in s.admitted && s.root.calls[id].checked <= s.admitted[id] < |s.svc.past|
            && (var v := s.svc.calls[id].phase.v;
                TenantId(v.chainHash) == tid && now < v.leafExp && Found(s.table, tid, now) == Some(PolicyOf(v)))
  {
    hide Legal, Exec, Rests, Parts;
    var s := Exec(lib, cfg, Start(i, base, ri), acts);
    Reachable(lib, cfg, i, base, ri, acts);
    var n := TableFrom(s.ops, tid);
    assert AdmissionOf(s, s.ops[n], s.who[n]);
    id := s.who[n];
    assert AdmissionFollows(s.root, id, s.admitted[id]);
    AcceptedRests(lib, cfg, s, id);
  }
}
