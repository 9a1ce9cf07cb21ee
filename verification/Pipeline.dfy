/** One A2A request on its way to an operation: which tenant it runs as, and the two rewrites of
    its arguments, first pinned to the credential's principal, then given the proof. */
module Pipeline {
  import opened Basics
  import opened Delegation
  import opened ReadTenants
  import Registry
  import RootState

  // ---- argument objects ---------------------------------------------------------------------

  /** A JSON value, as far as the rewrites look into one. */
  datatype Json = Null | Str(s: string) | Num(n: int) | Strs(items: seq<string>) | Opaque(tag: nat)

  /** Request arguments: absent, the literal null, an object, or something else. */
  datatype Args = Absent | NullLiteral | Object(m: map<string, Json>) | NotObject

  /** Why a request goes no further. */
  datatype Reason =
    | NoSkill | BadMetadata | NoTokens | EmptyToken | NoRegistry | NoTool | UnknownTool | WrongSkill
    | NotCovered | NotVerified | NoQueryAction | RootRefused(verdict: RootState.Verdict)
    | BadArgs | BadOwner | OtherOwner | BadSubaccount | OtherSubaccount | BadProof | ProofsDiffer

  /** Panicked: a write into the nil map that decoding null leaves behind. */
  datatype Outcome<+T> = Done(value: T) | Refused(why: Reason) | Panicked

  function Fields(args: Args): map<string, Json> {
    if args.Object? then args.m else map[]
  }

  datatype ReadSpec = ReadSpec(ownerField: string, hasSubaccount: bool)

  const READ_SPECS: map<string, ReadSpec> := map[
    "get_subaccount" := ReadSpec("address", true),
    "get_live_subaccount" := ReadSpec("owner", true),
    "get_balance" := ReadSpec("owner", false),
    "get_orders" := ReadSpec("address", true),
    "get_fills" := ReadSpec("address", true),
    "get_transfers" := ReadSpec("address", true),
    "get_pnl" := ReadSpec("address", true),
    "get_historical_pnl" := ReadSpec("address", true),
    "get_funding_payments" := ReadSpec("address", true)]

  const SUB: string := "subaccount_number"
  const PROOF: string := "proof"
  const QUERY_ACCOUNT: string := "query.account"

  // ---- pinning to the principal ---------------------------------------------------------------

  /** The owner argument is missing, empty, or names the principal. */
  predicate OwnerOk(m: map<string, Json>, field: string, v: Verified) {
    field in m ==> m[field] in {Null, Str(""), Str(v.principal)}
  }

  /** The subaccount asked for, 0 when none is; anything but a uint32 is refused. */
  function Subaccount(m: map<string, Json>): Option<nat> {
    if SUB !in m || m[SUB].Null? then Some(0)
    else if m[SUB].Num? && 0 <= m[SUB].n < 0x1_0000_0000 then Some(m[SUB].n)
    else None
  }

  predicate SubaccountOk(m: map<string, Json>, spec: ReadSpec, v: Verified) {
    spec.hasSubaccount ==> Subaccount(m).Some? && Subaccount(m).value in v.subaccounts
  }

  /** What pinning comes to: the one owner allowed, everything else as it was. */
  function Pinned(args: Args, spec: ReadSpec, v: Verified): Outcome<Args> {
    var m := Fields(args);
    if args.NullLiteral? then Panicked
    else if args.NotObject? then Refused(BadArgs)
    else if !OwnerOk(m, spec.ownerField, v) then Refused(if m[spec.ownerField].Str? then OtherOwner else BadOwner)
    else if !SubaccountOk(m, spec, v) then Refused(if Subaccount(m).Some? then OtherSubaccount else BadSubaccount)
    else Done(Object(m[spec.ownerField := Str(v.principal)]))
  }

  method PinArgsToPrincipal(args: Args, spec: ReadSpec, v: Verified) returns (r: Outcome<Args>)
    requires spec.ownerField != SUB
    ensures r == Pinned(args, spec, v)
  {
    var m: map<string, Json> := map[];
    var isNil := false;
    match args {
      case Absent =>
      case NullLiteral => isNil := true;
      case Object(o) => m := o;
      case NotObject => return Refused(BadArgs);
    }
    var owner := "";
    if spec.ownerField in m && m[spec.ownerField] != Null {
      if !m[spec.ownerField].Str? {
        return Refused(BadOwner);
      }
      owner := m[spec.ownerField].s;
    }
    if owner == "" {
      if isNil {
        return Panicked;
      }
      m := m[spec.ownerField := Str(v.principal)];
    } else if owner != v.principal {
      return Refused(OtherOwner);
    }
    if spec.hasSubaccount {
      var sub := 0;
      if SUB in m && m[SUB] != Null {
        if !(m[SUB].Num? && 0 <= m[SUB].n < 0x1_0000_0000) {
          return Refused(BadSubaccount);
        }
        sub := m[SUB].n;
      }
      if sub !in v.subaccounts {
        return Refused(OtherSubaccount);
      }
    }
    assert m == Fields(args)[spec.ownerField := Str(v.principal)];
    return Done(Object(m));
  }

  // ---- injecting the proof --------------------------------------------------------------------

  /** No proof in the arguments, or the same one. */
  predicate ProofOk(m: map<string, Json>, tokens: seq<string>) {
    PROOF in m ==> m[PROOF] in {Null, Strs([]), Strs(tokens)}
  }

  function Injected(args: Args, tokens: seq<string>): Outcome<Args> {
    if args.NullLiteral? then Panicked
    else if args.NotObject? then Refused(BadArgs)
    else if !ProofOk(Fields(args), tokens) then
      Refused(if Fields(args)[PROOF].Strs? then ProofsDiffer else BadProof)
    else Done(Object(Fields(args)[PROOF := Strs(tokens)]))
  }

  method EqualStrings(a: seq<string>, b: seq<string>) returns (equal: bool)
    ensures equal <==> a == b
  {
    if |a| != |b| {
      return false;
    }
    for i := 0 to |a|
      invariant a[..i] == b[..i]
    {
      if a[i] != b[i] {
        return false;
      }
    }
    return true;
  }

  method InjectProof(args: Args, tokens: seq<string>) returns (r: Outcome<Args>)
    ensures r == Injected(args, tokens)
  {
    var m: map<string, Json> := map[];
    var isNil := false;
    match args {
      case Absent =>
      case NullLiteral => isNil := true;
      case Object(o) => m := o;
      case NotObject => return Refused(BadArgs);
    }
    if PROOF in m && m[PROOF] != Null {
      if !m[PROOF].Strs? {
        return Refused(BadProof);
      }
      var existing := m[PROOF].items;
      if |existing| > 0 {
        var same := EqualStrings(existing, tokens);
        if !same {
          return Refused(ProofsDiffer);
        }
        assert m == m[PROOF := Strs(tokens)];
        return Done(args);
      }
    }
    if isNil {
      return Panicked;
    }
    m := m[PROOF := Strs(tokens)];
    return Done(Object(m));
  }

  function Then<T, U>(o: Outcome<T>, f: T -> Outcome<U>): Outcome<U> {
    match o
    case Done(x) => f(x)
    case Refused(why) => Refused(why)
    case Panicked => Panicked
  }

  /** The same outcome, except that two refusals may give different reasons. */
  predicate Alike<T(==)>(a: Outcome<T>, b: Outcome<T>) { a == b || (a.Refused? && b.Refused?) }

  /** Pinning and injecting are each idempotent, and in either order they refuse alike and agree. */
  lemma RewritesCommute(args: Args, spec: ReadSpec, v: Verified, tokens: seq<string>)
    requires spec.ownerField != SUB && spec.ownerField != PROOF
    ensures Then(Pinned(args, spec, v), a => Pinned(a, spec, v)) == Pinned(args, spec, v)
    ensures Then(Injected(args, tokens), a => Injected(a, tokens)) == Injected(args, tokens)
    ensures Alike(Then(Pinned(args, spec, v), a => Injected(a, tokens)),
                  Then(Injected(args, tokens), a => Pinned(a, spec, v)))
  {
    var m, f := Fields(args), spec.ownerField;
    assert m[f := Str(v.principal)][PROOF := Strs(tokens)] == m[PROOF := Strs(tokens)][f := Str(v.principal)];
    assert m[f := Str(v.principal)][f := Str(v.principal)] == m[f := Str(v.principal)];
    assert m[PROOF := Strs(tokens)][PROOF := Strs(tokens)] == m[PROOF := Strs(tokens)];
  }

  // ---- requests -------------------------------------------------------------------------------

  /** The delegation entry of the message metadata. */
  datatype Metadata = NoEntry | Tokens(tokens: seq<string>) | Malformed

  /** The credential chain the message carries, if its entry is usable. */
  function Attached(meta: Metadata): (r: Outcome<Option<seq<string>>>)
    ensures !r.Panicked?
  {
    match meta
    case NoEntry => Done(None)
    case Malformed => Refused(BadMetadata)
    case Tokens(ts) => if ts == [] then Refused(NoTokens) else if "" in ts then Refused(EmptyToken) else Done(Some(ts))
  }

  /** A credential entry that is present but unusable is an error, never dropped. */
  method DelegationFromMessage(meta: Metadata) returns (r: Outcome<Option<seq<string>>>)
    ensures r == Attached(meta)
  {
    match meta {
      case NoEntry => return Done(None);
      case Malformed => return Refused(BadMetadata);
      case Tokens(ts) =>
        if |ts| == 0 {
          return Refused(NoTokens);
        }
        for i := 0 to |ts|
          invariant "" !in ts[..i]
        {
          if ts[i] == "" {
            return Refused(EmptyToken);
          }
        }
        assert ts[..|ts|] == ts;
        return Done(Some(ts));
    }
  }

  datatype Request = Request(skill: string, tool: string, args: Args, query: string)

  /** What the rest of the agent answers while this request is handled: verifyProof,
      checkRootState, and the bearer the request resolves to. */
  datatype World = World(verify: seq<string> -> Option<Verified>, root: Verified -> RootState.Verdict,
                         bearer: Option<TenantContext>)

  /** Which parts of the agent the deployment configures. */
  datatype Deployment = Deployment(ops: Option<Registry.Ops>, auth: bool, delegation: bool)

  datatype Dispatch =
    | Rejected(why: Reason)
    | Crashed
    | LegacyQuery(query: string)
    | Called(op: Registry.Op, args: Args, tenant: Option<TenantContext>)

  function ContextOf(v: Verified): TenantContext { TenantContext(TenantId(v.chainHash), v.principal) }

  /** AuthorizeRead: the first check to fail is the reason. */
  function Authorized(w: World, tool: string, tokens: seq<string>, args: Args): Outcome<(Verified, Args)> {
    if tool !in READ_SPECS then Refused(NotCovered)
    else if w.verify(tokens).None? then Refused(NotVerified)
    else
      var v := w.verify(tokens).value;
      if QUERY_ACCOUNT !in v.actions then Refused(NoQueryAction)
      else if w.root(v) != RootState.Accepted then Refused(RootRefused(w.root(v)))
      else match Pinned(args, READ_SPECS[tool], v)
        case Done(a) => Done((v, a))
        case Refused(why) => Refused(why)
        case Panicked => Panicked
  }

  lemma SpecsAreDistinctFields(tool: string)
    requires tool in READ_SPECS
    ensures READ_SPECS[tool].ownerField != SUB && READ_SPECS[tool].ownerField != PROOF
  {}

  method AuthorizeRead(w: World, tool: string, tokens: seq<string>, args: Args)
    returns (r: Outcome<(Verified, Args)>)
    ensures r == Authorized(w, tool, tokens, args)
  {
    if tool !in READ_SPECS {
      return Refused(NotCovered);
    }
    var verified := w.verify(tokens);
    if verified.None? {
      return Refused(NotVerified);
    }
    var v := verified.value;
    if QUERY_ACCOUNT !in v.actions {
      return Refused(NoQueryAction);
    }
    var verdict := w.root(v);
    if verdict != RootState.Accepted {
      return Refused(RootRefused(verdict));
    }
    SpecsAreDistinctFields(tool);
    var pinned := PinArgsToPrincipal(args, READ_SPECS[tool], v);
    if pinned.Done? {
      return Done((v, pinned.value));
    }
    return if pinned.Refused? then Refused(pinned.why) else Panicked;
  }

  /** A credential authenticates a covered read only when no bearer already does. */
  predicate IsDelegatedRead(d: Deployment, w: World, tool: string, deleg: Option<seq<string>>) {
    deleg.Some? && d.delegation && tool in READ_SPECS && !(d.auth && w.bearer.Some?)
  }

  function BearerTenant(d: Deployment, w: World): Option<TenantContext> {
    if d.auth then w.bearer else None
  }

  /** The injection and the call that follow once tenant and arguments are settled. */
  function Finish(op: Registry.Op, args: Args, tenant: Option<TenantContext>, deleg: Option<seq<string>>): Dispatch {
    match deleg
    case None => Called(op, args, tenant)
    case Some(tokens) =>
      match Injected(args, tokens)
      case Done(a) => Called(op, a, tenant)
      case Refused(why) => Rejected(why)
      case Panicked => Crashed
  }

  /** The outcome of handle, and the credential it admitted on the way, if any. */
  function Dispatched(d: Deployment, w: World, req: Request, meta: Metadata): (Dispatch, Option<Verified>) {
    if req.skill == "" then (Rejected(NoSkill), None)
    else if Attached(meta).Refused? then (Rejected(Attached(meta).why), None)
    else if req.skill == Registry.MARKET_DATA && req.query != "" then (LegacyQuery(req.query), None)
    else if d.ops.None? then (Rejected(NoRegistry), None)
    else if req.tool == "" then (Rejected(NoTool), None)
    else if req.tool !in d.ops.value then (Rejected(UnknownTool), None)
    else if !Registry.Dispatchable(d.ops.value, req.skill, req.tool) then (Rejected(WrongSkill), None)
    else
      var op, deleg := d.ops.value[req.tool], Attached(meta).value;
      if !IsDelegatedRead(d, w, req.tool, deleg) then (Finish(op, req.args, BearerTenant(d, w), deleg), None)
      else match Authorized(w, req.tool, deleg.value, req.args)
        case Done((v, a)) => (Finish(op, a, Some(ContextOf(v)), deleg), Some(v))
        case Refused(why) => (Rejected(why), None)
        case Panicked => (Crashed, None)
  }

  /** The deployment an executor with these parts makes up. */
  function Configured(reg: Registry.Registry?, auth: bool, delegation: bool): Deployment
    reads if reg == null then {} else {reg}
  {
    Deployment(if reg == null then None else Some(reg.ops), auth, delegation)
  }

  method Handle(reg: Registry.Registry?, auth: bool, delegation: bool, w: World, req: Request, meta: Metadata,
                tenants: ReadTenantSource, now: int)
    returns (r: Dispatch)
    modifies tenants
    ensures r == Dispatched(old(Configured(reg, auth, delegation)), w, req, meta).0
    ensures var admitted := Dispatched(old(Configured(reg, auth, delegation)), w, req, meta).1;
            tenants.byID == if admitted.Some? then Admitted(old(tenants.byID), admitted.value, now)
                            else old(tenants.byID)
  {
    if req.skill == "" {
      return Rejected(NoSkill);
    }
    var entry := DelegationFromMessage(meta);
    if entry.Refused? {
      return Rejected(entry.why);
    }
    var deleg := entry.value;
    if req.skill == Registry.MARKET_DATA && req.query != "" {
      return LegacyQuery(req.query);
    }
    if reg == null {
      return Rejected(NoRegistry);
    }
    if req.tool == "" {
      return Rejected(NoTool);
    }
    var found := reg.Lookup(req.tool);
    if found.None? {
      return Rejected(UnknownTool);
    }
    var op := found.value;
    if op.skill != req.skill {
      return Rejected(WrongSkill);
    }
    var tenant: Option<TenantContext> := None;
    if auth {
      tenant := w.bearer;
    }
    var args := req.args;
    if deleg.Some? && delegation {
      if req.tool in READ_SPECS {
        if tenant.None? {
          var authorized := AuthorizeRead(w, req.tool, deleg.value, args);
          if !authorized.Done? {
            return if authorized.Refused? then Rejected(authorized.why) else Crashed;
          }
          args := authorized.value.1;
          var tc := tenants.Admit(authorized.value.0, now);
          tenant := Some(tc);
        }
      }
    }
    if deleg.Some? {
      var injected := InjectProof(args, deleg.value);
      if !injected.Done? {
        return if injected.Refused? then Rejected(injected.why) else Crashed;
      }
      args := injected.value;
    }
    return Called(op, args, tenant);
  }

  // ---- what a delegated read is ---------------------------------------------------------------

  /** The arguments and tenant a delegated read for grant v must reach its operation with. */
  ghost predicate SafeRead(req: Request, tokens: seq<string>, v: Verified, args: Args, tenant: Option<TenantContext>)
    requires req.tool in READ_SPECS
  {
    var spec := READ_SPECS[req.tool];
    && args.Object?
    && spec.ownerField in args.m && args.m[spec.ownerField] == Str(v.principal)
    && PROOF in args.m && args.m[PROOF] == Strs(tokens)
    && (spec.hasSubaccount ==> Subaccount(args.m).Some? && Subaccount(args.m).value in v.subaccounts)
    && (forall k :: k != spec.ownerField && k != PROOF ==>
          (k in args.m <==> k in Fields(req.args)) && (k in args.m ==> args.m[k] == Fields(req.args)[k]))
    && tenant == Some(ContextOf(v))
  }

  /** A covered read that comes with a usable credential and no bearer reaches its operation
      exactly when the credential verifies, grants account queries, has a live root, and the
      arguments ask for nothing outside it. It then runs as the principal, pinned to it. */
  lemma DelegatedRead(d: Deployment, w: World, req: Request, tokens: seq<string>)
    requires tokens != [] && "" !in tokens && req.query == ""
    requires d.ops.Some? && req.tool != "" && req.skill != ""
    requires Registry.Dispatchable(d.ops.value, req.skill, req.tool)
    requires IsDelegatedRead(d, w, req.tool, Some(tokens))
    ensures Dispatched(d, w, req, Tokens(tokens)).0.Called? <==>
      && w.verify(tokens).Some?
      && QUERY_ACCOUNT in w.verify(tokens).value.actions
      && w.root(w.verify(tokens).value) == RootState.Accepted
      && !req.args.NullLiteral? && !req.args.NotObject?
      && OwnerOk(Fields(req.args), READ_SPECS[req.tool].ownerField, w.verify(tokens).value)
      && SubaccountOk(Fields(req.args), READ_SPECS[req.tool], w.verify(tokens).value)
      && ProofOk(Fields(req.args), tokens)
    ensures var (r, admitted) := Dispatched(d, w, req, Tokens(tokens));
      r.Called? ==>
        && admitted == w.verify(tokens) && admitted.Some?
        && r.op == d.ops.value[req.tool]
        && SafeRead(req, tokens, admitted.value, r.args, r.tenant)
  {
    SpecsAreDistinctFields(req.tool);
  }

  // ---- every request, from what the caller sees -----------------------------------------------

  /** The tools a read credential covers that name their owner "owner". */
  predicate NamesOwner(tool: string) { tool in {"get_balance", "get_live_subaccount"} }

  /** Those that name it "address". */
  predicate NamesAddress(tool: string) {
    tool in {"get_subaccount", "get_orders", "get_fills", "get_transfers", "get_pnl", "get_historical_pnl",
             "get_funding_payments"}
  }

  /** A tool is covered exactly when it is one of those nine, and every one but get_balance is held to
      the credential's subaccounts. An order id or a session is nobody's to read by credential. */
  lemma CoveredTools(tool: string)
    ensures tool in READ_SPECS <==> NamesOwner(tool) || NamesAddress(tool)
    ensures NamesOwner(tool) ==> READ_SPECS[tool].ownerField == "owner"
    ensures NamesAddress(tool) ==> READ_SPECS[tool].ownerField == "address"
    ensures tool in READ_SPECS ==> (READ_SPECS[tool].hasSubaccount <==> tool != "get_balance")
    ensures "get_order" !in READ_SPECS && "whoami" !in READ_SPECS
  {}

  /** The subaccount these arguments ask for, 0 when they name none, is granted. */
  predicate SubaccountGranted(m: map<string, Json>, v: Verified) {
    if "subaccount_number" !in m || m["subaccount_number"] == Null then 0 in v.subaccounts
    else
      var j := m["subaccount_number"];
      j.Num? && 0 <= j.n < 0x1_0000_0000 && j.n in v.subaccounts
  }

  /** The arguments ask a covered tool for nothing outside the grant. */
  predicate AsksWithin(tool: string, m: map<string, Json>, v: Verified) {
    && (NamesOwner(tool) && "owner" in m ==> m["owner"] in {Null, Str(""), Str(v.principal)})
    && (NamesAddress(tool) && "address" in m ==> m["address"] in {Null, Str(""), Str(v.principal)})
    && (tool != "get_balance" ==> SubaccountGranted(m, v))
  }

  lemma AsksWithinIsPinned(tool: string, args: Args, v: Verified)
    requires NamesOwner(tool) || NamesAddress(tool)
    ensures tool in READ_SPECS
    ensures var p, m := Pinned(args, READ_SPECS[tool], v), Fields(args);
            var owned := m[(if NamesOwner(tool) then "owner" else "address") := Str(v.principal)];
            && (p.Done? <==> !args.NullLiteral? && !args.NotObject? && AsksWithin(tool, m, v))
            && (p.Done? ==> p.value == Object(owned))
  {
    CoveredTools(tool);
  }

  /** The request gets as far as an operation: a skill is named, the delegation entry is absent or
      usable, it is no legacy query, and a tool is named that is registered under that skill. */
  predicate Arrives(d: Deployment, req: Request, meta: Metadata) {
    && req.skill != "" && !meta.Malformed? && (meta.Tokens? ==> meta.tokens != [] && "" !in meta.tokens)
    && !(req.skill == "svpchain-market-data" && req.query != "")
    && d.ops.Some? && req.tool != "" && req.tool in d.ops.value && d.ops.value[req.tool].skill == req.skill
  }

  /** It is the credential, and no bearer, that authenticates it. */
  predicate ByCredential(d: Deployment, w: World, req: Request, meta: Metadata) {
    && meta.Tokens? && d.delegation && (NamesOwner(req.tool) || NamesAddress(req.tool))
    && !(d.auth && w.bearer.Some?)
  }

  /** The credential authorizes what the arguments ask for. */
  predicate MayRead(w: World, req: Request, tokens: seq<string>) {
    && w.verify(tokens).Some?
    && (var v := w.verify(tokens).value;
        && "query.account" in v.actions && w.root(v) == RootState.Accepted
        && AsksWithin(req.tool, Fields(req.args), v))
  }

  /** The arguments can take the message's proof. */
  predicate TakesProof(args: Args, tokens: seq<string>) {
    && !args.NullLiteral? && !args.NotObject?
    && ("proof" in Fields(args) ==> Fields(args)["proof"] in {Null, Strs([]), Strs(tokens)})
  }

  /** Exactly the requests that reach an operation do, with or without an entry, bearer or credential;
      and with what arguments and as whom. */
  lemma CalledExactly(d: Deployment, w: World, req: Request, meta: Metadata)
    ensures Dispatched(d, w, req, meta).0.Called? <==>
              && Arrives(d, req, meta)
              && (meta.Tokens? ==> TakesProof(req.args, meta.tokens))
              && (ByCredential(d, w, req, meta) ==> MayRead(w, req, meta.tokens))
    ensures Dispatched(d, w, req, meta).0.Called? && !ByCredential(d, w, req, meta) ==>
              Dispatched(d, w, req, meta) ==
                (Called(d.ops.value[req.tool],
                        if meta.NoEntry? then req.args else Object(Fields(req.args)["proof" := Strs(meta.tokens)]),
                        if d.auth then w.bearer else None),
                 None)
    ensures Dispatched(d, w, req, meta).0.Called? && ByCredential(d, w, req, meta) ==>
              var v := w.verify(meta.tokens).value; var m := Fields(req.args);
              var owned := m[(if NamesOwner(req.tool) then "owner" else "address") := Str(v.principal)];
              Dispatched(d, w, req, meta) ==
                (Called(d.ops.value[req.tool], Object(owned["proof" := Strs(meta.tokens)]),
                        Some(TenantContext(TenantId(v.chainHash), v.principal))),
                 Some(v))
  {
    hide READ_SPECS, Pinned;
    CoveredTools(req.tool);
    if ByCredential(d, w, req, meta) && w.verify(meta.tokens).Some? {
      AsksWithinIsPinned(req.tool, req.args, w.verify(meta.tokens).value);
    }
  }

  /** So an ordinary request, with no delegation entry, is simply called: its arguments as they came, as
      the bearer's tenant if one resolved, nothing admitted. */
  lemma OrdinaryCall(d: Deployment, w: World, req: Request)
    requires Arrives(d, req, NoEntry)
    ensures Dispatched(d, w, req, NoEntry)
         == (Called(d.ops.value[req.tool], req.args, if d.auth then w.bearer else None), None)
  {
    hide READ_SPECS, Authorized;
  }

  /** And what a credential alone lets through names its principal in the tool's own field. */
  lemma ReadNamesPrincipal(d: Deployment, w: World, req: Request, meta: Metadata)
    requires Dispatched(d, w, req, meta).1.Some? && Dispatched(d, w, req, meta).0.Called?
    ensures var v := Dispatched(d, w, req, meta).1.value; var args := Dispatched(d, w, req, meta).0.args;
            && args.Object?
            && (NamesOwner(req.tool) || NamesAddress(req.tool))
            && (req.tool in {"get_balance", "get_live_subaccount"} ==>
                  "owner" in args.m && args.m["owner"] == Str(v.principal))
            && (req.tool !in {"get_balance", "get_live_subaccount"} ==>
                  "address" in args.m && args.m["address"] == Str(v.principal))
            && (req.tool != "get_balance" ==> SubaccountGranted(args.m, v))
  {
    hide Dispatched, READ_SPECS;
    CalledExactly(d, w, req, meta);
  }

  /** The refusals before any authorization, in the order they are given, and the legacy form. */
  lemma HandleRefuses(d: Deployment, w: World, req: Request, meta: Metadata)
    ensures var r := Dispatched(d, w, req, meta).0;
            var usable :=
              req.skill != "" && !meta.Malformed? && (meta.Tokens? ==> meta.tokens != [] && "" !in meta.tokens);
            var legacy := usable && req.skill == "svpchain-market-data" && req.query != "";
            var op := usable && !legacy && d.ops.Some? && req.tool != "";
            && (r == Rejected(NoSkill) <==> req.skill == "")
            && (r == Rejected(BadMetadata) <==> req.skill != "" && meta.Malformed?)
            && (r == Rejected(NoTokens) <==> req.skill != "" && meta.Tokens? && meta.tokens == [])
            && (r == Rejected(EmptyToken) <==> req.skill != "" && meta.Tokens? && "" in meta.tokens)
            && (legacy <==> r == LegacyQuery(req.query)) && (r.LegacyQuery? ==> legacy)
            && (r == Rejected(NoRegistry) <==> usable && !legacy && d.ops.None?)
            && (r == Rejected(NoTool) <==> usable && !legacy && d.ops.Some? && req.tool == "")
            && (r == Rejected(UnknownTool) <==> op && req.tool !in d.ops.value)
            && (r == Rejected(WrongSkill) <==>
                  op && req.tool in d.ops.value && d.ops.value[req.tool].skill != req.skill)
  {
    hide READ_SPECS;
  }

  /** The refusals of a delegated read, in the order they are given. */
  lemma AuthorizeRefuses(w: World, tool: string, tokens: seq<string>, args: Args)
    ensures var r, m := Authorized(w, tool, tokens, args), Fields(args);
            var covered := NamesOwner(tool) || NamesAddress(tool);
            var field := if NamesOwner(tool) then "owner" else "address";
            && (r == Refused(NotCovered) <==> !covered)
            && (r == Refused(NotVerified) <==> covered && w.verify(tokens).None?)
            && (covered && w.verify(tokens).Some? ==>
                  var v := w.verify(tokens).value; var granted := "query.account" in v.actions;
                  var live := granted && w.root(v) == RootState.Accepted; var decoded := args.Object? || args.Absent?;
                  var named := field in m && m[field].Str? && m[field].s != "";
                  var owned := decoded && (field in m ==> m[field] in {Null, Str(""), Str(v.principal)});
                  var sub := "subaccount_number"; var asks := sub in m && m[sub] != Null;
                  var number := asks ==> m[sub].Num? && 0 <= m[sub].n < 0x1_0000_0000;
                  && (r == Refused(NoQueryAction) <==> !granted)
                  && (forall x :: r == Refused(RootRefused(x)) <==> granted && w.root(v) == x != RootState.Accepted)
                  && (r == Refused(BadArgs) <==> live && args.NotObject?)
                  && (r == Panicked <==> live && args.NullLiteral?)
                  && (r == Refused(BadOwner) <==> live && decoded && field in m && !m[field].Null? && !m[field].Str?)
                  && (r == Refused(OtherOwner) <==> live && decoded && named && m[field].s != v.principal)
                  && (r == Refused(BadSubaccount) <==> live && owned && tool != "get_balance" && !number)
                  && (r == Refused(OtherSubaccount) <==>
                        live && owned && tool != "get_balance" && number && !SubaccountGranted(m, v)))
  {
    hide READ_SPECS;
    CoveredTools(tool);
  }

  /** The refusals of the injection. */
  lemma InjectRefuses(args: Args, tokens: seq<string>)
    ensures var r, m := Injected(args, tokens), Fields(args); var decoded := args.Object? || args.Absent?;
            var given := decoded && "proof" in m && m["proof"] != Null;
            && (r == Panicked <==> args.NullLiteral?)
            && (r == Refused(BadArgs) <==> args.NotObject?)
            && (r == Refused(BadProof) <==> given && !m["proof"].Strs?)
            && (r == Refused(ProofsDiffer) <==> given && m["proof"].Strs? && m["proof"].items !in {[], tokens})
            && (r.Done? <==> decoded && (given ==> m["proof"].Strs? && m["proof"].items in {[], tokens}))
            && (r.Done? ==> r.value == Object(m["proof" := Strs(tokens)]))
  {}

  /** A request that resolves a bearer keeps the bearer's tenant, admits no credential, and has
      nothing pinned: its arguments change only by the proof. */
  lemma BearerWins(d: Deployment, w: World, req: Request, meta: Metadata)
    requires d.auth && w.bearer.Some?
    ensures var (r, admitted) := Dispatched(d, w, req, meta);
      && admitted == None
      && (r.Called? ==>
            && r.tenant == w.bearer
            && (meta.NoEntry? ==> r.args == req.args)
            && (meta.Tokens? ==> Injected(req.args, meta.tokens) == Done(r.args)))
  {}

  /** Nothing runs under a chain other than the one the message carries. */
  lemma ProofIsTheMessages(d: Deployment, w: World, req: Request, tokens: seq<string>)
    requires Dispatched(d, w, req, Tokens(tokens)).0.Called?
    ensures var args := Dispatched(d, w, req, Tokens(tokens)).0.args;
            args.Object? && PROOF in args.m && args.m[PROOF] == Strs(tokens)
  {}

  /** Handling panics exactly when a rewrite is due and the arguments are the literal null. */
  lemma CrashesOnlyOnNull(d: Deployment, w: World, req: Request, meta: Metadata)
    ensures Dispatched(d, w, req, meta).0.Crashed? <==>
      && req.skill != "" && meta.Tokens? && Attached(meta).Done?
      && !(req.skill == Registry.MARKET_DATA && req.query != "")
      && d.ops.Some? && req.tool != "" && Registry.Dispatchable(d.ops.value, req.skill, req.tool)
      && req.args.NullLiteral?
      && (IsDelegatedRead(d, w, req.tool, Some(meta.tokens)) ==>
            && w.verify(meta.tokens).Some?
            && QUERY_ACCOUNT in w.verify(meta.tokens).value.actions
            && w.root(w.verify(meta.tokens).value) == RootState.Accepted)
  {}

  /** The tenant a delegated read runs as resolves, until the leaf token expires, to a policy for
      the principal and exactly the credential's subaccounts, unless the table was full. */
  lemma DelegatedReadTenant(d: Deployment, w: World, req: Request, tokens: seq<string>, table: Table, now: int, t: int)
    requires |table| <= MAX && now <= t
    requires Dispatched(d, w, req, Tokens(tokens)).0.Called? && Dispatched(d, w, req, Tokens(tokens)).1.Some?
    ensures var (r, admitted) := Dispatched(d, w, req, Tokens(tokens)); var v := admitted.value;
      && r.tenant.Some?
      && (var id := r.tenant.value.tenantId; var found := Found(Admitted(table, v, now), id, t);
          && (found.Some? <==> !Refuses(table, id, now) && t < v.leafExp)
          && (found.Some? ==> found.value.owner == v.principal == r.tenant.value.owner
                              && forall n :: n in found.value.subaccounts <==> n in v.subaccounts))
  {
    var v := Dispatched(d, w, req, Tokens(tokens)).1.value;
    AdmissionEffect(table, v, now, TenantId(v.chainHash), t);
  }

  // ---- strict execution arguments ---------------------------------------------------------------

  datatype KeyCheck = AllAllowed | NotDecodable | Unknown(key: string)

  /** adaptStrictNative's check: the keys are ranged over in arbitrary order. */
  method UnknownKey(args: Args, allowed: set<string>) returns (r: KeyCheck)
    ensures r.NotDecodable? <==> args.NotObject?
    ensures r.AllAllowed? <==> !args.NotObject? && Fields(args).Keys <= allowed
    ensures r.Unknown? ==> r.key in Fields(args) && r.key !in allowed
  {
    if args.NotObject? {
      return NotDecodable;
    }
    var top := Fields(args);
    var todo := top.Keys;
    while todo != {}
      invariant todo <= top.Keys && top.Keys - todo <= allowed
      decreases todo
    {
      var k :| k in todo;
      if k !in allowed {
        return Unknown(k);
      }
      todo := todo - {k};
    }
    return AllAllowed;
  }

  /** Injection adds the one key the execute tools expect, so it turns no accepted request away
      and lets no flat argument in. */
  lemma InjectionKeepsStrictness(args: Args, tokens: seq<string>, allowed: set<string>)
    requires PROOF in allowed && Injected(args, tokens).Done?
    ensures Fields(Injected(args, tokens).value).Keys <= allowed <==> Fields(args).Keys <= allowed
  {}
}
