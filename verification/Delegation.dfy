/** Delegated operations: what one call verifies, builds and signs. The chain's libraries are the
    fields of Lib, arbitrary functions of which only the stated contracts are used. */
module Delegation {
  import opened Basics

  type Bytes = seq<nat>

  /** A 32-byte hash. */
  type Hash = h: seq<nat> | |h| == 32 && forall i :: 0 <= i < 32 ==> h[i] < 256
    witness seq(32, _ => 0)

  /** A redelegate_to caveat. */
  datatype Targets = Anyone | Only(audiences: set<string>)
  {
    predicate Allows(audience: string) { Anyone? || audience in audiences }
  }

  /** lifetime is the token's expiry less its issue, in seconds. */
  datatype Token = Token(audience: string, redelegateTo: Targets, lifetime: int)

  /** What a verified chain grants. */
  datatype Verified = Verified(
    principal: string, root: nat, rootEpoch: nat, actions: seq<string>, subaccounts: seq<nat>,
    tokens: seq<Token>, leafExp: int, chainHash: Hash)

  datatype VerifyOpts = VerifyOpts(chainId: string, now: int, maxDepth: nat, maxTtl: int, audience: string)
  datatype Params = Params(maxDepth: nat, maxTtl: int)

  datatype ExecOp =
    | PlaceOrder(subaccount: nat, details: Bytes)
    | CancelOrder(subaccount: nat, details: Bytes)
    | BatchCancel(subaccount: nat, details: Bytes)
    | Deposit(subaccount: nat, humanUsdc: string)

  function ActionOf(op: ExecOp): string {
    match op
    case PlaceOrder(_, _) => "clob.place_order"
    case CancelOrder(_, _) => "clob.cancel_order"
    case BatchCancel(_, _) => "clob.batch_cancel"
    case Deposit(_, _) => "sending.deposit_to_subaccount"
  }

  /** The message a builder returns; amount is the quantums it moves, and body stands for
      everything the service does not look at. */
  datatype Inner = Inner(action: string, owner: string, subaccount: nat, amount: nat, body: Bytes)

  datatype Msg =
    | Wrapper(executor: string, agentId: string, tokens: seq<Bytes>, inner: Inner)
    | Register(owner: string, agentId: string, operator: string, capabilityHash: Bytes, bond: nat)
    | Update(owner: string, agentId: string, capabilityHash: Bytes)

  /** A message after the clob ante has unwrapped it. */
  datatype Unwrapped = Bare(inner: Inner) | Plain(msg: Msg)

  datatype FeeSpec = FeeSpec(denom: string, amount: string)
  datatype Coin = Coin(denom: string, amount: int)
  datatype Tx = Tx(msgs: seq<Msg>, sequence: nat, fee: seq<Coin>)

  datatype Config = Config(operator: string, chainId: string, fee: FeeSpec, cardHash: Bytes)

  datatype Lib = Lib(
    decode: string -> Option<Bytes>,
    verify: (seq<Bytes>, VerifyOpts) -> Option<Verified>,
    build: (ExecOp, string) -> Option<Inner>,
    quantums: string -> Option<nat>,
    withinCap: nat -> bool,
    shortTerm: seq<Unwrapped> -> bool,
    validBasic: Msg -> bool,
    tenantOwner: string -> Option<string>,
    parseAmount: string -> Option<int>)

  datatype Refusal =
    | NoProof | NotBase64 | ParamsUnavailable | ChainRejected | RedelegationRefused
    | ActionNotGranted | SubaccountNotGranted | BadAmount | OverCap | NotBuilt | NotValid
    | NoTenant | UnknownTenant | NotOperator | NoCard

  function AgentId(cfg: Config): string { "did:svp:" + cfg.operator }

  /** The builders write the owner, subaccount and action they are called for, and a deposit's
      amount. */
  ghost predicate BuildersFaithful(lib: Lib) {
    forall op, owner :: lib.build(op, owner).Some? ==>
      var m := lib.build(op, owner).value;
      && m.owner == owner && m.subaccount == op.subaccount
      && (op.PlaceOrder? ==> m.action == "clob.place_order")
      && (op.CancelOrder? ==> m.action == "clob.cancel_order")
      && (op.BatchCancel? ==> m.action == "clob.batch_cancel")
      && (op.Deposit? ==> m.action == "sending.deposit_to_subaccount")
      && (op.Deposit? ==> lib.quantums(op.humanUsdc) == Some(m.amount))
  }

  /** What VerifyChain pins: one payload per token and no more than the depth allowed, none meant to
      live longer than the ceiling, and a live leaf addressed to the audience. */
  ghost predicate VerifierSound(lib: Lib) {
    forall raw, opts :: lib.verify(raw, opts).Some? ==>
      var v := lib.verify(raw, opts).value;
      && |v.tokens| == |raw| > 0 && |raw| <= opts.maxDepth
      && (forall t :: t in v.tokens ==> t.lifetime <= opts.maxTtl)
      && v.tokens[|raw| - 1].audience == opts.audience && opts.now < v.leafExp
  }

  // ---- verifying a proof ------------------------------------------------------------

  /** Every child's audience is one its parent allows. */
  ghost predicate LinksAllowed(tokens: seq<Token>) {
    forall i :: 1 <= i < |tokens| ==> tokens[i - 1].redelegateTo.Allows(tokens[i].audience)
  }

  method CheckRedelegationTargets(v: Verified) returns (ok: bool)
    ensures ok <==> LinksAllowed(v.tokens)
    ensures ok <==> forall i :: 1 <= i < |v.tokens| ==>
              v.tokens[i - 1].redelegateTo.Only? ==> v.tokens[i].audience in v.tokens[i - 1].redelegateTo.audiences
  {
    var i := 1;
    while i < |v.tokens|
      invariant 1 <= i
      invariant forall k :: 1 <= k < i && k < |v.tokens| ==> v.tokens[k - 1].redelegateTo.Allows(v.tokens[k].audience)
    {
      if !v.tokens[i - 1].redelegateTo.Allows(v.tokens[i].audience) {
        return false;
      }
      i := i + 1;
    }
    return true;
  }

  /** tokens is the proof, decoded entry by entry. */
  ghost predicate Decodes(lib: Lib, proof: seq<string>, tokens: seq<Bytes>) {
    |tokens| == |proof| && forall i :: 0 <= i < |proof| ==> lib.decode(proof[i]) == Some(tokens[i])
  }

  function Decoded(lib: Lib, proof: seq<string>): (r: Option<seq<Bytes>>)
    ensures r.Some? ==> Decodes(lib, proof, r.value)
    ensures r.Some? <==> forall i :: 0 <= i < |proof| ==> lib.decode(proof[i]).Some?
  {
    if proof == [] then Some([])
    else match (lib.decode(proof[0]), Decoded(lib, proof[1..]))
      case (Some(b), Some(rest)) => Some([b] + rest)
      case (None, _) => None
      case (_, None) =>
        assert exists i :: 0 <= i < |proof[1..]| && lib.decode(proof[1..][i]).None?;
        None
  }

  method DecodeProof(lib: Lib, proof: seq<string>) returns (r: Result<seq<Bytes>, Refusal>)
    ensures r == DecodedProof(lib, proof)
    ensures r == Err(NoProof) <==> proof == []
    ensures r == Err(NotBase64) <==> exists i :: 0 <= i < |proof| && lib.decode(proof[i]).None?
    ensures r.Ok? ==> |r.value| == |proof| && forall i :: 0 <= i < |proof| ==> lib.decode(proof[i]) == Some(r.value[i])
    ensures r.Err? ==> r.error == NoProof || r.error == NotBase64
  {
    if |proof| == 0 {
      return Err(NoProof);
    }
    var tokens: seq<Bytes> := [];
    for i := 0 to |proof|
      invariant |tokens| == i
      invariant forall k :: 0 <= k < i ==> lib.decode(proof[k]) == Some(tokens[k])
    {
      var raw := lib.decode(proof[i]);
      if raw.None? {
        assert lib.decode(proof[i]).None?;
        return Err(NotBase64);
      }
      tokens := tokens + [raw.value];
    }
    var d := Decoded(lib, proof);
    assert d.Some?;
    assert forall k :: 0 <= k < |proof| ==> Some(tokens[k]) == lib.decode(proof[k]) == Some(d.value[k]);
    assert tokens == d.value;
    return Ok(tokens);
  }

  function DecodedProof(lib: Lib, proof: seq<string>): Result<seq<Bytes>, Refusal> {
    if proof == [] then Err(NoProof)
    else match Decoded(lib, proof)
      case None => Err(NotBase64)
      case Some(tokens) => Ok(tokens)
  }

  function OptsFor(cfg: Config, params: Params, now: int): VerifyOpts {
    VerifyOpts(cfg.chainId, now, params.maxDepth, params.maxTtl, AgentId(cfg))
  }

  ghost function VerifyTokens(lib: Lib, cfg: Config, tokens: seq<Bytes>, params: Params, now: int)
    : Result<Verified, Refusal>
  {
    match lib.verify(tokens, OptsFor(cfg, params, now))
    case None => Err(ChainRejected)
    case Some(v) => if LinksAllowed(v.tokens) then Ok(v) else Err(RedelegationRefused)
  }

  /** verifyProof after the parameters are known. */
  method VerifyProof(lib: Lib, cfg: Config, tokens: seq<Bytes>, params: Params, now: int)
    returns (r: Result<Verified, Refusal>)
    ensures r == VerifyTokens(lib, cfg, tokens, params, now)
    ensures var opts := VerifyOpts(cfg.chainId, now, params.maxDepth, params.maxTtl, "did:svp:" + cfg.operator);
            var answer := lib.verify(tokens, opts);
            && (r == Err(ChainRejected) <==> answer.None?)
            && (r == Err(RedelegationRefused) <==> answer.Some? && !LinksAllowed(answer.value.tokens))
            && (r.Ok? <==> answer.Some? && LinksAllowed(answer.value.tokens))
            && (r.Ok? ==> answer == Some(r.value))
  {
    var v := lib.verify(tokens, OptsFor(cfg, params, now));
    if v.None? {
      return Err(ChainRejected);
    }
    var ok := CheckRedelegationTargets(v.value);
    if !ok {
      return Err(RedelegationRefused);
    }
    return Ok(v.value);
  }

  // ---- building the message -----------------------------------------------------------

  /** preflight. */
  function Preflight(v: Verified, action: string, subaccount: nat): Option<Refusal> {
    if action !in v.actions then Some(ActionNotGranted)
    else if subaccount !in v.subaccounts then Some(SubaccountNotGranted)
    else None
  }

  /** The wrapped message of one execute operation, for a verified grant. */
  function BuildExec(lib: Lib, cfg: Config, op: ExecOp, tokens: seq<Bytes>, v: Verified): Result<Msg, Refusal> {
    match Preflight(v, ActionOf(op), op.subaccount)
    case Some(e) => Err(e)
    case None =>
      if op.Deposit? && lib.quantums(op.humanUsdc).None? then Err(BadAmount)
      else if op.Deposit? && !lib.withinCap(lib.quantums(op.humanUsdc).value) then Err(OverCap)
      else match lib.build(op, v.principal)
        case None => Err(NotBuilt)
        case Some(inner) =>
          var w := Wrapper(cfg.operator, AgentId(cfg), tokens, inner);
          if lib.validBasic(w) then Ok(w) else Err(NotValid)
  }

  /** requireOperator. */
  function RequireOperator(lib: Lib, cfg: Config, tenant: Option<string>): Option<Refusal> {
    match tenant
    case None => Some(NoTenant)
    case Some(id) =>
      match lib.tenantOwner(id)
      case None => Some(UnknownTenant)
      case Some(owner) => if owner == cfg.operator then None else Some(NotOperator)
  }

  /** The registry message of a self operation; a bond means registration. */
  function BuildOwn(lib: Lib, cfg: Config, bond: Option<nat>): Result<Msg, Refusal> {
    if cfg.cardHash == [] then Err(NoCard)
    else
      var m := match bond
        case Some(b) => Register(cfg.operator, AgentId(cfg), cfg.operator, cfg.cardHash, b)
        case None => Update(cfg.operator, AgentId(cfg), cfg.cardHash);
      if lib.validBasic(m) then Ok(m) else Err(NotValid)
  }

  /** An execute operation is built exactly when the credential grants its action and subaccount, a
      deposit's amount reads and is within the cap, the builder builds, and the wrapper is valid; the
      first of these to fail is the refusal. */
  lemma ExecuteOutcome(lib: Lib, cfg: Config, op: ExecOp, tokens: seq<Bytes>, v: Verified)
    ensures var r := BuildExec(lib, cfg, op, tokens, v);
            var granted :=
              && (op.PlaceOrder? ==> "clob.place_order" in v.actions)
              && (op.CancelOrder? ==> "clob.cancel_order" in v.actions)
              && (op.BatchCancel? ==> "clob.batch_cancel" in v.actions)
              && (op.Deposit? ==> "sending.deposit_to_subaccount" in v.actions);
            var inside := granted && op.subaccount in v.subaccounts;
            var readable := inside && (op.Deposit? ==> lib.quantums(op.humanUsdc).Some?);
            var affordable := readable && (op.Deposit? ==> lib.withinCap(lib.quantums(op.humanUsdc).value));
            var inner := lib.build(op, v.principal);
            && (r == Err(ActionNotGranted) <==> !granted)
            && (r == Err(SubaccountNotGranted) <==> granted && !inside)
            && (r == Err(BadAmount) <==> inside && !readable)
            && (r == Err(OverCap) <==> readable && !affordable)
            && (r == Err(NotBuilt) <==> affordable && inner.None?)
            && (affordable && inner.Some? ==>
                  var w := Wrapper(cfg.operator, "did:svp:" + cfg.operator, tokens, inner.value);
                  r == if lib.validBasic(w) then Ok(w) else Err(NotValid))
  {}

  /** An own registration or update is built exactly for a caller whose tenant is the operator's, once
      the card is known, and when the message is valid; it names the operator throughout. */
  lemma OwnOutcome(lib: Lib, cfg: Config, tenant: Option<string>, bond: Option<nat>)
    ensures var refusal := RequireOperator(lib, cfg, tenant);
            && (refusal == Some(NoTenant) <==> tenant.None?)
            && (refusal == Some(UnknownTenant) <==> tenant.Some? && lib.tenantOwner(tenant.value).None?)
            && (refusal == None <==> tenant.Some? && lib.tenantOwner(tenant.value) == Some(cfg.operator))
            && (refusal.Some? ==> refusal.value in {NoTenant, UnknownTenant, NotOperator})
    ensures var r := BuildOwn(lib, cfg, bond); var id := "did:svp:" + cfg.operator;
            var m := if bond.Some? then Register(cfg.operator, id, cfg.operator, cfg.cardHash, bond.value)
                     else Update(cfg.operator, id, cfg.cardHash);
            && (r == Err(NoCard) <==> cfg.cardHash == [])
            && (cfg.cardHash != [] ==> r == if lib.validBasic(m) then Ok(m) else Err(NotValid))
  {}

  // ---- signing ------------------------------------------------------------------------

  function Unwrap(m: Msg): Unwrapped {
    if m.Wrapper? then Bare(m.inner) else Plain(m)
  }

  function UnwrapAll(msgs: seq<Msg>): seq<Unwrapped> {
    if msgs == [] then [] else UnwrapAll(msgs[..|msgs| - 1]) + [Unwrap(msgs[|msgs| - 1])]
  }

  /** Every wrapper is seen as its inner message, every other message as itself. */
  lemma {:induction false} UnwrapsEach(msgs: seq<Msg>)
    ensures |UnwrapAll(msgs)| == |msgs|
    ensures forall i :: 0 <= i < |msgs| ==>
              UnwrapAll(msgs)[i] == if msgs[i].Wrapper? then Bare(msgs[i].inner) else Plain(msgs[i])
  {
    if msgs != [] {
      UnwrapsEach(msgs[..|msgs| - 1]);
    }
  }

  method GasFreeFor(lib: Lib, msgs: seq<Msg>) returns (free: bool)
    ensures free == lib.shortTerm(UnwrapAll(msgs))
  {
    var unwrapped: seq<Unwrapped> := [];
    for i := 0 to |msgs|
      invariant unwrapped == UnwrapAll(msgs[..i])
    {
      assert msgs[..i + 1][..i] == msgs[..i];
      unwrapped := unwrapped + [Unwrap(msgs[i])];
    }
    assert msgs[..|msgs|] == msgs;
    free := lib.shortTerm(unwrapped);
  }

  /** The transaction SignTx signs, or None where it fails. */
  function SignedTx(lib: Lib, msgs: seq<Msg>, sequence: nat, fee: FeeSpec, gasFree: bool): Option<Tx> {
    if msgs == [] then None
    else if gasFree then Some(Tx(msgs, sequence, []))
    else match lib.parseAmount(fee.amount)
      case None => None
      case Some(a) => Some(Tx(msgs, sequence, if a == 0 then [] else [Coin(fee.denom, a)]))
  }

  method SignTx(lib: Lib, msgs: seq<Msg>, sequence: nat, fee: FeeSpec, gasFree: bool) returns (tx: Option<Tx>)
    ensures tx == SignedTx(lib, msgs, sequence, fee, gasFree)
  {
    if |msgs| == 0 {
      return None;
    }
    var body: seq<Msg> := [];
    for i := 0 to |msgs|
      invariant body == msgs[..i]
    {
      body := body + [msgs[i]];
    }
    assert body == msgs;
    var feeCoins: seq<Coin> := [];
    if !gasFree {
      var amount := lib.parseAmount(fee.amount);
      if amount.None? {
        return None;
      }
      if amount.value != 0 {
        feeCoins := [Coin(fee.denom, amount.value)];
      }
    }
    return Some(Tx(body, sequence, feeCoins));
  }

  /** Signing fails exactly for no messages, or for a fee that is due and does not read; else the
      transaction has all the messages, the sequence given, and the fee if it is due and not zero. */
  lemma SignOutcome(lib: Lib, msgs: seq<Msg>, sequence: nat, fee: FeeSpec, gasFree: bool)
    ensures var tx := SignedTx(lib, msgs, sequence, fee, gasFree); var amount := lib.parseAmount(fee.amount);
            && (tx.None? <==> msgs == [] || (!gasFree && amount.None?))
            && (tx.Some? ==> tx.value.msgs == msgs && tx.value.sequence == sequence)
            && (tx.Some? && gasFree ==> tx.value.fee == [])
            && (tx.Some? && !gasFree && amount == Some(0) ==> tx.value.fee == [])
            && (tx.Some? && !gasFree && amount != Some(0) ==> tx.value.fee == [Coin(fee.denom, amount.value)])
  {}

  // ---- what a broadcast transaction must be ---------------------------------------------

  /** What a credential chain was verified against. The instants are history: the parameters were
      looked up at `checked`, the chain gave them at `asOf`, and they were used at `at`. */
  datatype Check = Check(params: Params, now: int, checked: nat, asOf: nat, at: nat)

  /** Why a transaction exists: what was established for it. */
  datatype Cause =
    | Granted(op: ExecOp, proof: seq<string>, check: Check, v: Verified)
    | ByOperator(tenant: string)

  predicate IsGasFree(lib: Lib, m: Msg) { m.Wrapper? && lib.shortTerm([Bare(m.inner)]) }

  /** A wrapper is judged by its inner message, as the loop above judges it; the agent's own messages
      always pay. */
  lemma WrapperGasFree(lib: Lib, m: Msg)
    ensures m.Wrapper? ==> (IsGasFree(lib, m) <==> lib.shortTerm(UnwrapAll([m])))
    ensures m.Wrapper? ==> (IsGasFree(lib, m) <==> lib.shortTerm([Bare(m.inner)]))
    ensures !m.Wrapper? ==> !IsGasFree(lib, m)
  {
    if m.Wrapper? {
      assert [m][..0] == [];
      assert UnwrapAll([m]) == [Bare(m.inner)];
    }
  }

  /** Every check behind the cause passed, and m is the message then built. */
  ghost predicate Warranted(lib: Lib, cfg: Config, m: Msg, cause: Cause) {
    match cause
    case Granted(op, proof, check, v) =>
      && m.Wrapper? && m.executor == cfg.operator && m.agentId == AgentId(cfg)
      && proof != [] && Decodes(lib, proof, m.tokens)
      && lib.verify(m.tokens, OptsFor(cfg, check.params, check.now)) == Some(v) && LinksAllowed(v.tokens)
      && ActionOf(op) in v.actions && op.subaccount in v.subaccounts
      && lib.build(op, v.principal) == Some(m.inner)
      && (op.Deposit? ==> lib.quantums(op.humanUsdc).Some? && lib.withinCap(lib.quantums(op.humanUsdc).value))
    case ByOperator(tenant) =>
      && lib.tenantOwner(tenant) == Some(cfg.operator)
      && (m.Register? || m.Update?) && m.owner == cfg.operator && m.agentId == AgentId(cfg)
      && (m.Register? ==> m.operator == cfg.operator)
      && m.capabilityHash == cfg.cardHash && cfg.cardHash != []
  }

  /** The message itself stays inside the grant: the principal's own, an action and subaccount that
      are granted, and a deposit no larger than the cap. */
  ghost predicate InGrant(lib: Lib, op: ExecOp, v: Verified, inner: Inner) {
    && inner.owner == v.principal
    && inner.action == ActionOf(op) && inner.action in v.actions
    && inner.subaccount == op.subaccount && inner.subaccount in v.subaccounts
    && (op.Deposit? ==> lib.quantums(op.humanUsdc) == Some(inner.amount) && lib.withinCap(inner.amount))
  }

  /** The one message a cause entitles the agent to send. */
  ghost predicate Entitled(lib: Lib, cfg: Config, m: Msg, cause: Cause) {
    Warranted(lib, cfg, m, cause) && (cause.Granted? ==> InGrant(lib, cause.op, cause.v, m.inner))
  }

  lemma WarrantedIsEntitled(lib: Lib, cfg: Config, m: Msg, cause: Cause)
    requires BuildersFaithful(lib) && Warranted(lib, cfg, m, cause)
    ensures Entitled(lib, cfg, m, cause)
  {
    if cause.Granted? {
      assert lib.build(cause.op, cause.v.principal).Some?;
    }
  }

  lemma ExecWarranted(lib: Lib, cfg: Config, op: ExecOp, proof: seq<string>, tokens: seq<Bytes>, check: Check)
    requires DecodedProof(lib, proof) == Ok(tokens)
    requires VerifyTokens(lib, cfg, tokens, check.params, check.now).Ok?
    requires BuildExec(lib, cfg, op, tokens, VerifyTokens(lib, cfg, tokens, check.params, check.now).value).Ok?
    ensures var v := VerifyTokens(lib, cfg, tokens, check.params, check.now).value;
            Warranted(lib, cfg, BuildExec(lib, cfg, op, tokens, v).value, Granted(op, proof, check, v))
  {}

  /** Whatever message an execute operation builds is one it is entitled to. */
  lemma ExecEntitled(lib: Lib, cfg: Config, op: ExecOp, proof: seq<string>, tokens: seq<Bytes>, check: Check)
    requires BuildersFaithful(lib) && DecodedProof(lib, proof) == Ok(tokens)
    requires VerifyTokens(lib, cfg, tokens, check.params, check.now).Ok?
    requires BuildExec(lib, cfg, op, tokens, VerifyTokens(lib, cfg, tokens, check.params, check.now).value).Ok?
    ensures var v := VerifyTokens(lib, cfg, tokens, check.params, check.now).value;
            Entitled(lib, cfg, BuildExec(lib, cfg, op, tokens, v).value, Granted(op, proof, check, v))
    ensures var v := VerifyTokens(lib, cfg, tokens, check.params, check.now).value;
            && (op.PlaceOrder? ==> "clob.place_order" in v.actions)
            && (op.CancelOrder? ==> "clob.cancel_order" in v.actions)
            && (op.BatchCancel? ==> "clob.batch_cancel" in v.actions)
            && (op.Deposit? ==> "sending.deposit_to_subaccount" in v.actions)
  {
    var v := VerifyTokens(lib, cfg, tokens, check.params, check.now).value;
    ExecWarranted(lib, cfg, op, proof, tokens, check);
    WarrantedIsEntitled(lib, cfg, BuildExec(lib, cfg, op, tokens, v).value, Granted(op, proof, check, v));
  }

  /** An entitled wrapper rests on an unbroken chain: every hop was allowed by the hop before, the
      last hop is this agent, and the leaf outlives the clock it was verified at. */
  lemma EntitledChain(lib: Lib, cfg: Config, m: Msg, cause: Cause)
    requires VerifierSound(lib) && Warranted(lib, cfg, m, cause) && m.Wrapper?
    ensures cause.Granted? && |cause.v.tokens| == |cause.proof| > 0
    ensures cause.v.tokens[|cause.v.tokens| - 1].audience == AgentId(cfg)
    ensures LinksAllowed(cause.v.tokens) && cause.check.now < cause.v.leafExp
    ensures |cause.v.tokens| <= cause.check.params.maxDepth
    ensures forall t :: t in cause.v.tokens ==> t.lifetime <= cause.check.params.maxTtl
  {}
}
