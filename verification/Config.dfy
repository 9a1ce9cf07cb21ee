/** Configuration: what Validate accepts, and that Build then binds everything configured. */
module Config {
  import opened Basics

  datatype ForeignChain = ForeignChain(chainId: nat, rpcUrl: string, bridgeAddr: string)

  datatype Config = Config(
    dexId: string, grpcAddr: string, cometUrl: string, indexerUrl: string, evmRpcUrl: string,
    listenAddr: string, agentId: string, agentRestUrl: string, feeDenom: string, feeAmount: string,
    swapRouter: string, wsvpAddr: string, oracleFeed: string, comptroller: string,
    bridgeAddr: string, routesPath: string, sourceChainId: nat, foreignChains: seq<ForeignChain>)

  /** sdkmath.NewIntFromString, as an arbitrary partial reading. */
  type IntParser = string -> Option<int>

  predicate IsHexChar(c: char) { '0' <= c <= '9' || 'a' <= c <= 'f' || 'A' <= c <= 'F' }

  /** common.IsHexAddress: 40 hex digits behind an optional 0x. */
  predicate IsHexAddress(s: string) {
    IsHexBody(if |s| >= 2 && s[0] == '0' && (s[1] == 'x' || s[1] == 'X') then s[2..] else s)
  }

  predicate IsHexBody(body: string) {
    |body| == 40 && forall i :: 0 <= i < |body| ==> IsHexChar(body[i])
  }

  // ---- what is acceptable -----------------------------------------------------------------

  predicate EndpointsGiven(c: Config) {
    c.dexId != "" && c.grpcAddr != "" && c.cometUrl != "" && c.indexerUrl != "" && c.listenAddr != ""
  }

  predicate FeeOk(c: Config, parse: IntParser) {
    c.feeDenom != "" && parse(c.feeAmount).Some? && parse(c.feeAmount).value >= 0
  }

  /** A single-address family: absent, or a valid address with an EVM endpoint. */
  predicate FamilyOk(c: Config, addr: string) {
    addr != "" ==> IsHexAddress(addr) && c.evmRpcUrl != ""
  }

  predicate SwapOk(c: Config) {
    (c.swapRouter == "" <==> c.wsvpAddr == "") && FamilyOk(c, c.swapRouter) && FamilyOk(c, c.wsvpAddr)
  }

  /** The bridge is all or nothing. */
  predicate BridgeOk(c: Config) {
    && (c.bridgeAddr == "" <==> c.routesPath == "")
    && (c.bridgeAddr == "" <==> c.sourceChainId == 0)
    && FamilyOk(c, c.bridgeAddr)
  }

  predicate ForeignChainOk(c: Config, f: ForeignChain) {
    f.chainId != 0 && f.chainId != c.sourceChainId && f.rpcUrl != "" && IsHexAddress(f.bridgeAddr)
  }

  ghost predicate Distinct(fs: seq<ForeignChain>) {
    forall i, j :: 0 <= i < j < |fs| ==> fs[i].chainId != fs[j].chainId
  }

  ghost predicate ForeignOk(c: Config) {
    c.foreignChains != [] ==>
      && c.bridgeAddr != ""
      && (forall i :: 0 <= i < |c.foreignChains| ==> ForeignChainOk(c, c.foreignChains[i]))
      && Distinct(c.foreignChains)
  }

  ghost predicate Acceptable(c: Config, parse: IntParser) {
    && EndpointsGiven(c)
    && (c.agentId == "" <==> c.agentRestUrl == "")
    && FeeOk(c, parse)
    && SwapOk(c) && FamilyOk(c, c.oracleFeed) && FamilyOk(c, c.comptroller)
    && BridgeOk(c) && ForeignOk(c)
  }

  /** The characters of an address: digits and letters a to f of either case. */
  lemma HexChars(c: char)
    ensures IsHexChar(c) <==> c in "0123456789abcdefABCDEF"
  {}

  lemma AllHex(b: string)
    ensures (forall i :: 0 <= i < |b| ==> IsHexChar(b[i])) <==> forall c :: c in b ==> c in "0123456789abcdefABCDEF"
  {
    hide IsHexChar;
    forall c ensures IsHexChar(c) <==> c in "0123456789abcdefABCDEF" {
      HexChars(c);
    }
  }

  /** An address is forty such characters, with or without "0x" or "0X" in front. */
  lemma AddressMeans(s: string)
    ensures IsHexAddress(s) <==>
      || (|s| == 40 && forall c :: c in s ==> c in "0123456789abcdefABCDEF")
      || (|s| == 42 && (s[..2] == "0x" || s[..2] == "0X") && forall c :: c in s[2..] ==> c in "0123456789abcdefABCDEF")
  {
    assert !IsHexChar('x') && !IsHexChar('X');
    AllHex(s);
    HexChars('x');
    HexChars('X');
    hide IsHexChar;
    if |s| >= 2 {
      assert s[..2] == [s[0], s[1]] && s[1] in s;
      AllHex(s[2..]);
    }
  }

  /** Every address of an accepted configuration is one, and there is an endpoint to reach it. */
  lemma AcceptedAddresses(c: Config, parse: IntParser, addr: string)
    requires Acceptable(c, parse) && addr != ""
    requires addr in {c.swapRouter, c.wsvpAddr, c.oracleFeed, c.comptroller, c.bridgeAddr}
             || exists i :: 0 <= i < |c.foreignChains| && c.foreignChains[i].bridgeAddr == addr
    ensures c.evmRpcUrl != ""
    ensures || (|addr| == 40 && forall x :: x in addr ==> x in "0123456789abcdefABCDEF")
            || (|addr| == 42 && (addr[..2] == "0x" || addr[..2] == "0X")
                && forall x :: x in addr[2..] ==> x in "0123456789abcdefABCDEF")
  {
    hide IsHexAddress;
    AddressMeans(addr);
    if i :| 0 <= i < |c.foreignChains| && c.foreignChains[i].bridgeAddr == addr {
      assert ForeignChainOk(c, c.foreignChains[i]);
    }
  }

  /** All a configuration must have to be accepted, and all it needs: the chain's endpoints; the agent
      chain's two settings together; a fee that reads and is not negative; each family's settings
      together, its addresses being addresses, with an endpoint to reach it; and foreign chains that are
      complete, distinct, none of them home, behind a bridge. */
  lemma AcceptedMeans(c: Config, parse: IntParser)
    ensures Acceptable(c, parse) <==>
      && "" !in {c.dexId, c.grpcAddr, c.cometUrl, c.indexerUrl, c.listenAddr, c.feeDenom}
      && (c.agentId == "" <==> c.agentRestUrl == "")
      && parse(c.feeAmount).Some? && parse(c.feeAmount).value >= 0
      && (c.swapRouter == "" <==> c.wsvpAddr == "")
      && (c.bridgeAddr == "" <==> c.routesPath == "") && (c.bridgeAddr == "" <==> c.sourceChainId == 0)
      && (c.swapRouter != "" ==> IsHexAddress(c.swapRouter) && c.evmRpcUrl != "")
      && (c.wsvpAddr != "" ==> IsHexAddress(c.wsvpAddr) && c.evmRpcUrl != "")
      && (c.oracleFeed != "" ==> IsHexAddress(c.oracleFeed) && c.evmRpcUrl != "")
      && (c.comptroller != "" ==> IsHexAddress(c.comptroller) && c.evmRpcUrl != "")
      && (c.bridgeAddr != "" ==> IsHexAddress(c.bridgeAddr) && c.evmRpcUrl != "")
      && (c.foreignChains != [] ==> c.bridgeAddr != "")
      && (forall i :: 0 <= i < |c.foreignChains| ==>
            var f := c.foreignChains[i];
            f.chainId != 0 && f.chainId != c.sourceChainId && f.rpcUrl != "" && IsHexAddress(f.bridgeAddr))
      && (forall i, j :: 0 <= i < j < |c.foreignChains| ==> c.foreignChains[i].chainId != c.foreignChains[j].chainId)
  {
    hide IsHexAddress;
    FamiliesMean(c);
    ForeignMeans(c);
    hide SwapOk, FamilyOk, BridgeOk, ForeignOk;
  }

  lemma FamiliesMean(c: Config)
    ensures SwapOk(c) && FamilyOk(c, c.oracleFeed) && FamilyOk(c, c.comptroller) && BridgeOk(c) <==>
      && (c.swapRouter == "" <==> c.wsvpAddr == "")
      && (c.bridgeAddr == "" <==> c.routesPath == "") && (c.bridgeAddr == "" <==> c.sourceChainId == 0)
      && (c.swapRouter != "" ==> IsHexAddress(c.swapRouter) && c.evmRpcUrl != "")
      && (c.wsvpAddr != "" ==> IsHexAddress(c.wsvpAddr) && c.evmRpcUrl != "")
      && (c.oracleFeed != "" ==> IsHexAddress(c.oracleFeed) && c.evmRpcUrl != "")
      && (c.comptroller != "" ==> IsHexAddress(c.comptroller) && c.evmRpcUrl != "")
      && (c.bridgeAddr != "" ==> IsHexAddress(c.bridgeAddr) && c.evmRpcUrl != "")
  {
    hide IsHexAddress;
  }

  lemma ForeignMeans(c: Config)
    ensures ForeignOk(c) <==>
      && (c.foreignChains != [] ==> c.bridgeAddr != "")
      && (forall i :: 0 <= i < |c.foreignChains| ==>
            var f := c.foreignChains[i];
            f.chainId != 0 && f.chainId != c.sourceChainId && f.rpcUrl != "" && IsHexAddress(f.bridgeAddr))
      && (forall i, j :: 0 <= i < j < |c.foreignChains| ==> c.foreignChains[i].chainId != c.foreignChains[j].chainId)
  {
    hide IsHexAddress;
    assert ForeignOk(c) ==> forall i :: 0 <= i < |c.foreignChains| ==> ForeignChainOk(c, c.foreignChains[i]);
  }

  // ---- validation, as the source runs it ------------------------------------------------------

  method ValidateSwap(c: Config) returns (ok: bool)
    ensures ok <==> SwapOk(c)
  {
    if c.swapRouter == "" && c.wsvpAddr == "" {
      return true;
    }
    if c.swapRouter == "" || c.wsvpAddr == "" {
      return false;
    }
    if !IsHexAddress(c.swapRouter) || !IsHexAddress(c.wsvpAddr) {
      return false;
    }
    return c.evmRpcUrl != "";
  }

  method ValidateFamily(c: Config, addr: string) returns (ok: bool)
    ensures ok <==> FamilyOk(c, addr)
  {
    if addr == "" {
      return true;
    }
    if !IsHexAddress(addr) {
      return false;
    }
    return c.evmRpcUrl != "";
  }

  method ValidateBridge(c: Config) returns (ok: bool)
    ensures ok <==> BridgeOk(c)
  {
    var given := 0;
    if c.bridgeAddr != "" {
      given := given + 1;
    }
    if c.routesPath != "" {
      given := given + 1;
    }
    if c.sourceChainId != 0 {
      given := given + 1;
    }
    if given == 0 {
      return true;
    }
    if given != 3 {
      return false;
    }
    if !IsHexAddress(c.bridgeAddr) {
      return false;
    }
    return c.evmRpcUrl != "";
  }

  method ValidateForeignChains(c: Config) returns (ok: bool)
    ensures ok <==> ForeignOk(c)
  {
    hide IsHexAddress;
    if |c.foreignChains| == 0 {
      return true;
    }
    if c.bridgeAddr == "" {
      return false;
    }
    var seen: map<nat, bool> := map[];
    for i := 0 to |c.foreignChains|
      invariant forall k :: 0 <= k < i ==> ForeignChainOk(c, c.foreignChains[k])
      invariant Distinct(c.foreignChains[..i])
      invariant forall id :: id in seen <==> exists k :: 0 <= k < i && c.foreignChains[k].chainId == id
    {
      var fc := c.foreignChains[i];
      if fc.chainId == 0 || fc.chainId == c.sourceChainId {
        assert !ForeignChainOk(c, fc);
        return false;
      }
      if fc.chainId in seen {
        assert !Distinct(c.foreignChains);
        return false;
      }
      seen := seen[fc.chainId := true];
      if fc.rpcUrl == "" || !IsHexAddress(fc.bridgeAddr) {
        assert !ForeignChainOk(c, fc);
        return false;
      }
      assert ForeignChainOk(c, fc);
    }
    assert c.foreignChains[..|c.foreignChains|] == c.foreignChains;
    return true;
  }

  method Validate(c: Config, parse: IntParser) returns (ok: bool)
    ensures ok <==> Acceptable(c, parse)
  {
    if c.dexId == "" || c.grpcAddr == "" || c.cometUrl == "" || c.indexerUrl == "" || c.listenAddr == "" {
      return false;
    }
    if (c.agentId == "") != (c.agentRestUrl == "") {
      return false;
    }
    var amount := parse(c.feeAmount);
    if c.feeDenom == "" || amount.None? || amount.value < 0 {
      return false;
    }
    var swap := ValidateSwap(c);
    if !swap {
      return false;
    }
    var oracle := ValidateFamily(c, c.oracleFeed);
    if !oracle {
      return false;
    }
    var lendora := ValidateFamily(c, c.comptroller);
    if !lendora {
      return false;
    }
    var bridge := ValidateBridge(c);
    if !bridge {
      return false;
    }
    ok := ValidateForeignChains(c);
  }

  // ---- building ---------------------------------------------------------------------------

  /** What Build wires for the EVM families. */
  datatype Bindings = Bindings(swap: bool, oracle: bool, lendora: bool, bridge: bool,
                               foreign: map<nat, ForeignChain>)

  /** Whether the bindings, route registry and dials Build makes succeed. */
  datatype Outside = Outside(binds: seq<string> -> bool, routes: string -> bool, source: nat -> bool,
                             resolves: nat -> bool, dials: string -> bool)

  /** The loop's map: a later entry for an id would overwrite an earlier one. */
  function ForeignMap(fs: seq<ForeignChain>): map<nat, ForeignChain> {
    if fs == [] then map[]
    else
      var n := |fs| - 1;
      ForeignMap(fs[..n])[fs[n].chainId := fs[n]]
  }

  function Bound(c: Config): Bindings {
    if c.evmRpcUrl == "" then Bindings(false, false, false, false, map[])
    else Bindings(c.swapRouter != "", c.oracleFeed != "", c.comptroller != "", c.bridgeAddr != "",
                  if c.bridgeAddr != "" then ForeignMap(c.foreignChains) else map[])
  }

  predicate ForeignReachable(f: ForeignChain, o: Outside) {
    o.resolves(f.chainId) && o.binds([f.bridgeAddr]) && o.dials(f.rpcUrl)
  }

  /** Everything configured can be bound and dialled. */
  predicate Reachable(c: Config, o: Outside) {
    c.evmRpcUrl != "" ==>
      && o.dials(c.evmRpcUrl)
      && (c.swapRouter != "" ==> o.binds([c.swapRouter, c.wsvpAddr]))
      && (c.oracleFeed != "" ==> o.binds([c.oracleFeed]))
      && (c.comptroller != "" ==> o.binds([c.comptroller]))
      && (c.bridgeAddr != "" ==>
            && o.binds([c.bridgeAddr]) && o.routes(c.routesPath) && o.source(c.sourceChainId)
            && forall i :: 0 <= i < |c.foreignChains| ==> ForeignReachable(c.foreignChains[i], o))
  }

  method BuildForeign(c: Config, o: Outside) returns (r: Option<map<nat, ForeignChain>>)
    ensures r.Some? <==> forall i :: 0 <= i < |c.foreignChains| ==> ForeignReachable(c.foreignChains[i], o)
    ensures r.Some? ==> r.value == ForeignMap(c.foreignChains)
  {
    var foreign: map<nat, ForeignChain> := map[];
    for i := 0 to |c.foreignChains|
      invariant foreign == ForeignMap(c.foreignChains[..i])
      invariant forall k :: 0 <= k < i ==> ForeignReachable(c.foreignChains[k], o)
    {
      assert c.foreignChains[..i + 1][..i] == c.foreignChains[..i];
      var fc := c.foreignChains[i];
      if !o.resolves(fc.chainId) || !o.binds([fc.bridgeAddr]) || !o.dials(fc.rpcUrl) {
        assert !ForeignReachable(fc, o);
        return None;
      }
      foreign := foreign[fc.chainId := fc];
    }
    assert c.foreignChains[..|c.foreignChains|] == c.foreignChains;
    return Some(foreign);
  }

  method BuildFamilies(c: Config, o: Outside) returns (r: Option<Bindings>)
    ensures r == if Reachable(c, o) then Some(Bound(c)) else None
    ensures r.Some? <==> (c.evmRpcUrl != "" ==>
              && o.dials(c.evmRpcUrl)
              && (c.swapRouter != "" ==> o.binds([c.swapRouter, c.wsvpAddr]))
              && (c.oracleFeed != "" ==> o.binds([c.oracleFeed]))
              && (c.comptroller != "" ==> o.binds([c.comptroller]))
              && (c.bridgeAddr != "" ==>
                    && o.binds([c.bridgeAddr]) && o.routes(c.routesPath) && o.source(c.sourceChainId)
                    && forall i :: 0 <= i < |c.foreignChains| ==>
                         var f := c.foreignChains[i];
                         o.resolves(f.chainId) && o.binds([f.bridgeAddr]) && o.dials(f.rpcUrl)))
  {
    var b := Bindings(false, false, false, false, map[]);
    if c.evmRpcUrl != "" {
      if !o.dials(c.evmRpcUrl) {
        return None;
      }
      if c.swapRouter != "" {
        if !o.binds([c.swapRouter, c.wsvpAddr]) {
          return None;
        }
        b := b.(swap := true);
      }
      if c.oracleFeed != "" {
        if !o.binds([c.oracleFeed]) {
          return None;
        }
        b := b.(oracle := true);
      }
      if c.comptroller != "" {
        if !o.binds([c.comptroller]) {
          return None;
        }
        b := b.(lendora := true);
      }
      if c.bridgeAddr != "" {
        if !o.binds([c.bridgeAddr]) || !o.routes(c.routesPath) || !o.source(c.sourceChainId) {
          return None;
        }
        b := b.(bridge := true);
        var foreign := BuildForeign(c, o);
        if foreign.None? {
          return None;
        }
        b := b.(foreign := foreign.value);
      }
    }
    return Some(b);
  }

  lemma {:induction false} ForeignMapMembers(fs: seq<ForeignChain>, id: nat)
    ensures id in ForeignMap(fs) <==> exists i :: 0 <= i < |fs| && fs[i].chainId == id
  {
    if fs != [] {
      ForeignMapMembers(fs[..|fs| - 1], id);
      assert forall i :: 0 <= i < |fs| - 1 ==> fs[i] == fs[..|fs| - 1][i];
      if i :| 0 <= i < |fs| && fs[i].chainId == id {
        assert i < |fs| - 1 ==> fs[..|fs| - 1][i].chainId == id;
      }
    }
  }

  /** The last chain declared under an id is the one the map holds. */
  lemma {:induction false} LastDeclaredWins(fs: seq<ForeignChain>, i: nat)
    requires i < |fs| && forall j :: i < j < |fs| ==> fs[j].chainId != fs[i].chainId
    ensures fs[i].chainId in ForeignMap(fs) && ForeignMap(fs)[fs[i].chainId] == fs[i]
  {
    if i < |fs| - 1 {
      LastDeclaredWins(fs[..|fs| - 1], i);
    }
  }

  lemma {:induction false} ForeignMapComplete(fs: seq<ForeignChain>)
    ensures Distinct(fs) ==>
      && |ForeignMap(fs)| == |fs|
      && (forall i :: 0 <= i < |fs| ==> fs[i].chainId in ForeignMap(fs) && ForeignMap(fs)[fs[i].chainId] == fs[i])
  {
    if fs != [] && Distinct(fs) {
      var init, last := fs[..|fs| - 1], fs[|fs| - 1];
      ForeignMapComplete(init);
      ForeignMapMembers(init, last.chainId);
      assert forall i :: 0 <= i < |init| ==> fs[i] == init[i];
    }
  }

  /** For an accepted configuration nothing configured is skipped: every family given an address is
      bound, and the foreign map has one entry per declared chain, none overwritten. */
  lemma AcceptedIsBound(c: Config, parse: IntParser)
    requires Acceptable(c, parse)
    ensures var b := Bound(c);
      && (b.swap <==> c.swapRouter != "" || c.wsvpAddr != "")
      && (b.oracle <==> c.oracleFeed != "")
      && (b.lendora <==> c.comptroller != "")
      && (b.bridge <==> c.bridgeAddr != "" || c.routesPath != "" || c.sourceChainId != 0)
      && |b.foreign| == |c.foreignChains|
      && (forall i :: 0 <= i < |c.foreignChains| ==>
            c.foreignChains[i].chainId in b.foreign
            && b.foreign[c.foreignChains[i].chainId] == c.foreignChains[i])
      && c.sourceChainId !in b.foreign
  {
    ForeignMapComplete(c.foreignChains);
    ForeignMapMembers(c.foreignChains, c.sourceChainId);
  }
}
