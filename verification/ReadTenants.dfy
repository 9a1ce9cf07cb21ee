/** Proof-derived tenants: a bounded table of policies that live as long as their leaf token, and
    the lookup that fans out over it and the bearer tenants. */
module ReadTenants {
  import opened Basics
  import opened Delegation

  /** maxReadTenants. */
  const MAX: nat := 4096

  datatype Policy = Policy(tenantId: string, owner: string, subaccounts: set<nat>, killSwitch: bool)
  datatype ReadTenant = ReadTenant(policy: Policy, expires: int)
  datatype TenantContext = TenantContext(tenantId: string, owner: string)
  type Table = map<string, ReadTenant>

  // ---- tenant ids -----------------------------------------------------------------------

  function HexDigit(n: nat): (c: char)
    requires n < 16
    ensures c == "0123456789abcdef"[n]
  {
    if n < 10 then ('0' as int + n) as char else ('a' as int + n - 10) as char
  }

  function Hex(b: seq<nat>): (s: string)
    requires forall i :: 0 <= i < |b| ==> b[i] < 256
    ensures |s| == 2 * |b|
  {
    if b == [] then "" else [HexDigit(b[0] / 16), HexDigit(b[0] % 16)] + Hex(b[1..])
  }

  function TenantId(h: Hash): string { "svpdt-" + Hex(h[..8]) }

  lemma {:induction false} HexInjective(a: seq<nat>, b: seq<nat>)
    requires |a| == |b|
    requires forall i :: 0 <= i < |a| ==> a[i] < 256 && b[i] < 256
    requires Hex(a) == Hex(b)
    ensures a == b
  {
    if a != [] {
      assert Hex(a)[0] == Hex(b)[0] && Hex(a)[1] == Hex(b)[1];
      assert a[0] / 16 == b[0] / 16 && a[0] % 16 == b[0] % 16;
      assert Hex(a)[2..] == Hex(a[1..]) && Hex(b)[2..] == Hex(b[1..]);
      HexInjective(a[1..], b[1..]);
    }
  }

  /** Two credentials share a tenant exactly when the first eight bytes of their hashes agree. */
  lemma TenantIdsAgree(a: Hash, b: Hash)
    ensures TenantId(a) == TenantId(b) <==> a[..8] == b[..8]
  {
    if TenantId(a) == TenantId(b) {
      assert TenantId(a)[6..] == Hex(a[..8]) && TenantId(b)[6..] == Hex(b[..8]);
      HexInjective(a[..8], b[..8]);
    }
  }

  /** An id is "svpdt-" and the first eight bytes of the hash in lower-case hexadecimal. */
  lemma TenantIdWritten(h: Hash, i: nat)
    requires i < 8
    ensures |TenantId(h)| == 22 && TenantId(h)[..6] == "svpdt-"
    ensures TenantId(h)[6 + 2 * i] == "0123456789abcdef"[h[i] / 16]
    ensures TenantId(h)[7 + 2 * i] == "0123456789abcdef"[h[i] % 16]
  {
    HexAt(h[..8], i);
  }

  lemma {:induction false} HexAt(b: seq<nat>, i: nat)
    requires i < |b| && forall j :: 0 <= j < |b| ==> b[j] < 256
    ensures Hex(b)[2 * i] == HexDigit(b[i] / 16) && Hex(b)[2 * i + 1] == HexDigit(b[i] % 16)
  {
    if i > 0 {
      HexAt(b[1..], i - 1);
      assert Hex(b)[2..] == Hex(b[1..]);
    }
  }

  // ---- the table ------------------------------------------------------------------------

  function PolicyOf(v: Verified): Policy {
    Policy(TenantId(v.chainHash), v.principal, set n | n in v.subaccounts, false)
  }

  function Swept(table: Table, now: int): Table {
    map id | id in table && now < table[id].expires :: table[id]
  }

  predicate Refuses(table: Table, id: string, now: int) {
    id !in Swept(table, now) && |Swept(table, now)| >= MAX
  }

  function Admitted(table: Table, v: Verified, now: int): Table {
    var id := TenantId(v.chainHash);
    if Refuses(table, id, now) then Swept(table, now)
    else Swept(table, now)[id := ReadTenant(PolicyOf(v), v.leafExp)]
  }

  function Found(table: Table, id: string, now: int): Option<Policy> {
    if id in table && now < table[id].expires then Some(table[id].policy) else None
  }

  class ReadTenantSource {
    var byID: Table

    constructor ()
      ensures byID == map[]
    {
      byID := map[];
    }

    /** The map is visited in no particular order, and entries go as they are visited. */
    method SweepLocked(now: int)
      modifies this
      ensures byID == Swept(old(byID), now)
    {
      var todo := byID.Keys;
      ghost var before := byID;
      while todo != {}
        invariant todo <= byID.Keys <= before.Keys
        invariant forall id :: id in byID ==> byID[id] == before[id]
        invariant forall id :: id in before && id !in todo ==> (id in byID <==> now < before[id].expires)
        decreases todo
      {
        var id :| id in todo;
        todo := todo - {id};
        if now >= byID[id].expires {
          byID := byID - {id};
        }
      }
    }

    method Admit(v: Verified, now: int) returns (tc: TenantContext)
      modifies this
      ensures byID == Admitted(old(byID), v, now)
      ensures tc == TenantContext(TenantId(v.chainHash), v.principal)
    {
      var id := TenantId(v.chainHash);
      var subs: set<nat> := {};
      for i := 0 to |v.subaccounts|
        invariant forall n :: n in subs <==> n in v.subaccounts[..i]
      {
        subs := subs + {v.subaccounts[i]};
      }
      assert subs == PolicyOf(v).subaccounts;
      SweepLocked(now);
      tc := TenantContext(id, v.principal);
      if id !in byID && |byID| >= MAX {
        return;
      }
      byID := byID[id := ReadTenant(Policy(id, v.principal, subs, false), v.leafExp)];
    }

    method LookupTenantPolicy(id: string, now: int) returns (r: Option<Policy>)
      ensures r == Found(byID, id, now)
    {
      if id !in byID || now >= byID[id].expires {
        return None;
      }
      return Some(byID[id].policy);
    }
  }

  // ---- the plain log it must agree with ---------------------------------------------------

  datatype Admission = Admission(id: string, policy: Policy, expires: int)

  /** The last admission of an id that was accepted. */
  function LastOf(log: seq<Admission>, id: string): Option<Admission> {
    if log == [] then None
    else if log[|log| - 1].id == id then Some(log[|log| - 1])
    else LastOf(log[..|log| - 1], id)
  }

  predicate Live(log: seq<Admission>, id: string, now: int) {
    LastOf(log, id).Some? && now < LastOf(log, id).value.expires
  }

  function LiveIds(log: seq<Admission>, now: int): set<string> {
    set a | a in log && Live(log, a.id, now) :: a.id
  }

  /** Admission without a table: refused only when MAX other ids are live right now. */
  function Logged(log: seq<Admission>, v: Verified, now: int): seq<Admission> {
    var id := TenantId(v.chainHash);
    if !Live(log, id, now) && |LiveIds(log, now)| >= MAX then log
    else log + [Admission(id, PolicyOf(v), v.leafExp)]
  }

  function Answer(log: seq<Admission>, id: string, now: int): Option<Policy> {
    if Live(log, id, now) then Some(LastOf(log, id).value.policy) else None
  }

  /** Live ids are tabled as last logged; anything else in the table is already dead. */
  ghost predicate Agrees(table: Table, log: seq<Admission>, now: int) {
    forall id :: AgreesOn(table, log, id, now)
  }

  predicate AgreesOn(table: Table, log: seq<Admission>, id: string, now: int) {
    if Live(log, id, now) then
      var a := LastOf(log, id).value;
      id in table && table[id] == ReadTenant(a.policy, a.expires)
    else id in table ==> table[id].expires <= now
  }

  lemma {:induction false} LastIsLogged(log: seq<Admission>, id: string)
    ensures LastOf(log, id).Some? ==> LastOf(log, id).value in log && LastOf(log, id).value.id == id
  {
    if log != [] {
      LastIsLogged(log[..|log| - 1], id);
    }
  }

  lemma LiveIdsAreSwept(table: Table, log: seq<Admission>, now: int)
    requires Agrees(table, log, now)
    ensures Swept(table, now).Keys == LiveIds(log, now)
  {
    forall id ensures id in Swept(table, now) <==> id in LiveIds(log, now) {
      assert AgreesOn(table, log, id, now);
      LastIsLogged(log, id);
    }
  }

  lemma AgreesLater(table: Table, log: seq<Admission>, now: int, later: int)
    requires Agrees(table, log, now) && now <= later
    ensures Agrees(table, log, later)
  {
    forall id ensures AgreesOn(table, log, id, later) {
      assert AgreesOn(table, log, id, now);
    }
  }

  lemma AdmitAgrees(table: Table, log: seq<Admission>, v: Verified, now: int)
    requires Agrees(table, log, now)
    ensures Agrees(Admitted(table, v, now), Logged(log, v, now), now)
  {
    var id := TenantId(v.chainHash);
    LiveIdsAreSwept(table, log, now);
    assert |Swept(table, now)| == |Swept(table, now).Keys|;
    assert AgreesOn(table, log, id, now);
    var next := Logged(log, v, now);
    assert next != log ==> next[..|next| - 1] == log;
    forall x ensures AgreesOn(Admitted(table, v, now), next, x, now) {
      assert AgreesOn(table, log, x, now);
    }
  }

  /** One operation on the source, with the clock it read. */
  datatype Op = Admit(v: Verified, now: int) | Look(id: string, now: int)

  ghost predicate ClockForward(ops: seq<Op>) {
    forall i, j :: 0 <= i < j < |ops| ==> ops[i].now <= ops[j].now
  }

  function TableAfter(ops: seq<Op>): Table {
    if ops == [] then map[]
    else
      var table, op := TableAfter(ops[..|ops| - 1]), ops[|ops| - 1];
      if op.Admit? then Admitted(table, op.v, op.now) else table
  }

  function LogAfter(ops: seq<Op>): seq<Admission> {
    if ops == [] then []
    else
      var log, op := LogAfter(ops[..|ops| - 1]), ops[|ops| - 1];
      if op.Admit? then Logged(log, op.v, op.now) else log
  }

  lemma {:induction false} RunAgrees(ops: seq<Op>, now: int)
    requires ClockForward(ops) && (ops != [] ==> ops[|ops| - 1].now <= now)
    ensures Agrees(TableAfter(ops), LogAfter(ops), now)
  {
    if ops != [] {
      var init, op := ops[..|ops| - 1], ops[|ops| - 1];
      RunAgrees(init, op.now);
      if op.Admit? {
        AdmitAgrees(TableAfter(init), LogAfter(init), op.v, op.now);
      }
      AgreesLater(TableAfter(ops), LogAfter(ops), op.now, now);
    }
  }

  /** After any run whose clock does not go back, a lookup answers with the last accepted
      admission of the id exactly while its leaf token lives. */
  lemma {:induction false} TableRefinesLog(ops: seq<Op>, id: string, now: int)
    requires ClockForward(ops) && (ops != [] ==> ops[|ops| - 1].now <= now)
    ensures Found(TableAfter(ops), id, now) == Answer(LogAfter(ops), id, now)
  {
    RunAgrees(ops, now);
    assert AgreesOn(TableAfter(ops), LogAfter(ops), id, now);
  }

  /** Sweeping changes the answer to a lookup exactly when the lookup's clock is behind the
      sweep's and the entry expired in between: never, once the clock only moves forward. */
  lemma SweepInvisible(table: Table, swept: int, id: string, now: int)
    ensures Found(Swept(table, swept), id, now) == Found(table, id, now)
            <==> !(id in table && now < table[id].expires <= swept)
    ensures swept <= now ==> Found(Swept(table, swept), id, now) == Found(table, id, now)
  {}

  // ---- capacity -------------------------------------------------------------------------

  lemma {:induction false} TableBounded(ops: seq<Op>)
    ensures |TableAfter(ops)| <= MAX
    ensures |TableAfter(ops)| <= 4096
    ensures forall id :: id in TableAfter(ops) ==> "svpdt-" <= id
  {
    if ops != [] {
      var init, op := ops[..|ops| - 1], ops[|ops| - 1];
      TableBounded(init);
      if op.Admit? {
        SweptSize(TableAfter(init), op.now);
        var t, id := Swept(TableAfter(init), op.now), TenantId(op.v.chainHash);
        assert TableAfter(ops).Keys == if Refuses(TableAfter(init), id, op.now) then t.Keys else t.Keys + {id};
        assert |TableAfter(ops).Keys| == |TableAfter(ops)| && |t.Keys| == |t|;
        assert id in t.Keys ==> t.Keys + {id} == t.Keys;
      }
    }
  }

  lemma SweptSize(table: Table, now: int)
    ensures |Swept(table, now)| <= |table|
  {
    assert Swept(table, now).Keys <= table.Keys;
    SubsetSize(Swept(table, now).Keys, table.Keys);
  }

  lemma {:induction false} SubsetSize<T>(a: set<T>, b: set<T>)
    requires a <= b
    ensures |a| <= |b|
  {
    if a != {} {
      var x :| x in a;
      SubsetSize(a - {x}, b - {x});
    }
  }

  function LiveOthers(table: Table, id: string, now: int): set<string> {
    set x | x in table && x != id && now < table[x].expires
  }

  /** An admission is refused exactly when its own id is not live and MAX other ids are; granted or
      not, it drops no other live entry, and a granted one answers until its leaf token expires. */
  lemma AdmissionEffect(table: Table, v: Verified, now: int, other: string, t: int)
    requires |table| <= MAX && now <= t
    ensures var id := TenantId(v.chainHash);
            && (Refuses(table, id, now) <==>
                  !(id in table && now < table[id].expires) && |LiveOthers(table, id, now)| == 4096)
            && (Found(Admitted(table, v, now), id, t)
                  == if !Refuses(table, id, now) && t < v.leafExp
                     then Some(Policy(id, v.principal, set n | n in v.subaccounts, false)) else None)
            && (other != id ==> Found(Admitted(table, v, now), other, t) == Found(table, other, t))
  {
    var id := TenantId(v.chainHash);
    SweptSize(table, now);
    var s := Swept(table, now);
    assert |s| == |s.Keys|;
    assert id !in s ==> s.Keys == LiveOthers(table, id, now);
  }

  // ---- the fan-out over tenant populations ------------------------------------------------

  /** What one source answers at the instant of a lookup. */
  type Source = map<string, Policy>

  function FirstHit(sources: seq<Source>, id: string): Option<Policy> {
    if sources == [] then None
    else if id in sources[0] then Some(sources[0][id])
    else FirstHit(sources[1..], id)
  }

  /** multiDynamicSource: the first source that answers wins. */
  method LookupTenantPolicy(sources: seq<Source>, id: string) returns (r: Option<Policy>)
    ensures r == FirstHit(sources, id)
  {
    for i := 0 to |sources|
      invariant FirstHit(sources, id) == FirstHit(sources[i..], id)
    {
      assert sources[i..][1..] == sources[i + 1..];
      if id in sources[i] {
        return Some(sources[i][id]);
      }
    }
    return None;
  }

  /** A source answers exactly when it has the id and no earlier one does. */
  lemma {:induction false} FirstHitIsFirst(sources: seq<Source>, id: string, i: nat)
    requires i < |sources| && id in sources[i] && forall j :: 0 <= j < i ==> id !in sources[j]
    ensures FirstHit(sources, id) == Some(sources[i][id])
  {
    if i > 0 {
      FirstHitIsFirst(sources[1..], id, i - 1);
    }
  }

  ghost predicate Disjoint(sources: seq<Source>) {
    forall i, j :: 0 <= i < j < |sources| ==> sources[i].Keys !! sources[j].Keys
  }

  function Union(sources: seq<Source>): Source {
    if sources == [] then map[] else Union(sources[1..]) + sources[0]
  }

  /** First hit wins is the union of the sources, later ones giving way. */
  lemma {:induction false} FirstHitIsUnion(sources: seq<Source>, id: string)
    ensures FirstHit(sources, id) == if id in Union(sources) then Some(Union(sources)[id]) else None
  {
    if sources != [] {
      FirstHitIsUnion(sources[1..], id);
    }
  }

  lemma {:induction false} HitWhere(sources: seq<Source>, id: string, i: nat)
    requires Disjoint(sources) && i < |sources| && id in sources[i]
    ensures FirstHit(sources, id) == Some(sources[i][id])
  {
    if i > 0 {
      assert sources[0].Keys !! sources[i].Keys;
      HitWhere(sources[1..], id, i - 1);
    }
  }

  /** Where a first hit comes from. */
  lemma {:induction false} HitFrom(sources: seq<Source>, id: string)
    ensures match FirstHit(sources, id)
            case None => forall s :: s in sources ==> id !in s
            case Some(p) => exists s :: s in sources && id in s && s[id] == p
  {
    if sources != [] {
      HitFrom(sources[1..], id);
      assert sources == [sources[0]] + sources[1..];
      if id !in sources[0] && FirstHit(sources, id).Some? {
        var s :| s in sources[1..] && id in s && s[id] == FirstHit(sources, id).value;
        assert s in sources;
      } else {
        assert sources[0] in sources;
      }
    }
  }

  /** When no id is in two sources, their order does not matter. */
  lemma OrderFree(a: seq<Source>, b: seq<Source>, id: string)
    requires multiset(a) == multiset(b) && Disjoint(a)
    ensures FirstHit(a, id) == FirstHit(b, id)
  {
    assert forall s :: s in a <==> s in multiset(a);
    assert forall s :: s in b <==> s in multiset(b);
    HitFrom(a, id);
    HitFrom(b, id);
    if FirstHit(b, id).Some? {
      var s :| s in b && id in s && s[id] == FirstHit(b, id).value;
      var i :| 0 <= i < |a| && a[i] == s;
      HitWhere(a, id, i);
    }
  }

  /** What the read tenants answer at `now`. */
  function Answers(table: Table, now: int): Source {
    map id | id in table && now < table[id].expires :: table[id].policy
  }

  lemma PrefixesDiffer(k: string)
    requires "auto-" <= k
    ensures !("svpdt-" <= k)
  {
    assert k[0] == "auto-"[0];
  }

  /** Bearer tenants are named "auto-…" and read tenants "svpdt-…", so wiring them in either order
      answers alike, and an admitted credential resolves through the fan-out to its own policy. */
  lemma WiredSources(auto: Source, ops: seq<Op>, id: string, now: int)
    requires forall k :: k in auto ==> "auto-" <= k
    ensures var proved := Answers(TableAfter(ops), now);
            && FirstHit([auto, proved], id) == FirstHit([proved, auto], id)
            && ("svpdt-" <= id ==> FirstHit([auto, proved], id) == Found(TableAfter(ops), id, now))
  {
    TableBounded(ops);
    var proved := Answers(TableAfter(ops), now);
    forall k | k in auto ensures !("svpdt-" <= k) {
      PrefixesDiffer(k);
    }
    assert auto.Keys !! proved.Keys;
    assert multiset([auto, proved]) == multiset([proved, auto]);
    OrderFree([auto, proved], [proved, auto], id);
    assert [auto, proved][1..] == [proved];
    if "svpdt-" <= id {
      assert [proved][1..] == [];
      assert FirstHit([proved], id) == Found(TableAfter(ops), id, now);
    }
  }
}
