/** The operation registry, its grouping by skill, and the Agent Card's skill list built from it. */
module Registry {
  import opened Basics

  /** An operation without its handler. */
  datatype Op = Op(skill: string, tool: string)

  type Ops = map<string, Op>
  type Grouping = map<string, seq<string>>

  // ---- the order sort.Strings sorts by -----------------------------------------------------

  predicate Less(a: string, b: string) {
    b != "" && (a == "" || a[0] < b[0] || (a[0] == b[0] && Less(a[1..], b[1..])))
  }

  lemma {:induction false} LessIsStrict(a: string, b: string)
    ensures !(Less(a, b) && Less(b, a)) && !Less(a, a)
    ensures a != b ==> Less(a, b) || Less(b, a)
  {
    if a != "" && b != "" {
      LessIsStrict(a[1..], b[1..]);
      if a[0] == b[0] && a[1..] == b[1..] {
        assert a == [a[0]] + a[1..] && b == [b[0]] + b[1..];
      }
    }
    if a != "" {
      LessIsStrict(a[1..], a[1..]);
    }
  }

  lemma {:induction false} LessTransitive(a: string, b: string, c: string)
    requires Less(a, b) && Less(b, c)
    ensures Less(a, c)
  {
    if a != "" && a[0] == b[0] == c[0] {
      LessTransitive(a[1..], b[1..], c[1..]);
    }
  }

  /** a comes first where the two part: there it has ended, or has the smaller character. */
  predicate PartsBelow(a: string, b: string, k: nat) {
    k <= |a| && k < |b| && a[..k] == b[..k] && (k == |a| || a[k] < b[k])
  }

  /** The order is the dictionary's. */
  lemma {:induction false} LessIsDictionary(a: string, b: string)
    ensures Less(a, b) <==> exists k :: PartsBelow(a, b, k)
  {
    if a == "" || b == "" || a[0] != b[0] {
      if Less(a, b) {
        assert PartsBelow(a, b, 0);
      }
    } else {
      LessIsDictionary(a[1..], b[1..]);
      if k: nat :| PartsBelow(a[1..], b[1..], k) {
        assert a[..k + 1] == [a[0]] + a[1..][..k] && b[..k + 1] == [b[0]] + b[1..][..k];
        assert PartsBelow(a, b, k + 1);
      }
      if k: nat :| PartsBelow(a, b, k) {
        assert a[1..][..k - 1] == a[..k][1..] && b[1..][..k - 1] == b[..k][1..];
        assert PartsBelow(a[1..], b[1..], k - 1);
      }
    }
  }

  /** Strictly increasing: sorted and free of duplicates. */
  ghost predicate Ascending(s: seq<string>) {
    forall i, j :: 0 <= i < j < |s| ==> Less(s[i], s[j])
  }

  function InsertString(x: string, s: seq<string>): seq<string> {
    if s != [] && Less(s[0], x) then [s[0]] + InsertString(x, s[1..]) else [x] + s
  }

  function SortStrings(s: seq<string>): seq<string> {
    if s == [] then [] else InsertString(s[0], SortStrings(s[1..]))
  }

  lemma {:induction false} InsertAscending(x: string, s: seq<string>)
    requires Ascending(s) && x !in s
    ensures Ascending(InsertString(x, s))
    ensures forall y :: y in InsertString(x, s) <==> y == x || y in s
  {
    if s != [] {
      LessIsStrict(s[0], x);
      if Less(s[0], x) {
        InsertAscending(x, s[1..]);
        assert s == [s[0]] + s[1..];
        var r := InsertString(x, s[1..]);
        forall j | 0 <= j < |r| ensures Less(s[0], r[j]) {
          assert r[j] in r;
        }
      } else {
        forall j | 0 <= j < |s| ensures Less(x, s[j]) {
          if j > 0 {
            LessTransitive(x, s[0], s[j]);
          }
        }
      }
    }
  }

  ghost predicate NoDuplicates(s: seq<string>) {
    forall i, j :: 0 <= i < j < |s| ==> s[i] != s[j]
  }

  lemma {:induction false} SortAscending(s: seq<string>)
    requires NoDuplicates(s)
    ensures Ascending(SortStrings(s))
    ensures forall y :: y in SortStrings(s) <==> y in s
  {
    if s != [] {
      SortAscending(s[1..]);
      InsertAscending(s[0], SortStrings(s[1..]));
      assert s == [s[0]] + s[1..];
    }
  }

  /** An ascending list is determined by its elements. */
  lemma {:induction false} AscendingUnique(a: seq<string>, b: seq<string>)
    requires Ascending(a) && Ascending(b) && forall y :: y in a <==> y in b
    ensures a == b
  {
    assert a != [] ==> a[0] in a;
    assert b != [] ==> b[0] in b;
    if a != [] && b != [] {
      FirstIsLeast(a, b[0]);
      FirstIsLeast(b, a[0]);
      LessIsStrict(a[0], b[0]);
      assert a == [a[0]] + a[1..] && b == [b[0]] + b[1..];
      LessIsStrict(a[0], a[0]);
      forall y ensures y in a[1..] <==> y in b[1..] {
        assert y in a <==> y in b;
      }
      AscendingUnique(a[1..], b[1..]);
    }
  }

  lemma FirstIsLeast(a: seq<string>, y: string)
    requires Ascending(a) && y in a
    ensures y == a[0] || Less(a[0], y)
  {}

  // ---- grouping ---------------------------------------------------------------------------

  /** Each skill with exactly its tools, in ascending order. */
  ghost predicate IsGrouping(ops: Ops, out: Grouping) {
    && (forall s :: s in out <==> exists t :: t in ops && ops[t].skill == s)
    && (forall s :: s in out ==> Ascending(out[s]))
    && (forall s, t :: s in out ==> (t in out[s] <==> t in ops && ops[t].skill == s))
  }

  /** Whatever order the maps were visited in, there is one grouping. */
  lemma GroupingUnique(ops: Ops, a: Grouping, b: Grouping)
    requires IsGrouping(ops, a) && IsGrouping(ops, b)
    ensures a == b
  {
    hide Less, Ascending;
    assert a.Keys == b.Keys;
    forall s | s in a ensures a[s] == b[s] {
      assert s in b;
      forall t ensures t in a[s] <==> t in b[s] {
        assert t in a[s] <==> t in ops && ops[t].skill == s;
        assert t in b[s] <==> t in ops && ops[t].skill == s;
      }
      AscendingUnique(a[s], b[s]);
    }
  }

  /** The groups partition the registered tools. */
  lemma GroupingPartitions(ops: Ops, out: Grouping, tool: string)
    requires IsGrouping(ops, out)
    ensures tool in ops <==> exists s :: s in out && tool in out[s]
    ensures forall s, r :: s in out && r in out && tool in out[s] && tool in out[r] ==> s == r
    ensures forall s :: s in out ==> out[s] != [] && NoDuplicates(out[s])
  {
    if tool in ops {
      var s := ops[tool].skill;
      assert s in out && tool in out[s];
    }
    forall s | s in out ensures out[s] != [] && NoDuplicates(out[s]) {
      var t :| t in ops && ops[t].skill == s;
      assert t in out[s];
      forall i, j | 0 <= i < j < |out[s]| ensures out[s][i] != out[s][j] {
        LessIsStrict(out[s][i], out[s][i]);
      }
    }
  }

  /** Groups of the tools visited so far, unsorted. */
  ghost predicate Gathered(ops: Ops, visited: set<string>, out: Grouping) {
    && (forall s :: s in out <==> exists t :: t in visited && t in ops && ops[t].skill == s)
    && (forall s :: s in out ==> NoDuplicates(out[s]))
    && (forall s, t :: s in out ==> (t in out[s] <==> t in visited && t in ops && ops[t].skill == s))
  }

  lemma GatherNone(ops: Ops)
    ensures Gathered(ops, {}, map[])
  {}

  lemma GatherOne(ops: Ops, visited: set<string>, out: Grouping, tool: string)
    requires Gathered(ops, visited, out) && tool in ops && tool !in visited
    ensures var s := ops[tool].skill;
            Gathered(ops, visited + {tool}, out[s := (if s in out then out[s] else []) + [tool]])
  {}

  class Registry {
    var ops: Ops

    ghost predicate Valid()
      reads this
    {
      forall t :: t in ops ==> ops[t].tool == t
    }

    constructor ()
      ensures Valid() && ops == map[]
    {
      ops := map[];
    }

    /** Registers an operation; a duplicate tool is the source's panic, reported as !ok. */
    method Add(skill: string, tool: string) returns (ok: bool)
      requires Valid()
      modifies this
      ensures Valid() && (ok <==> tool !in old(ops))
      ensures ops == if ok then old(ops)[tool := Op(skill, tool)] else old(ops)
    {
      if tool in ops {
        return false;
      }
      ops := ops[tool := Op(skill, tool)];
      return true;
    }

    method Lookup(tool: string) returns (op: Option<Op>)
      ensures op == if tool in ops then Some(ops[tool]) else None
    {
      op := if tool in ops then Some(ops[tool]) else None;
    }

    /** Both maps are ranged over in arbitrary order. */
    method BySkill() returns (out: Grouping)
      requires Valid()
      ensures IsGrouping(ops, out)
    {
      hide Gathered, IsGrouping, SortStrings;
      out := map[];
      GatherNone(ops);
      var todo := ops.Keys;
      assert ops.Keys - todo == {};
      while todo != {}
        invariant todo <= ops.Keys
        invariant Gathered(ops, ops.Keys - todo, out)
        decreases todo
      {
        var t :| t in todo;
        GatherOne(ops, ops.Keys - todo, out, t);
        assert ops.Keys - (todo - {t}) == (ops.Keys - todo) + {t};
        var op := ops[t];
        out := out[op.skill := (if op.skill in out then out[op.skill] else []) + [op.tool]];
        todo := todo - {t};
      }
      ghost var gathered := out;
      assert ops.Keys - {} == ops.Keys;
      var unsorted := out.Keys;
      while unsorted != {}
        invariant unsorted <= out.Keys == gathered.Keys
        invariant forall s :: s in unsorted ==> out[s] == gathered[s]
        invariant forall s :: s in out && s !in unsorted ==> out[s] == SortStrings(gathered[s])
        decreases unsorted
      {
        var s :| s in unsorted;
        out := out[s := SortStrings(out[s])];
        unsorted := unsorted - {s};
      }
      SortedGroups(ops, gathered, out);
    }
  }

  lemma SortedGroups(ops: Ops, gathered: Grouping, out: Grouping)
    requires Gathered(ops, ops.Keys, gathered) && out.Keys == gathered.Keys
    requires forall s :: s in out ==> out[s] == SortStrings(gathered[s])
    ensures IsGrouping(ops, out)
  {
    forall s | s in out
      ensures Ascending(out[s]) && forall t :: t in out[s] <==> t in gathered[s]
    {
      SortAscending(gathered[s]);
    }
  }

  // ---- the card ---------------------------------------------------------------------------

  const MARKET_DATA := "svpchain-market-data"
  const EXECUTION := "svpchain-execution"

  /** Ids of skillMetas, in card order. */
  const SKILL_METAS: seq<string> := [
    MARKET_DATA, "svpchain-account", "svpchain-trading", "svpchain-funds", "svpchain-broadcast",
    "svpchain-auth", "svpchain-faucet", "svpchain-evm", "svpchain-lendora",
    "svpchain-agent-registry", "svpchain-delegation", EXECUTION]

  /** A skill as the card lists it: its id and the tools named in its description. */
  datatype CardSkill = CardSkill(id: string, tools: seq<string>)

  /** Skills of the card over the given metas. */
  function CardOf(metas: seq<string>, full: bool, groups: Grouping): seq<CardSkill> {
    if metas == [] then []
    else
      var n := |metas| - 1;
      var id := metas[n];
      var tools := if id in groups then groups[id] else [];
      var shown := if full then tools != [] else id == MARKET_DATA || id == EXECUTION;
      CardOf(metas[..n], full, groups) + if shown then [CardSkill(id, tools)] else []
  }

  /** The legacy card without a registry; otherwise the card over the registry's one grouping. */
  method BuildAgentCard(metas: seq<string>, reg: Registry?) returns (skills: seq<CardSkill>)
    requires reg != null ==> reg.Valid()
    ensures reg == null ==> skills == CardOf(metas, false, map[])
    ensures reg != null ==> exists groups :: IsGrouping(reg.ops, groups) && skills == CardOf(metas, true, groups)
    ensures reg != null ==> forall skill, tool ::
              Lists(skills, skill, tool) <==> skill in metas && Dispatchable(reg.ops, skill, tool)
  {
    hide Lists, Dispatchable, IsGrouping;
    var bySkill: Grouping := map[];
    if reg != null {
      bySkill := reg.BySkill();
    }
    skills := [];
    for i := 0 to |metas|
      invariant skills == CardOf(metas[..i], reg != null, bySkill)
    {
      assert metas[..i + 1][..i] == metas[..i];
      var id := metas[i];
      var tools := if id in bySkill then bySkill[id] else [];
      if reg == null {
        if id != MARKET_DATA && id != EXECUTION {
          continue;
        }
      } else if |tools| == 0 {
        continue;
      }
      skills := skills + [CardSkill(id, tools)];
    }
    assert metas[..|metas|] == metas;
    if reg != null {
      forall skill, tool
        ensures Lists(skills, skill, tool) <==> skill in metas && Dispatchable(reg.ops, skill, tool)
      {
        CardMembers(metas, reg.ops, bySkill, skill, tool);
      }
    }
  }

  /** The check handle makes before dispatching. */
  predicate Dispatchable(ops: Ops, skill: string, tool: string) {
    tool in ops && ops[tool].skill == skill
  }

  /** The card names the tool under the skill. */
  ghost predicate Lists(card: seq<CardSkill>, skill: string, tool: string) {
    exists c :: c in card && c.id == skill && tool in c.tools
  }

  lemma ListsSnoc(init: seq<CardSkill>, c: CardSkill, skill: string, tool: string)
    ensures Lists(init + [c], skill, tool) <==> Lists(init, skill, tool) || (c.id == skill && tool in c.tools)
  {}

  lemma {:induction false} CardMembers(metas: seq<string>, ops: Ops, groups: Grouping, skill: string, tool: string)
    requires IsGrouping(ops, groups)
    ensures Lists(CardOf(metas, true, groups), skill, tool) <==> skill in metas && Dispatchable(ops, skill, tool)
  {
    hide Lists, IsGrouping, Dispatchable;
    if metas == [] {
      ListsNothing(skill, tool);
    } else {
      var n := |metas| - 1;
      var id, init := metas[n], CardOf(metas[..n], true, groups);
      var tools := if id in groups then groups[id] else [];
      CardMembers(metas[..n], ops, groups, skill, tool);
      assert metas == metas[..n] + [id];
      GroupMember(ops, groups, id, tool);
      if tools != [] {
        ListsSnoc(init, CardSkill(id, tools), skill, tool);
      } else {
        assert init + [] == init;
      }
    }
  }

  lemma GroupMember(ops: Ops, groups: Grouping, id: string, tool: string)
    requires IsGrouping(ops, groups)
    ensures tool in (if id in groups then groups[id] else []) <==> Dispatchable(ops, id, tool)
  {
    if Dispatchable(ops, id, tool) {
      assert id in groups;
    }
  }

  lemma ListsNothing(skill: string, tool: string)
    ensures !Lists([], skill, tool)
  {}

  /** Without a registry the card lists exactly market data and execution, in that order. */
  lemma LegacyCard()
    ensures CardOf(SKILL_METAS, false, map[])
         == [CardSkill("svpchain-market-data", []), CardSkill("svpchain-execution", [])]
  {
    NoOthers(11);
    assert SKILL_METAS[..12] == SKILL_METAS;
    assert SKILL_METAS[..12][..11] == SKILL_METAS[..11];
  }

  lemma {:induction false} NoOthers(n: nat)
    requires 1 <= n <= 11
    ensures CardOf(SKILL_METAS[..n], false, map[]) == [CardSkill("svpchain-market-data", [])]
  {
    assert SKILL_METAS[..n][..n - 1] == SKILL_METAS[..n - 1];
    if n > 1 {
      NoOthers(n - 1);
      OtherSkill(n - 1);
    }
  }

  lemma OtherSkill(n: nat)
    requires 1 <= n < 11
    ensures SKILL_METAS[n] !in {"svpchain-market-data", "svpchain-execution"}
  {}

  /** The skills a card can describe. */
  lemma SkillsDescribed(skill: string)
    ensures skill in SKILL_METAS <==>
      skill in {"svpchain-market-data", "svpchain-account", "svpchain-trading", "svpchain-funds",
                "svpchain-broadcast", "svpchain-auth", "svpchain-faucet", "svpchain-evm", "svpchain-lendora",
                "svpchain-agent-registry", "svpchain-delegation", "svpchain-execution"}
  {}

  /** A full card keeps the order skills are described in, and shows each with all its tools. */
  lemma {:induction false} CardKeepsOrder(metas: seq<string>, groups: Grouping, i: nat, j: nat) returns (p: nat, q: nat)
    requires i < |CardOf(metas, true, groups)| && j < |CardOf(metas, true, groups)|
    ensures var card := CardOf(metas, true, groups);
            && p < |metas| && metas[p] == card[i].id && q < |metas| && metas[q] == card[j].id
            && (i < j ==> p < q) && (i == j ==> p == q)
            && card[i].id in groups && card[i].tools == groups[card[i].id] != []
  {
    var n := |metas| - 1;
    var init := CardOf(metas[..n], true, groups);
    if i < |init| && j < |init| {
      p, q := CardKeepsOrder(metas[..n], groups, i, j);
    } else {
      p, q := n, n;
      if i < |init| {
        p, q := CardKeepsOrder(metas[..n], groups, i, i);
        q := n;
      } else if j < |init| {
        q, p := CardKeepsOrder(metas[..n], groups, j, j);
        p := n;
      }
    }
  }

  /** However the maps are ranged over, the card built for the hash and the card served agree, and
      the card lists a tool under a skill exactly when a request naming both would be dispatched
      and the skill is one the card describes. */
  lemma CardIsDispatchTable(ops: Ops, a: Grouping, b: Grouping, skill: string, tool: string)
    requires IsGrouping(ops, a) && IsGrouping(ops, b)
    ensures CardOf(SKILL_METAS, true, a) == CardOf(SKILL_METAS, true, b)
    ensures Lists(CardOf(SKILL_METAS, true, a), skill, tool)
            <==> skill in SKILL_METAS && Dispatchable(ops, skill, tool)
  {
    GroupingUnique(ops, a, b);
    CardMembers(SKILL_METAS, ops, a, skill, tool);
  }
}
