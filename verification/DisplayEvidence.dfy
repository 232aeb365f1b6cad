// Which background facts a script shows: both sides of a comparison in turn, then team context.

module DisplayEvidence {
  import opened Wrappers
  import opened Selection

  datatype Role = Target | Comparison | TeamContext

  datatype Fact = Fact(text: string, sourceId: string, sourceUrl: string, competitionLevel: string, role: Role)

  function OfRole(facts: seq<Fact>, role: Role): seq<Fact> {
    if facts == [] then []
    else OfRole(facts[..|facts| - 1], role)
         + if facts[|facts| - 1].role == role then [facts[|facts| - 1]] else []
  }

  // One of each in turn, starting with a; what is left of the longer one follows.
  function Interleave(a: seq<Fact>, b: seq<Fact>): seq<Fact>
    decreases |a| + |b|
  {
    if a == [] then b else if b == [] then a else [a[0], b[0]] + Interleave(a[1..], b[1..])
  }

  // The first occurrence of every fact.
  function Distinct(s: seq<Fact>): seq<Fact> {
    if s == [] then []
    else
      var most := Distinct(s[..|s| - 1]);
      if s[|s| - 1] in most then most else most + [s[|s| - 1]]
  }

  // All facts in the order in which they are offered for display.
  function Offered(facts: seq<Fact>): seq<Fact> {
    Interleave(OfRole(facts, Target), OfRole(facts, Comparison)) + OfRole(facts, TeamContext)
  }

  predicate LimitOk(limit: int) {
    1 <= limit <= 4
  }

  // ---- The facts behind the two functions ----

  lemma {:induction false} DistinctSpec(s: seq<Fact>)
    ensures forall f :: f in Distinct(s) <==> f in s
    ensures forall i, j :: 0 <= i < j < |Distinct(s)| ==> Distinct(s)[i] != Distinct(s)[j]
  {
    if s != [] {
      DistinctSpec(s[..|s| - 1]);
      assert s == s[..|s| - 1] + [s[|s| - 1]];
    }
  }

  lemma {:induction false} DistinctPrefix(s: seq<Fact>, t: seq<Fact>)
    ensures Distinct(s) <= Distinct(s + t)
    decreases |t|
  {
    if t == [] {
      assert s + t == s;
    } else {
      DistinctPrefix(s, t[..|t| - 1]);
      assert (s + t)[..|s + t| - 1] == s + t[..|t| - 1];
    }
  }

  lemma {:induction false} OfRoleMembers(facts: seq<Fact>, role: Role)
    ensures forall f :: f in OfRole(facts, role) <==> f in facts && f.role == role
  {
    if facts != [] {
      OfRoleMembers(facts[..|facts| - 1], role);
      assert facts == facts[..|facts| - 1] + [facts[|facts| - 1]];
    }
  }

  lemma {:induction false} InterleaveMembers(a: seq<Fact>, b: seq<Fact>)
    ensures forall f :: f in Interleave(a, b) <==> f in a || f in b
    decreases |a| + |b|
  {
    if a != [] && b != [] {
      InterleaveMembers(a[1..], b[1..]);
      assert a == [a[0]] + a[1..] && b == [b[0]] + b[1..];
    }
  }

  // What round n of taking turns offers.
  function Round(a: seq<Fact>, b: seq<Fact>, n: nat): seq<Fact> {
    (if n < |a| then [a[n]] else []) + (if n < |b| then [b[n]] else [])
  }

  function InTurn(a: seq<Fact>, b: seq<Fact>, n: nat): seq<Fact> {
    Interleave(Take(a, n), Take(b, n))
  }

  lemma {:induction false} InTurnStep(a: seq<Fact>, b: seq<Fact>, n: nat)
    requires n < |a| || n < |b|
    ensures InTurn(a, b, n + 1) == InTurn(a, b, n) + Round(a, b, n)
    decreases n
  {
    if n == 0 {
      FirstRound(a, b);
    } else if a != [] && b != [] {
      InTurnStep(a[1..], b[1..], n - 1);
      InTurnTail(a, b, n);
      InTurnTail(a, b, n + 1);
      Regroup([a[0], b[0]], InTurn(a[1..], b[1..], n - 1), Round(a, b, n));
    } else {
      OneSide(a, b, n);
    }
  }

  lemma Regroup(x: seq<Fact>, y: seq<Fact>, z: seq<Fact>)
    ensures x + (y + z) == x + y + z
  {
  }

  lemma OneSide(a: seq<Fact>, b: seq<Fact>, n: nat)
    requires n > 0 && (n < |a| || n < |b|) && (a == [] || b == [])
    ensures InTurn(a, b, n + 1) == InTurn(a, b, n) + Round(a, b, n)
  {
    if a == [] {
      assert Take(b, n + 1) == Take(b, n) + [b[n]];
    } else {
      assert Take(a, n + 1) == Take(a, n) + [a[n]];
    }
  }

  lemma FirstRound(a: seq<Fact>, b: seq<Fact>)
    ensures InTurn(a, b, 0) == [] && InTurn(a, b, 1) == Round(a, b, 0)
  {
    assert Take(a, 0) == [] && Take(b, 0) == [];
    if a != [] { assert Take(a, 1) == [a[0]] && [a[0]][1..] == []; }
    if b != [] { assert Take(b, 1) == [b[0]] && [b[0]][1..] == []; }
    assert Interleave([], []) == [];
  }

  lemma InTurnTail(a: seq<Fact>, b: seq<Fact>, n: nat)
    requires n > 0 && a != [] && b != []
    ensures InTurn(a, b, n) == [a[0], b[0]] + InTurn(a[1..], b[1..], n - 1)
  {
    assert Take(a, n)[1..] == Take(a[1..], n - 1) && Take(b, n)[1..] == Take(b[1..], n - 1);
  }

  // ---- The selection ----

  // What the first offered facts leave selected.
  predicate SelectedSoFar(selected: seq<Fact>, offered: seq<Fact>, limit: int) {
    limit >= 1 && selected == Take(Distinct(offered), limit)
  }

  // add(): keeps a fact unless it is there already or the limit is reached.
  method Add(selected: seq<Fact>, fact: Fact, limit: int, ghost offered: seq<Fact>) returns (r: seq<Fact>)
    requires SelectedSoFar(selected, offered, limit)
    ensures SelectedSoFar(r, offered + [fact], limit)
  {
    assert (offered + [fact])[..|offered|] == offered;
    if fact !in selected && |selected| < limit {
      return selected + [fact];
    }
    return selected;
  }

  method AddAll(selected: seq<Fact>, facts: seq<Fact>, limit: int, ghost offered: seq<Fact>) returns (r: seq<Fact>)
    requires SelectedSoFar(selected, offered, limit)
    ensures SelectedSoFar(r, offered + facts, limit)
  {
    r := selected;
    assert offered + facts[..0] == offered;
    for i := 0 to |facts|
      invariant SelectedSoFar(r, offered + facts[..i], limit)
    {
      r := Add(r, facts[i], limit, offered + facts[..i]);
      assert offered + facts[..i] + [facts[i]] == offered + facts[..i + 1];
    }
    assert facts[..|facts|] == facts;
  }

  method Filter(facts: seq<Fact>, role: Role) returns (r: seq<Fact>)
    ensures r == OfRole(facts, role)
  {
    r := [];
    for i := 0 to |facts|
      invariant r == OfRole(facts[..i], role)
    {
      assert facts[..i + 1][..i] == facts[..i];
      if facts[i].role == role {
        r := r + [facts[i]];
      }
    }
    assert facts[..|facts|] == facts;
  }

  // One round: the next fact of either side, if there is one.
  method AddRound(selected: seq<Fact>, targets: seq<Fact>, comparisons: seq<Fact>, index: nat, limit: int,
                  ghost offered: seq<Fact>) returns (r: seq<Fact>)
    requires SelectedSoFar(selected, offered, limit)
    ensures SelectedSoFar(r, offered + Round(targets, comparisons, index), limit)
  {
    r := selected;
    ghost var now := offered;
    if index < |targets| {
      r := Add(r, targets[index], limit, now);
      now := now + [targets[index]];
    }
    if index < |comparisons| {
      r := Add(r, comparisons[index], limit, now);
      now := now + [comparisons[index]];
    }
    assert now == offered + Round(targets, comparisons, index);
  }

  // The turns of a comparison, both sides present.
  method AddInTurn(targets: seq<Fact>, comparisons: seq<Fact>, limit: int) returns (selected: seq<Fact>)
    requires targets != [] && comparisons != [] && limit >= 1
    ensures SelectedSoFar(selected, Interleave(targets, comparisons), limit)
  {
    selected := Add([], targets[0], limit, []);
    selected := Add(selected, comparisons[0], limit, [] + [targets[0]]);
    var most := if |targets| > |comparisons| then |targets| else |comparisons|;
    InTurnStep(targets, comparisons, 0);
    assert [] + [targets[0]] + [comparisons[0]] == InTurn(targets, comparisons, 1);
    for index := 1 to most
      invariant SelectedSoFar(selected, InTurn(targets, comparisons, index), limit)
    {
      InTurnStep(targets, comparisons, index);
      selected := AddRound(selected, targets, comparisons, index, limit, InTurn(targets, comparisons, index));
    }
    assert Take(targets, most) == targets && Take(comparisons, most) == comparisons;
  }

  // The first `limit` distinct facts in the order they are offered, on both branches of the source.
  method Select(facts: seq<Fact>, limit: int) returns (r: Result<seq<Fact>, DomainError>)
    ensures r == if LimitOk(limit) then Ok(Take(Distinct(Offered(facts)), limit)) else Err(InvalidData)
  {
    if !(1 <= limit <= 4) {
      return Err(InvalidData);
    }
    if facts == [] {
      return Ok([]);
    }
    var targets := Filter(facts, Target);
    var comparisons := Filter(facts, Comparison);
    var teamContext := Filter(facts, TeamContext);
    var selected;
    if targets != [] && comparisons != [] {
      selected := AddInTurn(targets, comparisons, limit);
    } else {
      selected := AddAll([], targets, limit, []);
      selected := AddAll(selected, comparisons, limit, [] + targets);
      assert [] + targets + comparisons == Interleave(targets, comparisons);
    }
    selected := AddAll(selected, teamContext, limit, Interleave(targets, comparisons));
    return Ok(selected);
  }

  // ---- What a reader of the evidence gets ----

  // Only given facts, none twice, as many as the limit and the number of different facts allow.
  lemma SelectionSize(facts: seq<Fact>, limit: int)
    requires LimitOk(limit)
    ensures var selected := Take(Distinct(Offered(facts)), limit);
      && (forall f :: f in selected ==> f in facts)
      && (forall i, j :: 0 <= i < j < |selected| ==> selected[i] != selected[j])
      && |selected| == if |set f | f in facts| < limit then |set f | f in facts| else limit
  {
    OfferedMembers(facts);
    DistinctSpec(Offered(facts));
    var distinct := Distinct(Offered(facts));
    DistinctLength(distinct);
    assert (set f | f in distinct) == (set f | f in facts);
  }

  lemma OfferedMembers(facts: seq<Fact>)
    ensures forall f :: f in Offered(facts) <==> f in facts
  {
    OfRoleMembers(facts, Target);
    OfRoleMembers(facts, Comparison);
    OfRoleMembers(facts, TeamContext);
    InterleaveMembers(OfRole(facts, Target), OfRole(facts, Comparison));
  }

  lemma {:induction false} DistinctLength(s: seq<Fact>)
    requires forall i, j :: 0 <= i < j < |s| ==> s[i] != s[j]
    ensures |set f | f in s| == |s|
  {
    if s != [] {
      var most := s[..|s| - 1];
      DistinctLength(most);
      assert s == most + [s[|s| - 1]];
      assert (set f | f in s) == (set f | f in most) + {s[|s| - 1]};
    }
  }

  lemma FirstTwoSides(facts: seq<Fact>, limit: int)
    requires LimitOk(limit) && limit >= 2
    requires (exists f :: f in facts && f.role == Target) && (exists f :: f in facts && f.role == Comparison)
    ensures var selected := Take(Distinct(Offered(facts)), limit);
      |selected| >= 2 && selected[0].role == Target && selected[1].role == Comparison
  {
    OfRoleMembers(facts, Target);
    OfRoleMembers(facts, Comparison);
    var a, b := OfRole(facts, Target), OfRole(facts, Comparison);
    var t :| t in facts && t.role == Target;
    var c :| c in facts && c.role == Comparison;
    assert t in a && c in b;
    var start, rest := [a[0], b[0]], Interleave(a[1..], b[1..]) + OfRole(facts, TeamContext);
    assert Offered(facts) == start + rest;
    assert a[0] in a && b[0] in b;
    assert start[..1] == [a[0]] && [a[0]][..0] == [] && Distinct([a[0]]) == [a[0]];
    assert Distinct(start) == [a[0], b[0]];
    DistinctPrefix(start, rest);
    assert Take(Distinct(Offered(facts)), limit)[0] == a[0] && Take(Distinct(Offered(facts)), limit)[1] == b[0];
  }

  // With a limit of one only the target side can appear.
  lemma OneSideAtLimitOne(facts: seq<Fact>)
    requires exists f :: f in facts && f.role == Target
    ensures var selected := Take(Distinct(Offered(facts)), 1); |selected| == 1 && selected[0].role == Target
  {
    OfRoleMembers(facts, Target);
    var a := OfRole(facts, Target);
    var t :| t in facts && t.role == Target;
    assert t in a && a[0] in a;
    var offered := Offered(facts);
    assert offered[0] == a[0];
    assert offered == [a[0]] + offered[1..];
    assert [a[0]][..0] == [] && Distinct([a[0]]) == [a[0]];
    DistinctPrefix([a[0]], offered[1..]);
  }

  // A comparison shows both sides exactly when the limit leaves room for two facts.
  lemma BothSidesShown(facts: seq<Fact>, limit: int)
    requires LimitOk(limit)
    requires (exists f :: f in facts && f.role == Target) && (exists f :: f in facts && f.role == Comparison)
    ensures var selected := Take(Distinct(Offered(facts)), limit);
      limit >= 2 <==>
        (exists f :: f in selected && f.role == Target) && (exists f :: f in selected && f.role == Comparison)
  {
    var selected := Take(Distinct(Offered(facts)), limit);
    if limit >= 2 {
      FirstTwoSides(facts, limit);
      assert selected[0] in selected && selected[1] in selected;
    } else {
      OneSideAtLimitOne(facts);
    }
  }

  // ---- In which order ----

  function FirstAt(s: seq<Fact>, f: Fact): (i: nat)
    requires f in s
    ensures i < |s| && s[i] == f && f !in s[..i]
  {
    if s[0] == f then 0 else 1 + FirstAt(s[1..], f)
  }

  // f is met before g.
  predicate Before(s: seq<Fact>, f: Fact, g: Fact) {
    f in s && g in s && FirstAt(s, f) < FirstAt(s, g)
  }

  lemma FirstAtIs(s: seq<Fact>, f: Fact, i: nat)
    requires i < |s| && s[i] == f && f !in s[..i]
    ensures f in s && FirstAt(s, f) == i
  {
  }

  lemma FirstAtSnoc(most: seq<Fact>, x: Fact, f: Fact)
    requires f in most + [x]
    ensures FirstAt(most + [x], f) == if f in most then FirstAt(most, f) else |most|
  {
    var s := most + [x];
    if f in most {
      var i := FirstAt(most, f);
      assert s[..i] == most[..i];
      FirstAtIs(s, f, i);
    } else {
      assert s[..|most|] == most;
      FirstAtIs(s, f, |most|);
    }
  }

  lemma BeforeSnoc(most: seq<Fact>, x: Fact, f: Fact, g: Fact)
    requires f != g
    ensures Before(most + [x], f, g) <==> Before(most, f, g) || (f in most && g !in most && g == x)
  {
    if f in most + [x] { FirstAtSnoc(most, x, f); }
    if g in most + [x] { FirstAtSnoc(most, x, g); }
  }

  lemma {:induction false} DistinctOrder(s: seq<Fact>, f: Fact, g: Fact)
    requires f != g
    ensures Before(Distinct(s), f, g) <==> Before(s, f, g)
  {
    if s != [] {
      var most, x := s[..|s| - 1], s[|s| - 1];
      assert s == most + [x];
      DistinctOrder(most, f, g);
      DistinctSpec(most);
      BeforeSnoc(most, x, f, g);
      BeforeSnoc(Distinct(most), x, f, g);
    }
  }

  lemma {:induction false} RoleOrder(s: seq<Fact>, role: Role, f: Fact, g: Fact)
    requires f != g && f.role == role && g.role == role
    ensures Before(OfRole(s, role), f, g) <==> Before(s, f, g)
  {
    if s != [] {
      var most, x := s[..|s| - 1], s[|s| - 1];
      assert s == most + [x];
      RoleOrder(most, role, f, g);
      BeforeSnoc(most, x, f, g);
      OfRoleMembers(most, role);
      if x.role == role {
        BeforeSnoc(OfRole(most, role), x, f, g);
      } else {
        assert OfRole(s, role) == OfRole(most, role);
      }
    }
  }

  lemma {:induction false} OfRoleConcat(a: seq<Fact>, b: seq<Fact>, role: Role)
    ensures OfRole(a + b, role) == OfRole(a, role) + OfRole(b, role)
  {
    if b == [] {
      assert a + b == a;
    } else {
      OfRoleConcat(a, b[..|b| - 1], role);
      assert (a + b)[..|a + b| - 1] == a + b[..|b| - 1];
    }
  }

  predicate AllOf(s: seq<Fact>, role: Role) {
    forall i :: 0 <= i < |s| ==> s[i].role == role
  }

  lemma OfRoleSnoc(most: seq<Fact>, x: Fact, role: Role)
    ensures OfRole(most + [x], role) == OfRole(most, role) + if x.role == role then [x] else []
  {
    assert (most + [x])[..|most|] == most;
  }

  lemma {:induction false} OfOneRole(s: seq<Fact>, has: Role, role: Role)
    requires AllOf(s, has)
    ensures OfRole(s, role) == if has == role then s else []
  {
    if s != [] {
      hide OfRole;
      var most, x := s[..|s| - 1], s[|s| - 1];
      assert s == most + [x] && x.role == has;
      OfOneRole(most, has, role);
      OfRoleSnoc(most, x, role);
    }
  }

  lemma OfPair(x: Fact, y: Fact, role: Role)
    requires x.role == Target && y.role == Comparison
    ensures OfRole([x, y], role) == match role case Target => [x] case Comparison => [y] case TeamContext => []
  {
    hide OfRole;
    OfRoleConcat([x], [y], role);
    OfOneRole([x], Target, role);
    OfOneRole([y], Comparison, role);
    assert [x] + [y] == [x, y];
  }

  lemma {:induction false} OfTurns(a: seq<Fact>, b: seq<Fact>, role: Role)
    requires AllOf(a, Target) && AllOf(b, Comparison)
    ensures OfRole(Interleave(a, b), role) == match role case Target => a case Comparison => b case TeamContext => []
    decreases |a| + |b|
  {
    hide OfRole;
    if a == [] {
      OfOneRole(b, Comparison, role);
    } else if b == [] {
      OfOneRole(a, Target, role);
    } else {
      OfTurns(a[1..], b[1..], role);
      OfRoleConcat([a[0], b[0]], Interleave(a[1..], b[1..]), role);
      OfPair(a[0], b[0], role);
      assert a == [a[0]] + a[1..] && b == [b[0]] + b[1..];
    }
  }

  lemma OnlyItsRole(facts: seq<Fact>, role: Role)
    ensures AllOf(OfRole(facts, role), role)
  {
    OfRoleMembers(facts, role);
    var s := OfRole(facts, role);
    forall i | 0 <= i < |s| ensures s[i].role == role { assert s[i] in s; }
  }

  lemma OfferedRoles(facts: seq<Fact>, role: Role)
    ensures OfRole(Offered(facts), role) == OfRole(facts, role)
  {
    var a, b, c := OfRole(facts, Target), OfRole(facts, Comparison), OfRole(facts, TeamContext);
    OnlyItsRole(facts, Target);
    OnlyItsRole(facts, Comparison);
    OnlyItsRole(facts, TeamContext);
    OfRoleConcat(Interleave(a, b), c, role);
    OfTurns(a, b, role);
    OfOneRole(c, TeamContext, role);
  }

  // Of two facts with one role the one given first is preferred: the other is shown only together with it and after it.
  lemma SameRoleInOrder(facts: seq<Fact>, limit: int, f: Fact, g: Fact)
    requires LimitOk(limit) && f.role == g.role && Before(facts, f, g)
    ensures var selected := Take(Distinct(Offered(facts)), limit); g in selected ==> Before(selected, f, g)
  {
    var all := Distinct(Offered(facts));
    var selected := Take(all, limit);
    RoleOrder(facts, f.role, f, g);
    OfferedRoles(facts, f.role);
    RoleOrder(Offered(facts), f.role, f, g);
    DistinctOrder(Offered(facts), f, g);
    if g in selected { BeforeInPrefix(all, selected, f, g); }
  }

  lemma BeforeInPrefix(s: seq<Fact>, t: seq<Fact>, f: Fact, g: Fact)
    requires t <= s && g in t && Before(s, f, g)
    ensures Before(t, f, g)
  {
    var j := FirstAt(t, g);
    assert s[..j] == t[..j];
    FirstAtIs(s, g, j);
    var i := FirstAt(s, f);
    assert t[..i] == s[..i];
    FirstAtIs(t, f, i);
  }
}
