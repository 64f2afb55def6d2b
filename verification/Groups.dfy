/** The group tree: nodes addressed by split group paths, per-check counters at the
    nodes, and the conversion to the summary's tree. */
module Groups {
  import opened Text
  import opened Aggregates

  // ----- Paths -----

  predicate SepAt(s: string, i: int) {
    0 <= i < |s| - 1 && s[i] == ':' && s[i + 1] == ':'
  }

  // Position of the leftmost "::", or `|s|`.
  function FirstSep(s: string): (r: nat)
    ensures r <= |s| && (r < |s| ==> SepAt(s, r)) && forall j :: 0 <= j < r ==> !SepAt(s, j)
  {
    if s == "" || SepAt(s, 0) then 0 else
      var r := FirstSep(s[1..]);
      assert forall j :: 1 <= j <= r ==> SepAt(s, j) == SepAt(s[1..], j - 1);
      1 + r
  }

  // Split at every "::" from the left, dropping empty pieces.
  function Segments(s: string): seq<string> {
    var i := FirstSep(s);
    if i == |s| then (if s == "" then [] else [s])
    else if i == 0 then Segments(s[2..])
    else [s[..i]] + Segments(s[i + 2..])
  }

  ghost predicate NoSep(s: string) {
    forall i :: !SepAt(s, i)
  }

  // The addresses splitting can produce: only the last piece may end in a colon.
  ghost predicate GoodAddress(a: seq<string>) {
    forall i :: 0 <= i < |a| ==> a[i] != "" && NoSep(a[i]) && (i < |a| - 1 ==> a[i][|a[i]| - 1] != ':')
  }

  function PathOf(a: seq<string>): string {
    if a == [] then "" else PathOf(a[..|a| - 1]) + "::" + a[|a| - 1]
  }

  lemma {:induction false} SegmentsAreGood(s: string)
    ensures GoodAddress(Segments(s))
    decreases |s|
  {
    var i := FirstSep(s);
    if i == |s| {
      assert forall j :: SepAt(s, j) ==> 0 <= j < i;
    } else if i == 0 {
      SegmentsAreGood(s[2..]);
    } else {
      SegmentsAreGood(s[i + 2..]);
      var head := s[..i];
      assert forall j :: SepAt(head, j) ==> SepAt(s, j);
      if head[i - 1] == ':' { assert SepAt(s, i - 1); }
    }
  }

  // The path without its leading separator.
  function Bare(a: seq<string>): string
    requires a != []
  {
    if |a| == 1 then a[0] else a[0] + "::" + Bare(a[1..])
  }

  lemma {:induction false} PathIsBare(a: seq<string>)
    requires a != []
    ensures PathOf(a) == "::" + Bare(a)
    decreases |a|
  {
    var n := |a| - 1;
    var front, last := a[..n], a[n];
    assert PathOf(a) == PathOf(front) + "::" + last;
    if n == 0 {
      assert front == [] && PathOf(front) == "";
    } else {
      PathIsBare(front);
      BareSnoc(front, last);
      assert a == front + [last];
      Associates3("::", Bare(front), "::" + last);
    }
  }

  lemma Associates3(x: string, y: string, z: string)
    ensures (x + y) + z == x + (y + z)
  {
  }

  lemma {:induction false} BareSnoc(a: seq<string>, x: string)
    requires a != []
    ensures Bare(a + [x]) == Bare(a) + "::" + x
  {
    if |a| == 1 {
      assert (a + [x])[1..] == [x];
    } else {
      assert (a + [x])[1..] == a[1..] + [x];
      BareSnoc(a[1..], x);
    }
  }

  lemma FirstSepAfter(x: string, rest: string)
    requires x != "" && NoSep(x) && x[|x| - 1] != ':'
    ensures FirstSep(x + "::" + rest) == |x|
  {
    var s := x + "::" + rest;
    assert SepAt(s, |x|);
    forall j | 0 <= j < |x| ensures !SepAt(s, j) {
      assert !SepAt(x, j);
    }
  }

  lemma NoSepMeansNone(x: string)
    requires NoSep(x)
    ensures FirstSep(x) == |x|
  {
    assert !SepAt(x, FirstSep(x));
  }

  lemma {:induction false} SegmentsOfBare(a: seq<string>)
    requires a != [] && GoodAddress(a)
    ensures Segments(Bare(a)) == a
    decreases |a|
  {
    if |a| == 1 {
      NoSepMeansNone(a[0]);
    } else {
      var x, rest := a[0], Bare(a[1..]);
      FirstSepAfter(x, rest);
      var s := x + "::" + rest;
      assert s[..|x|] == x && s[|x| + 2..] == rest;
      SegmentsOfBare(a[1..]);
      assert a == [x] + a[1..];
    }
  }

  // A path splits back to exactly the address it was built from.
  lemma PathSplitsBack(a: seq<string>)
    requires GoodAddress(a)
    ensures Segments(PathOf(a)) == a
  {
    if a != [] {
      PathIsBare(a);
      var s := "::" + Bare(a);
      assert SepAt(s, 0) && s[2..] == Bare(a);
      SegmentsOfBare(a);
    }
  }

  lemma DistinctPaths(a: seq<string>, b: seq<string>)
    requires GoodAddress(a) && GoodAddress(b) && PathOf(a) == PathOf(b)
    ensures a == b
  {
    PathSplitsBack(a);
    PathSplitsBack(b);
  }

  // ----- The tree -----

  datatype Check = Check(passes: nat, fails: nat)

  datatype Node = Node(name: string, path: string, children: map<string, Node>, checks: map<string, Check>)

  const ROOT := Node("", "", map[], map[])

  // What is done at the node a path leads to.
  datatype Visit = Register | CountCheck(check: string, passed: bool)

  function CheckAt(checks: map<string, Check>, name: string): Check {
    if name in checks then checks[name] else Check(0, 0)
  }

  function Count(c: Check, passed: bool): Check {
    if passed then Check(c.passes + 1, c.fails) else Check(c.passes, c.fails + 1)
  }

  function Act(n: Node, v: Visit): Node {
    match v
    case Register => n
    case CountCheck(check, passed) => n.(checks := n.checks[check := Count(CheckAt(n.checks, check), passed)])
  }

  // Walk down `segs`, creating missing nodes under the path accumulated so far.
  function Navigate(n: Node, acc: string, segs: seq<string>, v: Visit): Node
    decreases |segs|
  {
    if segs == [] then Act(n, v) else
      var here := acc + "::" + segs[0];
      var child := if segs[0] in n.children then n.children[segs[0]] else Node(segs[0], here, map[], map[]);
      n.(children := n.children[segs[0] := Navigate(child, here, segs[1..], v)])
  }

  function At(n: Node, addr: seq<string>): Option<Node> {
    if addr == [] then Some(n)
    else if addr[0] in n.children then At(n.children[addr[0]], addr[1..])
    else None
  }

  function Extend(acc: string, addr: seq<string>): string
    decreases |addr|
  {
    if addr == [] then acc else Extend(acc + "::" + addr[0], addr[1..])
  }

  // The node at an address after a visit: created on the way, acted on at the end,
  // untouched elsewhere.
  ghost predicate Visited(before: Option<Node>, after: Option<Node>, acc: string, segs: seq<string>, addr: seq<string>, v: Visit) {
    if addr <= segs then
      && after.Some?
      && (before.Some? ==> after.value.path == before.value.path)
      && (before.None? ==> after.value.path == Extend(acc, addr))
      && var prior := if before.Some? then before.value.checks else map[];
         after.value.checks == if addr == segs then Act(Node("", "", map[], prior), v).checks else prior
    else
      && (before.Some? <==> after.Some?)
      && (before.Some? ==> after.value.path == before.value.path && after.value.checks == before.value.checks)
  }

  lemma FreshIsEmpty(name: string, path: string, addr: seq<string>)
    requires addr != []
    ensures At(Node(name, path, map[], map[]), addr).None?
  {
  }

  lemma {:induction false} NavigateVisits(n: Node, acc: string, segs: seq<string>, v: Visit, addr: seq<string>)
    ensures Visited(At(n, addr), At(Navigate(n, acc, segs, v), addr), acc, segs, addr, v)
    decreases |segs|
  {
    if addr != [] && segs != [] && addr[0] == segs[0] {
      var here := acc + "::" + segs[0];
      var blank := Node(segs[0], here, map[], map[]);
      var child := if segs[0] in n.children then n.children[segs[0]] else blank;
      NavigateVisits(child, here, segs[1..], v, addr[1..]);
      assert addr <= segs <==> addr[1..] <= segs[1..];
      assert addr == segs <==> addr[1..] == segs[1..];
      if addr[1..] != [] { FreshIsEmpty(segs[0], here, addr[1..]); }
    }
  }

  lemma {:induction false} ExtendIsPath(a: seq<string>, b: seq<string>)
    ensures Extend(PathOf(a), b) == PathOf(a + b)
    decreases |b|
  {
    if b == [] {
      assert a + b == a;
    } else {
      assert (a + [b[0]])[..|a|] == a;
      ExtendIsPath(a + [b[0]], b[1..]);
      assert a + [b[0]] + b[1..] == a + b;
    }
  }

  // ----- Histories -----

  // One call that reaches the tree, with the group path it was given.
  datatype Call = Call(groupPath: string, visit: Visit)

  function TreeAfter(calls: seq<Call>): Node {
    if calls == [] then ROOT else
      var c := calls[|calls| - 1];
      var before := TreeAfter(calls[..|calls| - 1]);
      Navigate(before, before.path, Segments(c.groupPath), c.visit)
  }

  lemma RootPath(calls: seq<Call>)
    ensures TreeAfter(calls).path == ""
  {
  }

  // Every node of a reachable tree stores the path of its address.
  lemma {:induction false} NodesStoreTheirPath(calls: seq<Call>, addr: seq<string>)
    requires At(TreeAfter(calls), addr).Some?
    ensures GoodAddress(addr) && At(TreeAfter(calls), addr).value.path == PathOf(addr)
  {
    if calls != [] {
      var c, rest := calls[|calls| - 1], calls[..|calls| - 1];
      var before, segs := TreeAfter(rest), Segments(c.groupPath);
      RootPath(rest);
      NavigateVisits(before, before.path, segs, c.visit, addr);
      SegmentsAreGood(c.groupPath);
      ExtendIsPath([], addr);
      assert [] + addr == addr && PathOf([]) == "";
      if At(before, addr).Some? {
        NodesStoreTheirPath(rest, addr);
      } else {
        assert addr <= segs;
      }
    }
  }

  // So the stored path splits back to the address, and no two nodes share one.
  lemma NodePathsAreAddresses(calls: seq<Call>, a: seq<string>, b: seq<string>)
    requires At(TreeAfter(calls), a).Some? && At(TreeAfter(calls), b).Some?
    ensures Segments(At(TreeAfter(calls), a).value.path) == a
    ensures At(TreeAfter(calls), a).value.path == At(TreeAfter(calls), b).value.path ==> a == b
  {
    NodesStoreTheirPath(calls, a);
    NodesStoreTheirPath(calls, b);
    PathSplitsBack(a);
    PathSplitsBack(b);
  }

  function CheckGetSpec(root: Node, segs: seq<string>, name: string): Check {
    var n := At(root, segs);
    if n.None? then Check(0, 0) else CheckAt(n.value.checks, name)
  }

  // How often a check was counted at an address.
  function Tally(calls: seq<Call>, segs: seq<string>, name: string): Check {
    if calls == [] then Check(0, 0) else
      var c := calls[|calls| - 1];
      var before := Tally(calls[..|calls| - 1], segs, name);
      if c.visit.CountCheck? && c.visit.check == name && Segments(c.groupPath) == segs
        then Count(before, c.visit.passed) else before
  }

  // Reading a check returns exactly the counts recorded under the same split path.
  lemma {:induction false} ChecksAreTallied(calls: seq<Call>, segs: seq<string>, name: string)
    ensures CheckGetSpec(TreeAfter(calls), segs, name) == Tally(calls, segs, name)
  {
    if calls == [] {
      if segs != [] { FreshIsEmpty("", "", segs); }
    } else {
      var c, rest := calls[|calls| - 1], calls[..|calls| - 1];
      ChecksAreTallied(rest, segs, name);
      var before := TreeAfter(rest);
      NavigateVisits(before, before.path, Segments(c.groupPath), c.visit, segs);
    }
  }

  // ----- Totals -----

  // An additive measure of check counters.
  datatype Meter<!A> = Meter(kind: Kind<bool, A>, weigh: Check -> A)

  ghost predicate WeighsCount<A>(m: Meter<A>, c: Check, passed: bool) {
    m.weigh(Count(c, passed)) == m.kind.merge(m.weigh(c), m.kind.lift(passed))
  }

  ghost predicate Additive<A(!new)>(m: Meter<A>) {
    && Lawful(m.kind) && m.weigh(Check(0, 0)) == m.kind.unit
    && forall c, passed :: WeighsCount(m, c, passed)
  }

  function RateOf(c: Check): Rate {
    Rate(c.passes, c.passes + c.fails)
  }

  // Passes and evaluations.
  const PASSES: Meter<Rate> := Meter(RATE, RateOf)

  lemma PassesAdditive()
    ensures Additive(PASSES)
  {
    KindsLawful();
    forall c, passed ensures WeighsCount(PASSES, c, passed) {}
  }

  function Weights<A>(m: Meter<A>, checks: map<string, Check>): map<string, A> {
    map k | k in checks :: m.weigh(checks[k])
  }

  // The measure over a whole subtree.
  ghost function TreeTotal<A(!new)>(m: Meter<A>, n: Node): A
    decreases n
  {
    m.kind.merge(Total(m.kind, Weights(m, n.checks)), Total(m.kind, map k | k in n.children :: TreeTotal(m, n.children[k])))
  }

  ghost function ChildTotals<A(!new)>(m: Meter<A>, children: map<string, Node>): map<string, A> {
    map k | k in children :: TreeTotal(m, children[k])
  }

  lemma TreeTotalIs<A(!new)>(m: Meter<A>, n: Node)
    ensures TreeTotal(m, n) == m.kind.merge(Total(m.kind, Weights(m, n.checks)), Total(m.kind, ChildTotals(m, n.children)))
  {
    assert (map k | k in n.children :: TreeTotal(m, n.children[k])) == ChildTotals(m, n.children);
  }

  // The measure grown by what one visit counts.
  function Gain<A>(m: Meter<A>, total: A, v: Visit): A {
    match v
    case Register => total
    case CountCheck(_, passed) => m.kind.merge(total, m.kind.lift(passed))
  }

  lemma ActGains<A(!new)>(m: Meter<A>, n: Node, v: Visit)
    requires Additive(m)
    ensures TreeTotal(m, Act(n, v)) == Gain(m, TreeTotal(m, n), v)
  {
    if v.CountCheck? {
      var d, w := m.kind.lift(v.passed), Weights(m, n.checks);
      var c := CheckAt(n.checks, v.check);
      assert WeighsCount(m, c, v.passed) && UnitIsNeutral(m.kind, d);
      assert Weights(m, Act(n, v).checks) == Put(m.kind, w, v.check, d);
      TotalPut(m.kind, w, v.check, d);
      TreeTotalIs(m, n);
      TreeTotalIs(m, Act(n, v));
      Regroup(m.kind, Total(m.kind, w), Total(m.kind, ChildTotals(m, n.children)), d);
    }
  }

  lemma BlankTotal<A(!new)>(m: Meter<A>, name: string, path: string)
    requires Additive(m)
    ensures TreeTotal(m, Node(name, path, map[], map[])) == m.kind.unit
  {
    var n := Node(name, path, map[], map[]);
    TreeTotalIs(m, n);
    assert Weights(m, n.checks) == map[] && ChildTotals(m, n.children) == map[];
    assert UnitIsNeutral(m.kind, m.kind.unit);
  }

  // Replacing one child changes the total by what the child gained.
  lemma ChildGains<A(!new)>(m: Meter<A>, n: Node, k: string, child: Node, grown: Node, d: A)
    requires Additive(m) && TreeTotal(m, grown) == m.kind.merge(TreeTotal(m, child), d)
    requires if k in n.children then child == n.children[k] else TreeTotal(m, child) == m.kind.unit
    ensures TreeTotal(m, n.(children := n.children[k := grown])) == m.kind.merge(TreeTotal(m, n), d)
  {
    var after, totals := n.(children := n.children[k := grown]), ChildTotals(m, n.children);
    assert UnitIsNeutral(m.kind, d);
    PutByPoints(m.kind, totals, ChildTotals(m, after.children), k, d);
    TotalPut(m.kind, totals, k, d);
    TreeTotalIs(m, n);
    TreeTotalIs(m, after);
    Regroup(m.kind, Total(m.kind, Weights(m, n.checks)), Total(m.kind, totals), d);
  }

  lemma PutByPoints<A>(kind: Kind<bool, A>, before: map<string, A>, after: map<string, A>, k: string, d: A)
    requires after.Keys == before.Keys + {k} && after[k] == if k in before then kind.merge(before[k], d) else d
    requires forall j :: j in before && j != k ==> after[j] == before[j]
    ensures after == Put(kind, before, k, d)
  {
  }

  // The gain of a visit, as something merged in.
  function Counted<A>(m: Meter<A>, v: Visit): A {
    match v
    case Register => m.kind.unit
    case CountCheck(_, passed) => m.kind.lift(passed)
  }

  lemma GainIsCounted<A(!new)>(m: Meter<A>, total: A, v: Visit)
    requires Additive(m)
    ensures Gain(m, total, v) == m.kind.merge(total, Counted(m, v))
  {
    assert UnitIsNeutral(m.kind, total);
  }

  lemma {:induction false} NavigateGains<A(!new)>(m: Meter<A>, n: Node, acc: string, segs: seq<string>, v: Visit)
    requires Additive(m)
    ensures TreeTotal(m, Navigate(n, acc, segs, v)) == Gain(m, TreeTotal(m, n), v)
    decreases |segs|
  {
    if segs == [] {
      ActGains(m, n, v);
    } else {
      var here := acc + "::" + segs[0];
      var child := if segs[0] in n.children then n.children[segs[0]] else Node(segs[0], here, map[], map[]);
      NavigateGains(m, child, here, segs[1..], v);
      BlankTotal(m, segs[0], here);
      GainIsCounted(m, TreeTotal(m, child), v);
      GainIsCounted(m, TreeTotal(m, n), v);
      ChildGains(m, n, segs[0], child, Navigate(child, here, segs[1..], v), Counted(m, v));
    }
  }

  // The outcomes of every counted check, in order.
  function Outcomes(calls: seq<Call>): seq<bool> {
    if calls == [] then [] else
      var c, rest := calls[|calls| - 1], Outcomes(calls[..|calls| - 1]);
      if c.visit.CountCheck? then rest + [c.visit.passed] else rest
  }

  // The tree as a whole holds exactly the recorded outcomes.
  lemma {:induction false} TreeTotalIsOutcomes<A(!new)>(m: Meter<A>, calls: seq<Call>)
    requires Additive(m)
    ensures TreeTotal(m, TreeAfter(calls)) == Fold(m.kind, Outcomes(calls))
  {
    if calls == [] {
      BlankTotal(m, "", "");
    } else {
      var c, rest := calls[|calls| - 1], calls[..|calls| - 1];
      TreeTotalIsOutcomes(m, rest);
      var before := TreeAfter(rest);
      NavigateGains(m, before, before.path, Segments(c.groupPath), c.visit);
      if c.visit.CountCheck? {
        FoldSnoc(m.kind, Outcomes(rest), c.visit.passed);
      }
    }
  }

  // ----- The recorder -----

  // A tree and an aggregate rate that both reflect the same calls.
  ghost predicate Consistent(tree: Node, rate: Rate, calls: seq<Call>) {
    tree == TreeAfter(calls) && rate == Fold(RATE, Outcomes(calls))
  }

  lemma CountKeepsConsistent(tree: Node, rate: Rate, calls: seq<Call>, c: Call)
    requires Consistent(tree, rate, calls)
    ensures Consistent(Navigate(tree, tree.path, Segments(c.groupPath), c.visit),
                       RateAfter(rate, c), calls + [c])
  {
    HistoryGrows(calls, c);
    if c.visit.CountCheck? { CountedRate(Outcomes(calls), c.visit.passed); }
  }

  // The aggregate rate after a call.
  function RateAfter(rate: Rate, c: Call): Rate {
    if c.visit.CountCheck? then CountOutcome(rate, c.visit.passed) else rate
  }

  method AddOutcome(before: Rate, passed: bool) returns (rate: Rate)
    ensures rate == CountOutcome(before, passed)
  {
    rate := before.(total := before.total + 1);
    if passed {
      rate := rate.(passes := rate.passes + 1);
    }
  }

  class CheckRecorder {
    var tree: Node
    var checksRate: Rate        // the aggregate `checks` rate metric
    ghost var calls: seq<Call>  // what was recorded so far

    // Tree and rate are two views of the recorded calls.
    ghost predicate Valid()
      reads this
    {
      Consistent(tree, checksRate, calls)
    }

    constructor ()
      ensures Valid() && calls == []
    {
      tree, checksRate, calls := ROOT, Rate(0, 0), [];
    }

    // Count the check at its group's node and in the aggregate rate.
    method RecordCheck(name: string, groupPath: string, passed: bool)
      requires Valid()
      modifies this
      ensures Valid() && calls == old(calls) + [Call(groupPath, CountCheck(name, passed))]
    {
      var rate := AddOutcome(checksRate, passed);
      VisitGroup(Call(groupPath, CountCheck(name, passed)), rate);
    }

    // Walk to the node of a call and act on it, with the rate the call leaves behind.
    method VisitGroup(call: Call, rate: Rate)
      requires Valid() && rate == RateAfter(checksRate, call)
      modifies this
      ensures Valid() && calls == old(calls) + [call]
    {
      CountKeepsConsistent(tree, checksRate, calls, call);
      tree, checksRate := Navigate(tree, tree.path, Segments(call.groupPath), call.visit), rate;
      calls := calls + [call];
    }

    // Materialise a group's node and its ancestors; the root needs nothing.
    method RegisterGroup(groupPath: string)
      requires Valid()
      modifies this`tree, this`calls
      ensures Valid() && calls == old(calls) + [Call(groupPath, Register)]
    {
      CountKeepsConsistent(tree, checksRate, calls, Call(groupPath, Register));
      calls := calls + [Call(groupPath, Register)];
      if groupPath == "" { return; }
      tree := Navigate(tree, tree.path, Segments(groupPath), Register);
    }

    // Follow the split path from the root: the counts recorded under the same split
    // path, none if a node is missing.
    method CheckGet(groupPath: string, name: string) returns (c: Check)
      requires Valid()
      ensures c == Tally(calls, Segments(groupPath), name)
    {
      var segs, cursor := Segments(groupPath), tree;
      ChecksAreTallied(calls, segs, name);
      for i := 0 to |segs|
        invariant At(tree, segs) == At(cursor, segs[i..])
      {
        assert segs[i..][1..] == segs[i + 1..];
        if segs[i] !in cursor.children { return Check(0, 0); }
        cursor := cursor.children[segs[i]];
      }
      c := CheckAt(cursor.checks, name);
    }

    // The converted tree, whose sums are the aggregate rate.
    method SummaryTree() returns (g: SummaryGroup)
      requires Valid()
      ensures g == ConvertGroup(TreeAfter(calls))
      ensures TreeTotal(PASSES, tree) == checksRate && SummaryTotal(PASSES, g) == checksRate
    {
      TreeMatchesAggregate(tree, checksRate, calls);
      g := ConvertGroup(tree);
    }
  }

  lemma HistoryGrows(calls: seq<Call>, c: Call)
    ensures TreeAfter(calls + [c]) == Navigate(TreeAfter(calls), TreeAfter(calls).path, Segments(c.groupPath), c.visit)
    ensures Outcomes(calls + [c]) == if c.visit.CountCheck? then Outcomes(calls) + [c.visit.passed] else Outcomes(calls)
  {
    assert (calls + [c])[..|calls|] == calls;
  }

  lemma CountedRate(xs: seq<bool>, passed: bool)
    ensures Fold(RATE, xs + [passed]) == CountOutcome(Fold(RATE, xs), passed)
  {
    FoldSnoc(RATE, xs, passed);
    CountOutcomeMerges(Fold(RATE, xs), passed);
  }

  // With the recorder as sole writer, passes and evaluations over the tree are the
  // aggregate rate, before and after conversion to the summary's tree.
  lemma TreeMatchesAggregate(tree: Node, rate: Rate, calls: seq<Call>)
    requires Consistent(tree, rate, calls)
    ensures TreeTotal(PASSES, tree) == rate && SummaryTotal(PASSES, ConvertGroup(tree)) == rate
  {
    PassesAdditive();
    TreeTotalIsOutcomes(PASSES, calls);
    ConversionKeepsTotals(PASSES, tree);
  }

  // ----- Conversion to the summary -----

  datatype SummaryCheck = SummaryCheck(name: string, path: string, passes: nat, fails: nat)
  datatype SummaryGroup = SummaryGroup(name: string, path: string, groups: map<string, SummaryGroup>, checks: map<string, SummaryCheck>)

  function ConvertChecks(path: string, checks: map<string, Check>): map<string, SummaryCheck> {
    map k | k in checks :: SummaryCheck(k, Joint(path, k), checks[k].passes, checks[k].fails)
  }

  function ConvertGroup(n: Node): SummaryGroup {
    SummaryGroup(n.name, n.path, map k | k in n.children :: ConvertGroup(n.children[k]), ConvertChecks(n.path, n.checks))
  }

  function GroupAt(g: SummaryGroup, addr: seq<string>): Option<SummaryGroup> {
    if addr == [] then Some(g)
    else if addr[0] in g.groups then GroupAt(g.groups[addr[0]], addr[1..])
    else None
  }

  // Conversion commutes with looking up an address: same shape, same nodes.
  lemma {:induction false} ConversionKeepsAddresses(n: Node, addr: seq<string>)
    ensures GroupAt(ConvertGroup(n), addr) ==
      if At(n, addr).Some? then Some(ConvertGroup(At(n, addr).value)) else None
    decreases |addr|
  {
    if addr != [] && addr[0] in n.children {
      ConversionKeepsAddresses(n.children[addr[0]], addr[1..]);
    }
  }

  function SummaryWeights<A>(m: Meter<A>, checks: map<string, SummaryCheck>): map<string, A> {
    map k | k in checks :: m.weigh(Check(checks[k].passes, checks[k].fails))
  }

  ghost function SummaryTotal<A(!new)>(m: Meter<A>, g: SummaryGroup): A
    decreases g
  {
    m.kind.merge(Total(m.kind, SummaryWeights(m, g.checks)), Total(m.kind, map k | k in g.groups :: SummaryTotal(m, g.groups[k])))
  }

  // Conversion keeps every count, hence every total.
  lemma {:induction false} ConversionKeepsTotals<A(!new)>(m: Meter<A>, n: Node)
    ensures SameTotal(m, n)
    decreases n
  {
    forall k | k in n.children ensures SameTotal(m, n.children[k]) {
      ConversionKeepsTotals(m, n.children[k]);
    }
    SameTotalsLift(m, n);
  }

  ghost predicate SameTotal<A(!new)>(m: Meter<A>, n: Node) {
    SummaryTotal(m, ConvertGroup(n)) == TreeTotal(m, n)
  }

  lemma SameTotalsLift<A(!new)>(m: Meter<A>, n: Node)
    requires forall k :: k in n.children ==> SameTotal(m, n.children[k])
    ensures SameTotal(m, n)
  {
    var groups, checks := ConvertGroup(n).groups, ConvertGroup(n).checks;
    assert GroupTotals(m, groups) == ChildTotals(m, n.children) by {
      forall k | k in n.children ensures GroupTotals(m, groups)[k] == ChildTotals(m, n.children)[k] {
        assert SameTotal(m, n.children[k]);
      }
    }
    assert SummaryWeights(m, checks) == Weights(m, n.checks);
    SummaryTotalIs(m, ConvertGroup(n));
    TreeTotalIs(m, n);
  }

  ghost function GroupTotals<A(!new)>(m: Meter<A>, groups: map<string, SummaryGroup>): map<string, A> {
    map k | k in groups :: SummaryTotal(m, groups[k])
  }

  lemma SummaryTotalIs<A(!new)>(m: Meter<A>, g: SummaryGroup)
    ensures SummaryTotal(m, g) == m.kind.merge(Total(m.kind, SummaryWeights(m, g.checks)), Total(m.kind, GroupTotals(m, g.groups)))
  {
    assert (map k | k in g.groups :: SummaryTotal(m, g.groups[k])) == GroupTotals(m, g.groups);
  }

  // Every node of a reachable tree is named by the last piece of its address.
  lemma {:induction false} NodesAreNamed(calls: seq<Call>, addr: seq<string>)
    requires At(TreeAfter(calls), addr).Some?
    ensures At(TreeAfter(calls), addr).value.name == if addr == [] then "" else addr[|addr| - 1]
  {
    if calls != [] {
      var c, rest := calls[|calls| - 1], calls[..|calls| - 1];
      var before, segs := TreeAfter(rest), Segments(c.groupPath);
      NavigateNames(before, before.path, segs, c.visit, addr);
      if At(before, addr).Some? { NodesAreNamed(rest, addr); }
    }
  }

  // A visit keeps the names of the nodes there were, and names new ones by their piece.
  lemma {:induction false} NavigateNames(n: Node, acc: string, segs: seq<string>, v: Visit, addr: seq<string>)
    requires At(Navigate(n, acc, segs, v), addr).Some?
    ensures var name := At(Navigate(n, acc, segs, v), addr).value.name;
      if At(n, addr).Some? then name == At(n, addr).value.name else addr != [] && name == addr[|addr| - 1]
    decreases |segs|
  {
    if addr != [] && segs != [] && addr[0] == segs[0] {
      var here := acc + "::" + segs[0];
      var child := if segs[0] in n.children then n.children[segs[0]] else Node(segs[0], here, map[], map[]);
      NavigateNames(child, here, segs[1..], v, addr[1..]);
      if addr[1..] != [] { FreshIsEmpty(segs[0], here, addr[1..]); }
    }
  }

  // The converted tree: each group under its address with its name and path, each check
  // with its name, its path and the counts recorded for it.
  lemma ConvertedTree(calls: seq<Call>, addr: seq<string>)
    requires At(TreeAfter(calls), addr).Some?
    ensures var g := GroupAt(ConvertGroup(TreeAfter(calls)), addr);
      && g.Some? && g.value.path == PathOf(addr) && g.value.name == (if addr == [] then "" else addr[|addr| - 1])
      && g.value.groups.Keys == At(TreeAfter(calls), addr).value.children.Keys
      && g.value.checks.Keys == At(TreeAfter(calls), addr).value.checks.Keys
      && forall k :: k in g.value.checks ==>
           var tally := Tally(calls, addr, k);
           g.value.checks[k] == SummaryCheck(k, PathOf(addr) + "::" + k, tally.passes, tally.fails)
  {
    var n := At(TreeAfter(calls), addr).value;
    ConversionKeepsAddresses(TreeAfter(calls), addr);
    NodesStoreTheirPath(calls, addr);
    NodesAreNamed(calls, addr);
    forall k | k in n.checks ensures n.checks[k] == Tally(calls, addr, k) {
      ChecksAreTallied(calls, addr, k);
    }
  }

  // ----- Check paths -----

  // The path of a check at an address, as the conversion writes it.
  function CheckPath(a: seq<string>, name: string): string {
    Joint(PathOf(a), name)
  }

  lemma ConvertedCheckPath(calls: seq<Call>, addr: seq<string>, name: string)
    requires At(TreeAfter(calls), addr).Some? && name in At(TreeAfter(calls), addr).value.checks
    ensures var g := GroupAt(ConvertGroup(TreeAfter(calls)), addr);
      g.Some? && name in g.value.checks && g.value.checks[name].path == CheckPath(addr, name)
  {
    ConversionKeepsAddresses(TreeAfter(calls), addr);
    NodesStoreTheirPath(calls, addr);
  }

  // Exactly when two checks share a path (shorter group path first).
  lemma SharedCheckPath(a: seq<string>, name: string, b: seq<string>, other: string)
    requires GoodAddress(a) && GoodAddress(b) && |PathOf(a)| <= |PathOf(b)|
    ensures var m, n := PathOf(a), PathOf(b);
      CheckPath(a, name) == CheckPath(b, other) <==>
      || (a == b && name == other)
      || (n == m + ":" && name == ":" + other)
      || (|n| >= |m| + 2 && n[..|m|] == m && n[|m|] == n[|m| + 1] == ':' && name == Joint(n[|m| + 2..], other))
  {
    SharedJoint(PathOf(a), name, PathOf(b), other);
    if PathOf(a) == PathOf(b) { DistinctPaths(a, b); }
  }

  // A name that no group path can be mistaken into.
  ghost predicate PlainName(name: string) {
    NoSep(name) && (name == "" || name[0] != ':')
  }

  // Checks with plain names have distinct paths, whatever their groups are called.
  lemma PlainNamesKeepApart(a: seq<string>, name: string, b: seq<string>, other: string)
    requires GoodAddress(a) && GoodAddress(b) && PlainName(name) && PlainName(other)
    requires CheckPath(a, name) == CheckPath(b, other)
    ensures a == b && name == other
  {
    if |PathOf(a)| <= |PathOf(b)| {
      NoSepIsNoJoint(name, PathOf(b), |PathOf(a)| + 2, other);
      SharedCheckPath(a, name, b, other);
    } else {
      NoSepIsNoJoint(other, PathOf(a), |PathOf(b)| + 2, name);
      SharedCheckPath(b, other, a, name);
    }
  }

  lemma NoSepIsNoJoint(name: string, path: string, from: nat, other: string)
    requires NoSep(name)
    ensures from <= |path| ==> name != Joint(path[from..], other)
  {
    if from <= |path| {
      var r := path[from..];
      assert SepAt(Joint(r, other), |r|);
    }
  }

  ghost predicate Collides(name: string, a: seq<string>, b: seq<string>, other: string) {
    && GoodAddress(a) && GoodAddress(b) && |PathOf(a)| <= |PathOf(b)| && (a != b || name != other)
    && CheckPath(a, name) == CheckPath(b, other)
  }

  // A name can be taken for a check of another group exactly if it is not plain.
  lemma CollidesIffNotPlain(name: string)
    ensures (exists a, b, other :: Collides(name, a, b, other)) <==> !PlainName(name)
  {
    if PlainName(name) {
      forall a, b, other ensures !Collides(name, a, b, other) {
        if Collides(name, a, b, other) {
          NoSepIsNoJoint(name, PathOf(b), |PathOf(a)| + 2, other);
          SharedCheckPath(a, name, b, other);
        }
      }
    } else {
      NotPlainCollides(name);
    }
  }

  lemma NotPlainCollides(name: string)
    requires !PlainName(name)
    ensures exists a, b, other :: Collides(name, a, b, other)
  {
    if name != "" && name[0] == ':' {
      LeadingColonCollides(name[1..]);
      assert name == ":" + name[1..];
    } else {
      var r, other := FirstPiece(name);
      SeparatorInNameCollides([], r, other);
      assert [] + [r] == [r];
      assert Collides(name, [], [r], other);
    }
  }

  lemma FirstPiece(name: string) returns (r: string, other: string)
    requires !NoSep(name) && name[0] != ':'
    ensures name == Joint(r, other) && GoodAddress([r])
  {
    var i := FirstSep(name);
    SepIsFound(name);
    r, other := name[..i], name[i + 2..];
    assert forall j :: SepAt(r, j) ==> SepAt(name, j);
  }

  lemma LeadingColonCollides(other: string)
    ensures Collides(":" + other, ["x"], ["x:"], other)
  {
    ColonInNameCollides([], "x", other);
    assert [] + ["x"] == ["x"] && "x" + ":" == "x:" && [] + ["x:"] == ["x:"];
    assert ["x"][..0] == [] && ["x:"][..0] == [];
    assert |PathOf(["x"])| == 3 && |PathOf(["x:"])| == 4;
  }

  lemma SepIsFound(s: string)
    requires !NoSep(s)
    ensures FirstSep(s) < |s|
  {
    var i :| SepAt(s, i);
  }

  // A name that holds the separator shares its path with a check one group deeper.
  lemma SeparatorInNameCollides(a: seq<string>, group: string, name: string)
    ensures CheckPath(a, Joint(group, name)) == CheckPath(a + [group], name)
  {
    assert (a + [group])[..|a|] == a;
  }

  // A name with a leading colon shares its path with a check of the sibling group
  // whose name ends in a colon.
  lemma ColonInNameCollides(a: seq<string>, group: string, name: string)
    ensures CheckPath(a + [group], ":" + name) == CheckPath(a + [group + ":"], name)
  {
    assert (a + [group])[..|a|] == a && (a + [group + ":"])[..|a|] == a;
  }

  // Both at once: a group that ends in a colon against a group that starts with one.
  lemma ColonInGroupCollides(a: seq<string>, group: string, inner: string, name: string)
    ensures CheckPath(a + [group + ":"], Joint(inner, name)) == CheckPath(a + [group, ":" + inner], name)
  {
    var b := a + [group, ":" + inner];
    assert (a + [group + ":"])[..|a|] == a;
    assert b[..|b| - 1] == a + [group] && (a + [group])[..|a|] == a;
    var p := PathOf(a) + "::" + group;
    ColonMoves(p, inner + "::" + name);
    assert CheckPath(a + [group + ":"], Joint(inner, name)) == p + ":" + "::" + (inner + "::" + name);
    assert PathOf(a + [group]) == p && b[|b| - 1] == ":" + inner;
    assert PathOf(b) == p + "::" + (":" + inner);
    assert CheckPath(b, name) == p + "::" + ":" + (inner + "::" + name);
  }

  lemma ColonMoves(p: string, rest: string)
    ensures p + ":" + "::" + rest == p + "::" + ":" + rest
  {
  }
}
