/**
 * The code-review assistant's deterministic core: the issue record, the
 * quality score, the report counts, the tree metrics (cyclomatic complexity
 * and nesting depth), the three rule-based analyses and the final ordering.
 *
 * The parser, the regular-expression engine and the learned model are not
 * part of the model: a parse is a `Result` over an abstract syntax tree, a
 * pattern search is a `matches(pattern, line)` parameter, and the model's
 * issues are passed in.
 */
module CodeReview {
  import opened Wrappers
  import opened Text
  import Sorting

  // ---------------------------------------------------------------------
  // Issues

  datatype Severity = Low | Medium | High | Critical

  datatype Category = Security | Performance | Style | Bug

  /** The severity as the source spells it: the key it sorts by. */
  function SeverityName(s: Severity): string
  {
    match s
    case Low => "low"
    case Medium => "medium"
    case High => "high"
    case Critical => "critical"
  }

  datatype CodeIssue = CodeIssue(
    severity: Severity, category: Category, line: int,
    description: string, suggestion: string, confidence: real)

  // ---------------------------------------------------------------------
  // Score

  /** `severity_weights`. */
  function Weight(s: Severity): nat
  {
    match s
    case Low => 1
    case Medium => 3
    case High => 7
    case Critical => 15
  }

  /** `total_penalty`: the weights of all issues added up. */
  function Penalty(issues: seq<CodeIssue>): nat
  {
    if |issues| == 0 then 0 else Penalty(issues[..|issues| - 1]) + Weight(issues[|issues| - 1].severity)
  }

  lemma {:induction false} PenaltyAtLeastCount(issues: seq<CodeIssue>)
    ensures Penalty(issues) >= |issues|
  {
    if |issues| > 0 {
      PenaltyAtLeastCount(issues[..|issues| - 1]);
    }
  }

  /**
   * `_calculate_score`: 100 for no issues, otherwise 100 minus twice the
   * penalty, floored at 0 (`round(score, 2)` leaves the integer unchanged).
   */
  function Score(issues: seq<CodeIssue>): (score: int)
    ensures 0 <= score <= 100
    ensures |issues| == 0 <==> score == 100
    ensures |issues| > 0 ==> score <= 98
    ensures score > 0 ==> score == 100 - 2 * Penalty(issues)
    ensures |issues| > 0 && score == 0 ==> 2 * Penalty(issues) >= 100
  {
    PenaltyAtLeastCount(issues);
    if |issues| == 0 then 100
    else if 100 - 2 * Penalty(issues) > 0 then 100 - 2 * Penalty(issues) else 0
  }

  /** One more issue costs twice its weight, down to the floor of 0. */
  lemma ScoreAfterAdding(issues: seq<CodeIssue>, x: CodeIssue)
    ensures Score(issues + [x]) <= Score(issues)
    ensures Score(issues) > 2 * Weight(x.severity) ==> Score(issues + [x]) == Score(issues) - 2 * Weight(x.severity)
  {
    var more := issues + [x];
    assert more[..|more| - 1] == issues;
    PenaltyAtLeastCount(issues);
  }

  /** The penalty counts every issue once, whatever the order. */
  lemma {:induction false} PenaltyOfPermutation(a: seq<CodeIssue>, b: seq<CodeIssue>)
    requires multiset(a) == multiset(b)
    ensures Penalty(a) == Penalty(b)
    decreases |a|
  {
    if |a| > 0 {
      var x := a[|a| - 1];
      var front := a[..|a| - 1];
      assert a == front + [x];
      assert x in multiset(b);
      var k :| 0 <= k < |b| && b[k] == x;
      var b' := b[..k] + b[k + 1..];
      assert b == b[..k] + [x] + b[k + 1..];
      assert multiset(b) == multiset(b[..k]) + multiset{x} + multiset(b[k + 1..]);
      assert multiset(b') == multiset(b[..k]) + multiset(b[k + 1..]);
      assert multiset(a) == multiset(front) + multiset{x};
      assert multiset(front) == multiset(a) - multiset{x};
      assert multiset(b') == multiset(b) - multiset{x};
      PenaltyOfPermutation(front, b');
      PenaltyRemove(b, k);
    }
  }

  /** Taking the issue at `k` out removes its weight. */
  lemma {:induction false} PenaltyRemove(b: seq<CodeIssue>, k: nat)
    requires k < |b|
    ensures Penalty(b) == Penalty(b[..k] + b[k + 1..]) + Weight(b[k].severity)
    decreases |b|
  {
    if k < |b| - 1 {
      var init := b[..|b| - 1];
      PenaltyRemove(init, k);
      assert init[..k] + init[k + 1..] == (b[..k] + b[k + 1..])[..|b| - 2];
    } else {
      assert b[..k] + b[k + 1..] == b[..|b| - 1];
    }
  }

  // ---------------------------------------------------------------------
  // Report

  /** How many issues have severity `s`. */
  function SeverityCount(issues: seq<CodeIssue>, s: Severity): nat
  {
    if |issues| == 0 then 0
    else SeverityCount(issues[..|issues| - 1], s) + (if issues[|issues| - 1].severity == s then 1 else 0)
  }

  /** How many issues are in category `c`. */
  function CategoryCount(issues: seq<CodeIssue>, c: Category): nat
  {
    if |issues| == 0 then 0
    else CategoryCount(issues[..|issues| - 1], c) + (if issues[|issues| - 1].category == c then 1 else 0)
  }

  /** Every issue has exactly one of the four severities. */
  lemma {:induction false} SeverityCountsAddUp(issues: seq<CodeIssue>)
    ensures SeverityCount(issues, Low) + SeverityCount(issues, Medium)
            + SeverityCount(issues, High) + SeverityCount(issues, Critical) == |issues|
  {
    if |issues| > 0 {
      SeverityCountsAddUp(issues[..|issues| - 1]);
    }
  }

  /** Every issue has exactly one of the four categories. */
  lemma {:induction false} CategoryCountsAddUp(issues: seq<CodeIssue>)
    ensures CategoryCount(issues, Security) + CategoryCount(issues, Performance)
            + CategoryCount(issues, Style) + CategoryCount(issues, Bug) == |issues|
  {
    if |issues| > 0 {
      CategoryCountsAddUp(issues[..|issues| - 1]);
    }
  }

  datatype Report = Report(
    filename: string, totalIssues: nat,
    severityBreakdown: map<Severity, nat>, categoryBreakdown: map<Category, nat>,
    issues: seq<CodeIssue>, overallScore: int)

  /** `generate_report`: both breakdowns start with all four keys at 0 and count every issue once. */
  method GenerateReport(issues: seq<CodeIssue>, filename: string) returns (r: Report)
    ensures r.filename == filename && r.issues == issues && r.totalIssues == |issues|
    ensures forall s :: s in r.severityBreakdown && r.severityBreakdown[s] == SeverityCount(issues, s)
    ensures forall c :: c in r.categoryBreakdown && r.categoryBreakdown[c] == CategoryCount(issues, c)
    ensures r.overallScore == Score(issues)
  {
    var severityCounts: map<Severity, nat> := map[Low := 0, Medium := 0, High := 0, Critical := 0];
    var categoryCounts: map<Category, nat> := map[Security := 0, Performance := 0, Style := 0, Bug := 0];
    assert issues[..0] == [];
    forall s ensures s in severityCounts && severityCounts[s] == 0 {
      match s
      case Low =>
      case Medium =>
      case High =>
      case Critical =>
    }
    forall c ensures c in categoryCounts && categoryCounts[c] == 0 {
      match c
      case Security =>
      case Performance =>
      case Style =>
      case Bug =>
    }
    for i := 0 to |issues|
      invariant forall s :: s in severityCounts && severityCounts[s] == SeverityCount(issues[..i], s)
      invariant forall c :: c in categoryCounts && categoryCounts[c] == CategoryCount(issues[..i], c)
    {
      assert issues[..i + 1][..i] == issues[..i];
      var issue := issues[i];
      severityCounts := severityCounts[issue.severity := severityCounts[issue.severity] + 1];
      categoryCounts := categoryCounts[issue.category := categoryCounts[issue.category] + 1];
    }
    assert issues[..|issues|] == issues;
    r := Report(filename, |issues|, severityCounts, categoryCounts, issues, Score(issues));
  }

  // ---------------------------------------------------------------------
  // Syntax trees

  /** The node classes the analyses tell apart; every other class is `Other`. */
  datatype NodeKind =
    | FunctionDef(name: string, params: nat)
    | If | For | While | With | Try | ExceptHandler
    | BoolOp(values: nat)
    | Compare(ops: nat)
    | Other

  /** A node with its line number and its children in `iter_child_nodes` order. */
  datatype Node = Node(kind: NodeKind, line: int, children: seq<Node>)

  /** What `ast.parse` guarantees: a boolean operation has at least two operands, a comparison at least one operator. */
  predicate WellFormed(n: Node)
  {
    (n.kind.BoolOp? ==> n.kind.values >= 2)
    && (n.kind.Compare? ==> n.kind.ops >= 1)
    && forall c :: c in n.children ==> WellFormed(c)
  }

  function Size(n: Node): nat
    decreases n, 1
  {
    1 + ForestSize(n.children)
  }

  function ForestSize(ns: seq<Node>): nat
    decreases ns, 0
  {
    if |ns| == 0 then 0 else Size(ns[0]) + ForestSize(ns[1..])
  }

  lemma {:induction false} ForestSizeAppend(a: seq<Node>, b: seq<Node>)
    ensures ForestSize(a + b) == ForestSize(a) + ForestSize(b)
    decreases |a|
  {
    if |a| == 0 {
      assert a + b == b;
    } else {
      assert (a + b)[0] == a[0] && (a + b)[1..] == a[1..] + b;
      ForestSizeAppend(a[1..], b);
    }
  }

  /**
   * `ast.walk` from a queue of pending nodes: take the first, queue its
   * children at the back, so the nodes come out breadth first.
   */
  function Bfs(queue: seq<Node>): (r: seq<Node>)
    decreases ForestSize(queue)
  {
    if |queue| == 0 then []
    else
      ForestSizeAppend(queue[1..], queue[0].children);
      assert ForestSize(queue) == Size(queue[0]) + ForestSize(queue[1..]);
      [queue[0]] + Bfs(queue[1..] + queue[0].children)
  }

  /** `ast.walk(node)`: the node itself first, then its descendants breadth first. */
  function Walk(n: Node): (r: seq<Node>)
    ensures |r| > 0 && r[0] == n
  {
    Bfs([n])
  }

  /** `n` is `root` or one of its descendants. */
  predicate InTree(root: Node, n: Node)
    decreases root, 1
  {
    root == n || InForest(root.children, n)
  }

  predicate InForest(roots: seq<Node>, n: Node)
    decreases roots, 0
  {
    exists i :: 0 <= i < |roots| && InTree(roots[i], n)
  }

  lemma InForestAppend(a: seq<Node>, b: seq<Node>, n: Node)
    ensures InForest(a + b, n) <==> InForest(a, n) || InForest(b, n)
  {
    if InForest(a + b, n) {
      var i :| 0 <= i < |a + b| && InTree((a + b)[i], n);
      if i >= |a| {
        assert b[i - |a|] == (a + b)[i];
      }
    }
    if InForest(a, n) {
      var i :| 0 <= i < |a| && InTree(a[i], n);
      assert (a + b)[i] == a[i];
    }
    if InForest(b, n) {
      var i :| 0 <= i < |b| && InTree(b[i], n);
      assert (a + b)[|a| + i] == b[i];
    }
  }

  /** The walk yields exactly the nodes of the trees in the queue. */
  lemma {:induction false} BfsVisitsForest(queue: seq<Node>, n: Node)
    ensures n in Bfs(queue) <==> InForest(queue, n)
    decreases ForestSize(queue)
  {
    if |queue| > 0 {
      var q := queue[0];
      var next := queue[1..] + q.children;
      ForestSizeAppend(queue[1..], q.children);
      assert ForestSize(queue) == Size(q) + ForestSize(queue[1..]);
      BfsVisitsForest(next, n);
      InForestAppend(queue[1..], q.children, n);
      assert Bfs(queue) == [q] + Bfs(next);
      assert queue == [q] + queue[1..];
      InForestAppend([q], queue[1..], n);
      assert InForest([q], n) <==> InTree(q, n) by {
        if InTree(q, n) {
          assert [q][0] == q;
        }
      }
    } else {
      assert !InForest(queue, n);
    }
  }

  /** `ast.walk` visits the root and every descendant, and nothing else. */
  lemma WalkVisitsTree(root: Node, n: Node)
    ensures n in Walk(root) <==> InTree(root, n)
  {
    BfsVisitsForest([root], n);
    if InTree(root, n) {
      assert [root][0] == root;
    }
  }

  // ---------------------------------------------------------------------
  // Cyclomatic complexity

  /** What one node adds to the cyclomatic complexity. */
  function Increment(k: NodeKind): int
  {
    match k
    case If => 1
    case For => 1
    case While => 1
    case With => 1
    case ExceptHandler => 1
    case BoolOp(values) => values - 1
    case Compare(ops) => ops - 1
    case _ => 0
  }

  /** The increments of a node and all its descendants, by structural recursion. */
  function TreeIncrements(n: Node): int
    decreases n, 1
  {
    Increment(n.kind) + ForestIncrements(n.children)
  }

  function ForestIncrements(ns: seq<Node>): int
    decreases ns, 0
  {
    if |ns| == 0 then 0 else TreeIncrements(ns[0]) + ForestIncrements(ns[1..])
  }

  /** The increments of a list of walked nodes. */
  function SumIncrements(nodes: seq<Node>): int
  {
    if |nodes| == 0 then 0 else SumIncrements(nodes[..|nodes| - 1]) + Increment(nodes[|nodes| - 1].kind)
  }

  lemma {:induction false} ForestIncrementsAppend(a: seq<Node>, b: seq<Node>)
    ensures ForestIncrements(a + b) == ForestIncrements(a) + ForestIncrements(b)
    decreases |a|
  {
    if |a| == 0 {
      assert a + b == b;
    } else {
      assert (a + b)[0] == a[0] && (a + b)[1..] == a[1..] + b;
      ForestIncrementsAppend(a[1..], b);
    }
  }

  lemma {:induction false} SumIncrementsPrepend(x: Node, rest: seq<Node>)
    ensures SumIncrements([x] + rest) == Increment(x.kind) + SumIncrements(rest)
    decreases |rest|
  {
    if |rest| > 0 {
      var init := rest[..|rest| - 1];
      assert ([x] + rest)[..|rest|] == [x] + init;
      SumIncrementsPrepend(x, init);
    } else {
      assert [x] + rest == [x];
    }
  }

  /** Summing in walk order gives the structural total: the order of `ast.walk` does not matter. */
  lemma {:induction false} BfsIncrements(queue: seq<Node>)
    ensures SumIncrements(Bfs(queue)) == ForestIncrements(queue)
    decreases ForestSize(queue)
  {
    if |queue| > 0 {
      var q := queue[0];
      var next := queue[1..] + q.children;
      ForestSizeAppend(queue[1..], q.children);
      assert ForestSize(queue) == Size(q) + ForestSize(queue[1..]);
      BfsIncrements(next);
      ForestIncrementsAppend(queue[1..], q.children);
      assert Bfs(queue) == [q] + Bfs(next);
      SumIncrementsPrepend(q, Bfs(next));
    }
  }

  /** The complexity of a function node: 1 plus the increments of the node and its descendants. */
  function CyclomaticComplexity(n: Node): int
  {
    1 + TreeIncrements(n)
  }

  /** `_calculate_cyclomatic_complexity`: start at 1 and add each walked node's increment. */
  method CalculateCyclomaticComplexity(node: Node) returns (complexity: int)
    ensures complexity == CyclomaticComplexity(node)
  {
    complexity := 1;
    var nodes := Walk(node);
    for i := 0 to |nodes|
      invariant complexity == 1 + SumIncrements(nodes[..i])
    {
      assert nodes[..i + 1][..i] == nodes[..i];
      var child := nodes[i];
      var k := child.kind;
      if k.If? || k.For? || k.While? || k.With? {
        complexity := complexity + 1;
      } else if k.ExceptHandler? {
        complexity := complexity + 1;
      } else if k.BoolOp? {
        complexity := complexity + k.values - 1;
      } else if k.Compare? {
        complexity := complexity + k.ops - 1;
      }
    }
    assert nodes[..|nodes|] == nodes;
    BfsIncrements([node]);
    assert [node][1..] == [];
  }

  /** On a tree `ast.parse` can produce, no node lowers the count. */
  lemma {:induction false} TreeIncrementsNonNegative(n: Node)
    requires WellFormed(n)
    ensures TreeIncrements(n) >= 0
    decreases n, 1
  {
    ForestIncrementsNonNegative(n.children);
  }

  lemma {:induction false} ForestIncrementsNonNegative(ns: seq<Node>)
    requires forall c :: c in ns ==> WellFormed(c)
    ensures ForestIncrements(ns) >= 0
    decreases ns, 0
  {
    if |ns| > 0 {
      assert ns[0] in ns;
      TreeIncrementsNonNegative(ns[0]);
      assert forall c :: c in ns[1..] ==> c in ns;
      ForestIncrementsNonNegative(ns[1..]);
    }
  }

  /** So the complexity of any parsed function is at least 1. */
  lemma ComplexityAtLeastOne(n: Node)
    requires WellFormed(n)
    ensures CyclomaticComplexity(n) >= 1
  {
    TreeIncrementsNonNegative(n);
  }

  // ---------------------------------------------------------------------
  // Nesting depth

  /** The node kinds that open a nested block. */
  predicate IsControl(k: NodeKind)
  {
    k.If? || k.For? || k.While? || k.With? || k.Try?
  }

  function Max(a: int, b: int): int
  {
    if a >= b then a else b
  }

  /** `_calculate_nesting_depth(node, depth)`: the deepest control child, counted from `depth`. */
  function NestingDepth(n: Node, depth: int): (d: int)
    ensures d >= depth
    decreases n, 1
  {
    DeepestChild(n.children, depth)
  }

  /** `max_depth` once the loop has seen `children`, starting from `depth`. */
  function DeepestChild(children: seq<Node>, depth: int): (d: int)
    ensures d >= depth
    decreases children, 0
  {
    if |children| == 0 then depth
    else
      var last := children[|children| - 1];
      var before := DeepestChild(children[..|children| - 1], depth);
      if IsControl(last.kind) then Max(before, NestingDepth(last, depth + 1)) else before
  }

  /** The depth is the starting depth or one reached through a control child, and no control child goes deeper. */
  lemma {:induction false} DeepestChildIsMaximum(children: seq<Node>, depth: int)
    ensures forall c :: c in children && IsControl(c.kind) ==> DeepestChild(children, depth) >= NestingDepth(c, depth + 1)
    ensures DeepestChild(children, depth) == depth
      || exists c :: c in children && IsControl(c.kind) && DeepestChild(children, depth) == NestingDepth(c, depth + 1)
  {
    if |children| > 0 {
      var init := children[..|children| - 1];
      var last := children[|children| - 1];
      DeepestChildIsMaximum(init, depth);
      assert children == init + [last];
      var before := DeepestChild(init, depth);
      if before != depth && (!IsControl(last.kind) || before >= NestingDepth(last, depth + 1)) {
        var c :| c in init && IsControl(c.kind) && before == NestingDepth(c, depth + 1);
        assert c in children;
      }
    }
  }

  /** A node with no control children has depth `depth`; otherwise its depth is its deepest control child's. */
  lemma NestingDepthIsMaximum(n: Node, depth: int)
    ensures forall c :: c in n.children && IsControl(c.kind) ==> NestingDepth(n, depth) >= NestingDepth(c, depth + 1)
    ensures (forall c :: c in n.children ==> !IsControl(c.kind)) ==> NestingDepth(n, depth) == depth
    ensures NestingDepth(n, depth) == depth
      || exists c :: c in n.children && IsControl(c.kind) && NestingDepth(n, depth) == NestingDepth(c, depth + 1)
  {
    DeepestChildIsMaximum(n.children, depth);
  }

  /** The starting depth only shifts the result. */
  lemma {:induction false} NestingDepthShift(n: Node, depth: int)
    ensures NestingDepth(n, depth) == depth + NestingDepth(n, 0)
    decreases n, 1
  {
    DeepestChildShift(n.children, depth);
  }

  lemma {:induction false} DeepestChildShift(children: seq<Node>, depth: int)
    ensures DeepestChild(children, depth) == depth + DeepestChild(children, 0)
    decreases children, 0
  {
    if |children| > 0 {
      var last := children[|children| - 1];
      DeepestChildShift(children[..|children| - 1], depth);
      if IsControl(last.kind) {
        NestingDepthShift(last, depth + 1);
        NestingDepthShift(last, 1);
      }
    }
  }

  // ---------------------------------------------------------------------
  // Static analysis

  /** What `ast.parse` raises: `SyntaxError` with an optional line number and a message. */
  datatype SyntaxError = SyntaxError(lineno: Option<int>, msg: string)

  /** A parser from source text to a tree or a syntax error. */
  type Parser = string -> Result<Node, SyntaxError>

  const MaxParameters: nat := 7
  const MaxNesting: int := 4

  /** The issue a syntax error becomes; `e.lineno or 1` maps a missing or zero line to 1. */
  function SyntaxIssue(e: SyntaxError): (issue: CodeIssue)
    ensures issue.severity == Critical && issue.category == Bug && issue.confidence == 1.0
    ensures issue.line != 0
    ensures e.lineno.Some? && e.lineno.value != 0 ==> issue.line == e.lineno.value
  {
    var line := if e.lineno.Some? && e.lineno.value != 0 then e.lineno.value else 1;
    CodeIssue(Critical, Bug, line, "Syntax error: " + e.msg, "Fix syntax error", 1.0)
  }

  function TooManyParameters(name: string, line: int, params: nat): CodeIssue
  {
    CodeIssue(Medium, Style, line,
      "Function " + name + " has too many parameters (" + NatToString(params) + ")",
      "Consider using a configuration object or breaking into smaller functions", 0.8)
  }

  function DeeplyNested(line: int, depth: nat): CodeIssue
  {
    CodeIssue(Medium, Style, line,
      "Deeply nested condition (depth: " + NatToString(depth) + ")",
      "Consider extracting conditions into separate functions", 0.7)
  }

  /** The issue, if any, that the static analysis reports for one walked node. */
  function NodeStaticIssues(n: Node): seq<CodeIssue>
  {
    match n.kind
    case FunctionDef(name, params) =>
      if params > MaxParameters then [TooManyParameters(name, n.line, params)] else []
    case If =>
      var depth := NestingDepth(n, 0);
      if depth > MaxNesting then [DeeplyNested(n.line, depth)] else []
    case _ => []
  }

  /** The static-analysis issues for the walked nodes, in walk order. */
  function StaticIssues(nodes: seq<Node>): seq<CodeIssue>
  {
    if |nodes| == 0 then [] else StaticIssues(nodes[..|nodes| - 1]) + NodeStaticIssues(nodes[|nodes| - 1])
  }

  /** Every static issue comes from one walked node, and every qualifying node gives one. */
  lemma {:induction false} StaticIssuesFromNodes(nodes: seq<Node>)
    ensures forall x :: x in StaticIssues(nodes) <==> exists n :: n in nodes && x in NodeStaticIssues(n)
  {
    if |nodes| > 0 {
      var init := nodes[..|nodes| - 1];
      var last := nodes[|nodes| - 1];
      StaticIssuesFromNodes(init);
      assert nodes == init + [last];
      forall x | x in StaticIssues(nodes)
        ensures exists n :: n in nodes && x in NodeStaticIssues(n)
      {
        if x in StaticIssues(init) {
          var n :| n in init && x in NodeStaticIssues(n);
          assert n in nodes;
        } else {
          assert x in NodeStaticIssues(last);
        }
      }
      forall x | exists n :: n in nodes && x in NodeStaticIssues(n)
        ensures x in StaticIssues(nodes)
      {
        var n :| n in nodes && x in NodeStaticIssues(n);
        if n != last {
          assert n in init;
        }
      }
    }
  }

  lemma StaticIssuesSnoc(nodes: seq<Node>, i: nat)
    requires i < |nodes|
    ensures StaticIssues(nodes[..i + 1]) == StaticIssues(nodes[..i]) + NodeStaticIssues(nodes[i])
  {
    assert nodes[..i + 1][..i] == nodes[..i];
  }

  lemma NodeStaticIssuesAreMediumStyle(n: Node)
    ensures forall x :: x in NodeStaticIssues(n) ==> x.severity == Medium && x.category == Style && x.line == n.line
  {
    match n.kind
    case FunctionDef(name, params) =>
    case If =>
    case _ =>
  }

  /** Each static issue is a medium style issue. */
  lemma {:induction false} StaticIssuesAreMediumStyle(nodes: seq<Node>)
    ensures forall x :: x in StaticIssues(nodes) ==> x.severity == Medium && x.category == Style
  {
    if |nodes| > 0 {
      var init := nodes[..|nodes| - 1];
      StaticIssuesAreMediumStyle(init);
      NodeStaticIssuesAreMediumStyle(nodes[|nodes| - 1]);
      assert StaticIssues(nodes) == StaticIssues(init) + NodeStaticIssues(nodes[|nodes| - 1]);
    }
  }

  /** Every function in the tree with more than seven parameters, and every `if` nested more than four deep, is reported. */
  lemma StaticAnalysisFindsEveryViolation(tree: Node, n: Node)
    requires InTree(tree, n)
    ensures n.kind.FunctionDef? && n.kind.params > MaxParameters ==>
      TooManyParameters(n.kind.name, n.line, n.kind.params) in StaticIssues(Walk(tree))
    ensures n.kind.If? && NestingDepth(n, 0) > MaxNesting ==>
      DeeplyNested(n.line, NestingDepth(n, 0)) in StaticIssues(Walk(tree))
  {
    WalkVisitsTree(tree, n);
    StaticIssuesFromNodes(Walk(tree));
  }

  /** The checks the static analysis makes on one walked node. */
  method CheckNode(node: Node) returns (found: seq<CodeIssue>)
    ensures found == NodeStaticIssues(node)
  {
    found := [];
    match node.kind {
      case FunctionDef(name, params) =>
        if params > MaxParameters {
          found := [TooManyParameters(name, node.line, params)];
        }
      case If =>
        var depth := NestingDepth(node, 0);
        if depth > MaxNesting {
          found := [DeeplyNested(node.line, depth)];
        }
      case _ =>
    }
  }

  /** `_static_analysis`: a syntax error becomes one critical issue; otherwise each walked node is checked. */
  method StaticAnalysis(code: string, parse: Parser) returns (issues: seq<CodeIssue>)
    ensures parse(code).Err? ==> issues == [SyntaxIssue(parse(code).error)]
    ensures parse(code).Ok? ==> issues == StaticIssues(Walk(parse(code).value))
  {
    var parsed := parse(code);
    if parsed.Err? {
      return [SyntaxIssue(parsed.error)];
    }
    issues := [];
    var nodes := Walk(parsed.value);
    for i := 0 to |nodes|
      invariant issues == StaticIssues(nodes[..i])
    {
      StaticIssuesSnoc(nodes, i);
      var found := CheckNode(nodes[i]);
      issues := issues + found;
    }
    assert nodes[..|nodes|] == nodes;
  }

  // ---------------------------------------------------------------------
  // Complexity analysis

  const ComplexityThreshold: int := 10
  const HighComplexityThreshold: int := 15

  /** `min(0.95, 0.5 + complexity / 50)`. */
  function ComplexityConfidence(complexity: int): (r: real)
    ensures r <= 0.95
    ensures r == 0.95 || r == 0.5 + (complexity as real) / 50.0
    ensures complexity >= 23 ==> r == 0.95
  {
    var raw := 0.5 + (complexity as real) / 50.0;
    if raw <= 0.95 then raw else 0.95
  }

  function ComplexityIssue(name: string, line: int, complexity: nat): CodeIssue
  {
    CodeIssue(if complexity > HighComplexityThreshold then High else Medium, Style, line,
      "Function " + name + " has high cyclomatic complexity (" + NatToString(complexity) + ")",
      "Consider refactoring into smaller functions to reduce complexity", ComplexityConfidence(complexity))
  }

  /** The issue, if any, that the complexity analysis reports for one walked node. */
  function NodeComplexityIssues(n: Node): seq<CodeIssue>
  {
    var complexity := CyclomaticComplexity(n);
    if n.kind.FunctionDef? && complexity > ComplexityThreshold then [ComplexityIssue(n.kind.name, n.line, complexity)] else []
  }

  /** Only functions above the threshold are reported; above 15 the issue is high, otherwise medium. */
  lemma NodeComplexityIssueShape(n: Node)
    ensures |NodeComplexityIssues(n)| <= 1
    ensures |NodeComplexityIssues(n)| == 1 <==> n.kind.FunctionDef? && CyclomaticComplexity(n) > ComplexityThreshold
    ensures forall x :: x in NodeComplexityIssues(n) ==>
      x.category == Style && x.line == n.line && 0.7 < x.confidence <= 0.95
      && (x.severity == High <==> CyclomaticComplexity(n) > HighComplexityThreshold)
      && (x.severity == Medium <==> CyclomaticComplexity(n) <= HighComplexityThreshold)
  {
  }

  /** The complexity-analysis issues for the walked nodes, in walk order. */
  function ComplexityIssues(nodes: seq<Node>): seq<CodeIssue>
  {
    if |nodes| == 0 then [] else ComplexityIssues(nodes[..|nodes| - 1]) + NodeComplexityIssues(nodes[|nodes| - 1])
  }

  lemma ComplexityIssuesSnoc(nodes: seq<Node>, i: nat)
    requires i < |nodes|
    ensures ComplexityIssues(nodes[..i + 1]) == ComplexityIssues(nodes[..i]) + NodeComplexityIssues(nodes[i])
  {
    assert nodes[..i + 1][..i] == nodes[..i];
  }

  /** Every function in the tree whose complexity exceeds 10 is reported, and nothing else is. */
  lemma {:induction false} ComplexityIssuesFromNodes(nodes: seq<Node>)
    ensures forall x :: x in ComplexityIssues(nodes) <==> exists n :: n in nodes && x in NodeComplexityIssues(n)
  {
    if |nodes| > 0 {
      var init := nodes[..|nodes| - 1];
      var last := nodes[|nodes| - 1];
      ComplexityIssuesFromNodes(init);
      assert nodes == init + [last];
      forall x | x in ComplexityIssues(nodes)
        ensures exists n :: n in nodes && x in NodeComplexityIssues(n)
      {
        if x in ComplexityIssues(init) {
          var n :| n in init && x in NodeComplexityIssues(n);
          assert n in nodes;
        } else {
          assert x in NodeComplexityIssues(last);
        }
      }
      forall x | exists n :: n in nodes && x in NodeComplexityIssues(n)
        ensures x in ComplexityIssues(nodes)
      {
        var n :| n in nodes && x in NodeComplexityIssues(n);
        if n != last {
          assert n in init;
        }
      }
    }
  }

  lemma ComplexityAnalysisFindsEveryFunction(tree: Node, n: Node)
    requires InTree(tree, n) && n.kind.FunctionDef? && CyclomaticComplexity(n) > ComplexityThreshold
    ensures ComplexityIssue(n.kind.name, n.line, CyclomaticComplexity(n)) in ComplexityIssues(Walk(tree))
  {
    WalkVisitsTree(tree, n);
    ComplexityIssuesFromNodes(Walk(tree));
  }

  /** `_complexity_analysis`: nothing on a syntax error; otherwise each walked function is measured. */
  method ComplexityAnalysis(code: string, parse: Parser) returns (issues: seq<CodeIssue>)
    ensures parse(code).Err? ==> issues == []
    ensures parse(code).Ok? ==> issues == ComplexityIssues(Walk(parse(code).value))
  {
    issues := [];
    var parsed := parse(code);
    if parsed.Err? {
      return;
    }
    var nodes := Walk(parsed.value);
    for i := 0 to |nodes|
      invariant issues == ComplexityIssues(nodes[..i])
    {
      ComplexityIssuesSnoc(nodes, i);
      var node := nodes[i];
      if node.kind.FunctionDef? {
        var complexity := CalculateCyclomaticComplexity(node);
        if complexity > ComplexityThreshold {
          issues := issues + [ComplexityIssue(node.kind.name, node.line, complexity)];
        }
      }
    }
    assert nodes[..|nodes|] == nodes;
  }

  // ---------------------------------------------------------------------
  // Pattern analysis

  /** One entry of the pattern tables: a regular expression and the issue it raises. */
  datatype PatternInfo = PatternInfo(
    pattern: string, severity: Severity, description: string, suggestion: string, confidence: real)

  /** `_load_security_patterns`. */
  const SecurityPatterns: seq<PatternInfo> := [
    PatternInfo(@"eval\s*\(", Critical, "Use of eval() can lead to code injection",
      "Use ast.literal_eval() for safe evaluation", 0.95),
    PatternInfo(@"exec\s*\(", Critical, "Use of exec() can execute arbitrary code",
      "Avoid exec() or use restricted execution environment", 0.95),
    PatternInfo(@"pickle\.loads?\s*\(", High, "Pickle deserialization can execute arbitrary code",
      "Use json or other safe serialization formats", 0.90),
    PatternInfo(@"(subprocess|os)\.(system|popen|check_output)\s*\(", High, "Shell command execution without proper sanitization",
      "Use subprocess.run() with shell=False and proper input validation", 0.85),
    PatternInfo(@"input\s*\(", Medium, "Direct user input without validation",
      "Validate and sanitize all user inputs", 0.80),
    PatternInfo(@"Crypto\.Random\.random\(\)", High, "Use of insecure random number generator",
      "Use secrets module for cryptographically secure random numbers", 0.90),
    PatternInfo(@"(md5|sha1)\.update\(", High, "Use of weak cryptographic hash functions",
      "Use SHA-256 or stronger hash functions", 0.85),
    PatternInfo(@"password\s*=\s*.*", Medium, "Potential hardcoded password",
      "Use environment variables or secure configuration management", 0.70)
  ]

  /** `_load_performance_patterns`. */
  const PerformancePatterns: seq<PatternInfo> := [
    PatternInfo(@"for\s+\w+\s+in\s+range\s*\(\s*len\s*\(", Medium, "Inefficient iteration pattern",
      "Use enumerate() or iterate directly over the sequence", 0.80),
    PatternInfo(@"\.append\s*\(\s*\)\s*in\s+for", Low, "List comprehension might be more efficient",
      "Consider using list comprehension", 0.70),
    PatternInfo(@"import\s+(\w+).*\n.*\1\.\w+\(.*\)\s*\*\s*1000", Medium, "Inefficient repeated function calls",
      "Store function reference in a variable to avoid repeated attribute access", 0.75),
    PatternInfo(@"global\s+\w+", Medium, "Use of global variables reduces code maintainability",
      "Pass variables as parameters or use class attributes", 0.80),
    PatternInfo(@"with\s+open\([^)]*\)\s+as\s+\w+:\s*\w+\.read\(\)", Medium, "Reading entire file into memory may cause memory issues",
      "Process file in chunks or use streaming approach for large files", 0.85),
    PatternInfo(@"\.sort\(\s*key\s*=.*\)\s*\[\s*-1\s*\]", Medium, "Inefficient way to find maximum element",
      "Use max() function with key parameter instead", 0.80),
    PatternInfo(@"list\(.*\)\.index\(", Medium, "Linear search with O(n) complexity",
      "Use set or dict for O(1) lookup if possible", 0.75)
  ]

  /** The two tables the analyser loads; `all_patterns` is the security table followed by the performance table. */
  datatype PatternTables = PatternTables(security: seq<PatternInfo>, performance: seq<PatternInfo>)
  {
    function All(): seq<PatternInfo>
    {
      security + performance
    }
  }

  const Patterns: PatternTables := PatternTables(SecurityPatterns, PerformancePatterns)

  /** No entry is in both tables, so the category test is unambiguous. */
  lemma PatternTablesDisjoint()
    ensures forall p :: p in PerformancePatterns ==> p !in SecurityPatterns
  {
  }

  /** A pattern issue is a security issue for a security pattern and a performance issue for a performance pattern. */
  lemma PatternIssueCategory(p: PatternInfo, lineNumber: int)
    ensures p in SecurityPatterns ==> PatternIssue(p, Patterns, lineNumber).category == Security
    ensures p in PerformancePatterns ==> PatternIssue(p, Patterns, lineNumber).category == Performance
  {
    PatternTablesDisjoint();
  }

  /** `re.search(pattern, line)`: whether the pattern occurs somewhere in the line. */
  type Matcher = (string, string) -> bool

  /** The issue a matching pattern raises on the line numbered `lineNumber`. */
  function PatternIssue(p: PatternInfo, tables: PatternTables, lineNumber: int): CodeIssue
  {
    CodeIssue(p.severity, if p in tables.security then Security else Performance, lineNumber,
      p.description, p.suggestion, p.confidence)
  }

  /** The patterns of `patterns` that match `line`, in table order. */
  function Matching(patterns: seq<PatternInfo>, line: string, matches: Matcher): (r: seq<PatternInfo>)
    ensures forall p :: p in r <==> p in patterns && matches(p.pattern, line)
    ensures |r| <= |patterns|
  {
    if |patterns| == 0 then []
    else
      var last := patterns[|patterns| - 1];
      var init := patterns[..|patterns| - 1];
      assert patterns == init + [last];
      Matching(init, line, matches) + if matches(last.pattern, line) then [last] else []
  }

  /** The issues raised on one line: the inner loop over the pattern tables. */
  function LineIssues(line: string, lineNumber: int, patterns: seq<PatternInfo>, tables: PatternTables, matches: Matcher): seq<CodeIssue>
  {
    if |patterns| == 0 then []
    else
      var last := patterns[|patterns| - 1];
      LineIssues(line, lineNumber, patterns[..|patterns| - 1], tables, matches)
        + if matches(last.pattern, line) then [PatternIssue(last, tables, lineNumber)] else []
  }

  /** The issues raised on `lines`, numbered from 1: the outer loop. */
  function PatternIssues(lines: seq<string>, tables: PatternTables, matches: Matcher): seq<CodeIssue>
  {
    if |lines| == 0 then []
    else PatternIssues(lines[..|lines| - 1], tables, matches) + LineIssues(lines[|lines| - 1], |lines|, tables.All(), tables, matches)
  }

  /** One issue per matching pattern, in table order. */
  lemma {:induction false} LineIssuesOnePerMatch(line: string, lineNumber: int, patterns: seq<PatternInfo>, tables: PatternTables, matches: Matcher)
    ensures |LineIssues(line, lineNumber, patterns, tables, matches)| == |Matching(patterns, line, matches)|
    ensures forall j :: 0 <= j < |LineIssues(line, lineNumber, patterns, tables, matches)| ==>
      LineIssues(line, lineNumber, patterns, tables, matches)[j] == PatternIssue(Matching(patterns, line, matches)[j], tables, lineNumber)
  {
    if |patterns| > 0 {
      LineIssuesOnePerMatch(line, lineNumber, patterns[..|patterns| - 1], tables, matches);
    }
  }

  /** An issue is raised on a line exactly when some pattern matches it. */
  lemma LineIssuesExactly(line: string, lineNumber: int, patterns: seq<PatternInfo>, tables: PatternTables, matches: Matcher, x: CodeIssue)
    ensures x in LineIssues(line, lineNumber, patterns, tables, matches) <==>
      exists p :: p in patterns && matches(p.pattern, line) && x == PatternIssue(p, tables, lineNumber)
  {
    LineIssuesOnePerMatch(line, lineNumber, patterns, tables, matches);
    var found := LineIssues(line, lineNumber, patterns, tables, matches);
    var ms := Matching(patterns, line, matches);
    if x in found {
      var j :| 0 <= j < |found| && found[j] == x;
      assert ms[j] in ms;
    }
    if exists p :: p in patterns && matches(p.pattern, line) && x == PatternIssue(p, tables, lineNumber) {
      var p :| p in patterns && matches(p.pattern, line) && x == PatternIssue(p, tables, lineNumber);
      var j :| 0 <= j < |ms| && ms[j] == p;
      assert found[j] == x;
    }
  }

  /** The pattern issues are exactly the (1-based line, matching pattern) pairs. */
  lemma {:induction false} PatternIssuesExactly(lines: seq<string>, tables: PatternTables, matches: Matcher, x: CodeIssue)
    ensures x in PatternIssues(lines, tables, matches) <==>
      exists k :: RaisedOnLine(lines, k, tables, matches, x)
  {
    if |lines| > 0 {
      var init := lines[..|lines| - 1];
      var last := lines[|lines| - 1];
      PatternIssuesExactly(init, tables, matches, x);
      LineIssuesExactly(last, |lines|, tables.All(), tables, matches, x);
      if x in PatternIssues(init, tables, matches) {
        var k :| RaisedOnLine(init, k, tables, matches, x);
        assert lines[k - 1] == init[k - 1];
        assert RaisedOnLine(lines, k, tables, matches, x);
      }
      if x in LineIssues(last, |lines|, tables.All(), tables, matches) {
        assert RaisedOnLine(lines, |lines|, tables, matches, x);
      }
      if exists k :: RaisedOnLine(lines, k, tables, matches, x) {
        var k :| RaisedOnLine(lines, k, tables, matches, x);
        if k < |lines| {
          assert init[k - 1] == lines[k - 1];
          assert RaisedOnLine(init, k, tables, matches, x);
        }
      }
    }
  }

  /** Line `k` (from 1) of `lines` exists, and some pattern of the tables matches it and raises `x` there. */
  predicate RaisedOnLine(lines: seq<string>, k: int, tables: PatternTables, matches: Matcher, x: CodeIssue)
  {
    1 <= k <= |lines| && exists p :: p in tables.All() && matches(p.pattern, lines[k - 1]) && x == PatternIssue(p, tables, k)
  }

  /**
   * `_pattern_analysis`: every line against every pattern, lines numbered
   * from 1; `tables` are the analyser's loaded tables (`Patterns`).
   */
  method PatternAnalysis(code: string, tables: PatternTables, matches: Matcher) returns (issues: seq<CodeIssue>)
    ensures issues == PatternIssues(Split(code, '\n'), tables, matches)
  {
    issues := [];
    var lines := Split(code, '\n');
    var allPatterns := tables.security + tables.performance;
    for i := 0 to |lines|
      invariant issues == PatternIssues(lines[..i], tables, matches)
    {
      assert lines[..i + 1][..i] == lines[..i];
      var lineNum := i + 1;
      var line := lines[i];
      var before := issues;
      for j := 0 to |allPatterns|
        invariant issues == before + LineIssues(line, lineNum, allPatterns[..j], tables, matches)
      {
        assert allPatterns[..j + 1][..j] == allPatterns[..j];
        var patternInfo := allPatterns[j];
        if matches(patternInfo.pattern, line) {
          issues := issues + [PatternIssue(patternInfo, tables, lineNum)];
        }
      }
      assert allPatterns[..|allPatterns|] == tables.All();
    }
    assert lines[..|lines|] == lines;
  }

  // ---------------------------------------------------------------------
  // The whole analysis

  /** Where a severity's name falls in string order: "critical" < "high" < "low" < "medium". */
  function SeverityRank(s: Severity): nat
  {
    match s
    case Critical => 0
    case High => 1
    case Low => 2
    case Medium => 3
  }

  /** String `<`: lexicographic by character code. */
  predicate StringBefore(a: string, b: string)
    decreases |a|
  {
    |b| > 0 && (|a| == 0 || a[0] < b[0] || (a[0] == b[0] && StringBefore(a[1..], b[1..])))
  }

  /** Sorting on the severity string is sorting on `SeverityRank`, so a low issue precedes a medium one. */
  lemma SeverityRankIsNameOrder(s: Severity, t: Severity)
    ensures SeverityRank(s) < SeverityRank(t) <==> StringBefore(SeverityName(s), SeverityName(t))
    ensures SeverityRank(s) == SeverityRank(t) <==> s == t
  {
    if s == t {
      StringBeforeIrreflexive(SeverityName(s));
    } else {
      assert SeverityName(s)[0] != SeverityName(t)[0];
    }
  }

  lemma {:induction false} StringBeforeIrreflexive(a: string)
    ensures !StringBefore(a, a)
    decreases |a|
  {
    if |a| > 0 {
      StringBeforeIrreflexive(a[1..]);
    }
  }

  /** The sort key `(severity, line_number)`: severity names first, then line numbers. */
  predicate IssueBefore(a: CodeIssue, b: CodeIssue)
  {
    SeverityRank(a.severity) < SeverityRank(b.severity)
    || (a.severity == b.severity && a.line <= b.line)
  }

  /** Two issues tie under the sort key exactly when they share severity and line. */
  lemma IssueTiesShareKey(a: CodeIssue, b: CodeIssue)
    ensures IssueBefore(a, b) && IssueBefore(b, a) <==> a.severity == b.severity && a.line == b.line
  {
    SeverityRankIsNameOrder(a.severity, b.severity);
  }

  lemma IssueOrderIsTotalPreorder()
    ensures Sorting.TotalPreorder(IssueBefore)
  {
    forall a, b, c | IssueBefore(a, b) && IssueBefore(b, c)
      ensures IssueBefore(a, c)
    {
      SeverityRankIsNameOrder(a.severity, b.severity);
      SeverityRankIsNameOrder(b.severity, c.severity);
      SeverityRankIsNameOrder(a.severity, c.severity);
    }
    forall a, b
      ensures IssueBefore(a, b) || IssueBefore(b, a)
    {
      SeverityRankIsNameOrder(a.severity, b.severity);
    }
  }

  /** `sorted(issues, key=lambda x: (x.severity, x.line_number))`; reordering leaves the score as it was. */
  function SortIssues(issues: seq<CodeIssue>): (r: seq<CodeIssue>)
    ensures Sorting.Sorted(r, IssueBefore)
    ensures multiset(r) == multiset(issues)
    ensures Score(r) == Score(issues)
    ensures forall k :: Sorting.Ties(r, IssueBefore, k) == Sorting.Ties(issues, IssueBefore, k)
  {
    IssueOrderIsTotalPreorder();
    Sorting.SortByStable(issues, IssueBefore);
    var r := Sorting.SortBy(issues, IssueBefore);
    PenaltyOfPermutation(r, issues);
    r
  }

  /** What `_static_analysis` returns. */
  function StaticFindings(code: string, parse: Parser): seq<CodeIssue>
  {
    match parse(code)
    case Err(e) => [SyntaxIssue(e)]
    case Ok(tree) => StaticIssues(Walk(tree))
  }

  /** What `_complexity_analysis` returns. */
  function ComplexityFindings(code: string, parse: Parser): seq<CodeIssue>
  {
    match parse(code)
    case Err(_) => []
    case Ok(tree) => ComplexityIssues(Walk(tree))
  }

  /** The four analyses' issues in the order `analyze_code` collects them. */
  function Collected(code: string, parse: Parser, tables: PatternTables, matches: Matcher, aiIssues: seq<CodeIssue>): seq<CodeIssue>
  {
    StaticFindings(code, parse) + PatternIssues(Split(code, '\n'), tables, matches)
      + aiIssues + ComplexityFindings(code, parse)
  }

  /**
   * `analyze_code`: the static, pattern, model and complexity issues,
   * sorted by severity name and then line. `aiIssues` are the learned
   * model's issues.
   */
  method AnalyzeCode(code: string, parse: Parser, tables: PatternTables, matches: Matcher, aiIssues: seq<CodeIssue>)
    returns (issues: seq<CodeIssue>)
    ensures Sorting.Sorted(issues, IssueBefore)
    ensures multiset(issues) == multiset(Collected(code, parse, tables, matches, aiIssues))
    ensures Score(issues) == Score(Collected(code, parse, tables, matches, aiIssues))
    ensures forall k :: Sorting.Ties(issues, IssueBefore, k) == Sorting.Ties(Collected(code, parse, tables, matches, aiIssues), IssueBefore, k)
  {
    var staticIssues := StaticAnalysis(code, parse);
    var patternIssues := PatternAnalysis(code, tables, matches);
    var complexityIssues := ComplexityAnalysis(code, parse);
    var all := staticIssues + patternIssues + aiIssues + complexityIssues;
    assert staticIssues == StaticFindings(code, parse);
    assert complexityIssues == ComplexityFindings(code, parse);
    issues := SortIssues(all);
  }

  /** In the result, severities never go down in name order: every critical issue comes first, every medium issue last. */
  lemma SortedBySeverityName(issues: seq<CodeIssue>, i: nat, j: nat)
    requires Sorting.Sorted(issues, IssueBefore) && i < j < |issues|
    ensures !StringBefore(SeverityName(issues[j].severity), SeverityName(issues[i].severity))
    ensures issues[i].severity == issues[j].severity ==> issues[i].line <= issues[j].line
  {
    SeverityRankIsNameOrder(issues[j].severity, issues[i].severity);
    assert IssueBefore(issues[i], issues[j]);
  }
}
