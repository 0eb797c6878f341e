/**
 * `src/utils/tree_formatter.py`: rendering a process tree as indented text, and building
 * the parent/child hierarchy of a process table.
 */
module TreeFormatter {
  import opened Wrappers
  import opened Lists
  import opened ProcessModel
  import opened Lifecycle
  import Text

  /**
   * A subtree in the shape `get_process_tree` builds: a node holding a process and its
   * children keyed by pid (in insertion order), or the empty dict produced for an
   * unknown pid.
   */
  datatype Subtree = Missing | Node(process: Process, children: seq<(int, Subtree)>)

  /** `c` repeated `n` times. */
  function Repeat(c: char, n: nat): (s: string)
    ensures |s| == n
    ensures forall i :: 0 <= i < |s| ==> s[i] == c
  {
    seq(n, _ => c)
  }

  /** The text returned for an empty tree. */
  const EmptyTreeText: string := "No hay procesos en el \U{E1}rbol"

  /** The title, a rule of 50 '=' and a blank line. */
  const Header: string := "\U{1F333} \U{C1}rbol de Procesos\n" + Repeat('=', 50) + "\n\n"

  /** `"  " * level`. */
  function Indent(level: nat): string {
    Repeat(' ', 2 * level)
  }

  /** The node marker: a diamond for roots, a branch for deeper levels. */
  function Symbol(level: nat): string {
    if level == 0 then "\U{1F538}" else "\U{251C}\U{2500}"
  }

  /** The optional suffix: burst always, parent only when it is truthy. */
  function Details(p: Process, showDetails: bool): string {
    if !showDetails then ""
    else
      " (Burst: " + Text.IntToString(p.remainingBurst) + "/" + Text.IntToString(p.totalBurst) + ")"
      + (if Truthy(p.parentPid) then " (Padre: " + Text.IntToString(p.parentPid.value) + ")" else "")
  }

  /** The one line printed for a process at `level`. */
  function Line(p: Process, level: nat, showDetails: bool): string {
    Indent(level) + Symbol(level) + " PID " + Text.IntToString(p.pid) + ": " + p.name
    + " [" + StateName(p.state) + "]" + Details(p, showDetails) + "\n"
  }

  /** `_format_subtree`: the node's line, then each child one level deeper, in order. */
  function FormatSubtree(t: Subtree, level: nat, showDetails: bool): string
    decreases t, 1
  {
    match t
    case Missing => ""
    case Node(p, kids) => Line(p, level, showDetails) + FormatChildren(t, kids, level + 1, showDetails)
  }

  /** The loop over a node's children (or over the roots), rendering each at `level`. */
  function FormatChildren(ghost parent: Subtree, kids: seq<(int, Subtree)>, level: nat, showDetails: bool): string
    requires forall i :: 0 <= i < |kids| ==> kids[i].1 < parent
    decreases parent, 0, |kids|
  {
    if kids == [] then ""
    else
      FormatChildren(parent, kids[..|kids| - 1], level, showDetails)
      + FormatSubtree(kids[|kids| - 1].1, level, showDetails)
  }

  /** `format_tree_text`: a fixed message for an empty tree, else the header and every root. */
  function FormatTreeText(tree: seq<(int, Subtree)>, showDetails: bool): string {
    if tree == [] then EmptyTreeText
    else Header + FormatChildren(Node(Process(0, ""), tree), tree, 0, showDetails)
  }

  // ----- What the text contains -----

  /** `s` holds no line break. */
  predicate OneLine(s: string) {
    '\n' !in s
  }

  /** Every process name in the subtree is a single line. */
  predicate NamesOneLine(t: Subtree)
    decreases t, 1
  {
    match t
    case Missing => true
    case Node(p, kids) => OneLine(p.name) && ForestNamesOneLine(t, kids)
  }

  predicate ForestNamesOneLine(ghost parent: Subtree, kids: seq<(int, Subtree)>)
    requires forall i :: 0 <= i < |kids| ==> kids[i].1 < parent
    decreases parent, 0, |kids|
  {
    kids == [] || (ForestNamesOneLine(parent, kids[..|kids| - 1]) && NamesOneLine(kids[|kids| - 1].1))
  }

  /** The number of processes in a subtree. */
  function NodeCount(t: Subtree): nat
    decreases t, 1
  {
    match t
    case Missing => 0
    case Node(_, kids) => 1 + ForestCount(t, kids)
  }

  function ForestCount(ghost parent: Subtree, kids: seq<(int, Subtree)>): nat
    requires forall i :: 0 <= i < |kids| ==> kids[i].1 < parent
    decreases parent, 0, |kids|
  {
    if kids == [] then 0 else ForestCount(parent, kids[..|kids| - 1]) + NodeCount(kids[|kids| - 1].1)
  }

  /** Joining single lines gives a single line. */
  lemma JoinOneLine(a: string, b: string)
    requires OneLine(a) && OneLine(b)
    ensures OneLine(a + b)
  {
    assert forall i :: 0 <= i < |a + b| ==> (a + b)[i] == if i < |a| then a[i] else b[i - |a|];
  }

  /** A rendered number has no line break. */
  lemma NumberOneLine(i: int)
    ensures OneLine(Text.IntToString(i))
  {
    var s := Text.IntToString(i);
    assert forall k :: 0 <= k < |s| ==> s[k] != '\n';
  }

  /** The details suffix has no line break. */
  lemma DetailsOneLine(p: Process, showDetails: bool)
    ensures OneLine(Details(p, showDetails))
  {
    if showDetails {
      NumberOneLine(p.remainingBurst);
      NumberOneLine(p.totalBurst);
      JoinOneLine(" (Burst: ", Text.IntToString(p.remainingBurst));
      JoinOneLine(" (Burst: " + Text.IntToString(p.remainingBurst), "/");
      JoinOneLine(" (Burst: " + Text.IntToString(p.remainingBurst) + "/", Text.IntToString(p.totalBurst));
      var burst := " (Burst: " + Text.IntToString(p.remainingBurst) + "/" + Text.IntToString(p.totalBurst);
      JoinOneLine(burst, ")");
      if Truthy(p.parentPid) {
        NumberOneLine(p.parentPid.value);
        JoinOneLine(" (Padre: ", Text.IntToString(p.parentPid.value));
        JoinOneLine(" (Padre: " + Text.IntToString(p.parentPid.value), ")");
        JoinOneLine(burst + ")", " (Padre: " + Text.IntToString(p.parentPid.value) + ")");
      } else {
        JoinOneLine(burst + ")", "");
      }
    }
  }

  /** Every node line ends in exactly one line break, the only one it holds. */
  lemma LineHasOneBreak(p: Process, level: nat, showDetails: bool)
    requires OneLine(p.name)
    ensures Text.Newlines(Line(p, level, showDetails)) == 1
  {
    var head := Indent(level) + Symbol(level) + " PID ";
    assert OneLine(head);
    NumberOneLine(p.pid);
    JoinOneLine(head, Text.IntToString(p.pid));
    JoinOneLine(head + Text.IntToString(p.pid), ": ");
    var named := head + Text.IntToString(p.pid) + ": ";
    JoinOneLine(named, p.name);
    JoinOneLine(named + p.name, " [");
    assert OneLine(StateName(p.state)) by {
      match p.state
      case New => case Ready => case Running => case Blocked => case Zombie => case Terminated =>
    }
    JoinOneLine(named + p.name + " [", StateName(p.state));
    JoinOneLine(named + p.name + " [" + StateName(p.state), "]");
    DetailsOneLine(p, showDetails);
    var body := named + p.name + " [" + StateName(p.state) + "]" + Details(p, showDetails);
    JoinOneLine(named + p.name + " [" + StateName(p.state) + "]", Details(p, showDetails));
    Text.NoNewlines(body);
    Text.NewlinesConcat(body, "\n");
    assert Line(p, level, showDetails) == body + "\n";
  }

  /** One line per process: a rendered subtree has exactly as many line breaks as nodes. */
  lemma {:induction false} SubtreeLines(t: Subtree, level: nat, showDetails: bool)
    requires NamesOneLine(t)
    ensures Text.Newlines(FormatSubtree(t, level, showDetails)) == NodeCount(t)
    decreases t, 1
  {
    match t
    case Missing =>
    case Node(p, kids) =>
      LineHasOneBreak(p, level, showDetails);
      ChildrenLines(t, kids, level + 1, showDetails);
      Text.NewlinesConcat(Line(p, level, showDetails), FormatChildren(t, kids, level + 1, showDetails));
  }

  lemma {:induction false} ChildrenLines(parent: Subtree, kids: seq<(int, Subtree)>, level: nat, showDetails: bool)
    requires forall i :: 0 <= i < |kids| ==> kids[i].1 < parent
    requires ForestNamesOneLine(parent, kids)
    ensures Text.Newlines(FormatChildren(parent, kids, level, showDetails)) == ForestCount(parent, kids)
    decreases parent, 0, |kids|
  {
    if kids != [] {
      var init, last := kids[..|kids| - 1], kids[|kids| - 1].1;
      ChildrenLines(parent, init, level, showDetails);
      SubtreeLines(last, level, showDetails);
      Text.NewlinesConcat(FormatChildren(parent, init, level, showDetails), FormatSubtree(last, level, showDetails));
    }
  }

  /**
   * `format_tree_text`: the empty tree gives the fixed message (no line break); any
   * other tree gives three header lines followed by one line per process.
   */
  lemma TreeTextLines(tree: seq<(int, Subtree)>, showDetails: bool)
    requires ForestNamesOneLine(Node(Process(0, ""), tree), tree)
    ensures tree == [] ==> FormatTreeText(tree, showDetails) == EmptyTreeText
                           && Text.Newlines(FormatTreeText(tree, showDetails)) == 0
    ensures tree != [] ==> FormatTreeText(tree, showDetails)[..|Header|] == Header
                           && Text.Newlines(FormatTreeText(tree, showDetails))
                              == 3 + ForestCount(Node(Process(0, ""), tree), tree)
  {
    var root := Node(Process(0, ""), tree);
    if tree == [] {
      Text.NoNewlines(EmptyTreeText);
    } else {
      var title, rule := "\U{1F333} \U{C1}rbol de Procesos\n", Repeat('=', 50) + "\n\n";
      Text.NoNewlines(title[..|title| - 1]);
      Text.NewlinesConcat(title[..|title| - 1], "\n");
      assert title == title[..|title| - 1] + "\n";
      Text.NoNewlines(Repeat('=', 50));
      Text.NewlinesConcat(Repeat('=', 50), "\n\n");
      Text.NewlinesConcat(title, rule);
      assert Header == title + rule;
      ChildrenLines(root, tree, 0, showDetails);
      Text.NewlinesConcat(Header, FormatChildren(root, tree, 0, showDetails));
    }
  }

  // ----- get_process_hierarchy -----

  /** `_build_hierarchy_node`'s dict: pid, name, state and the child nodes in order. */
  datatype HierarchyNode = HierarchyNode(pid: int, name: string, state: State, children: seq<HierarchyNode>)

  /** A root: no parent, or a parent that is not in the table. */
  predicate IsRoot(table: map<int, Process>, k: int)
    requires k in table
  {
    table[k].parentPid.None? || table[k].parentPid.value !in table
  }

  /**
   * A ranking of the processes the hierarchy reaches: every root is ranked, and a ranked
   * process ranks each listed child that is in the table strictly lower. One exists when
   * no chain of children lists leads from a root into a cycle, which is all the recursion
   * needs to end; processes off every such chain need no rank.
   */
  ghost predicate Ranked(table: map<int, Process>, rank: map<int, nat>) {
    && (forall k :: k in table && IsRoot(table, k) ==> k in rank)
    && (forall p, c :: p in rank && p in table && c in table[p].children && c in table ==>
          c in rank && rank[c] < rank[p])
  }

  /** `_build_hierarchy_node` for the process under key `k`. */
  function BuildNode(table: map<int, Process>, ghost rank: map<int, nat>, k: int): (r: HierarchyNode)
    requires Ranked(table, rank) && k in table && k in rank
    ensures r.pid == table[k].pid && r.name == table[k].name && r.state == table[k].state
    decreases rank[k], 1
  {
    var p := table[k];
    HierarchyNode(p.pid, p.name, p.state, BuildChildren(table, rank, k, p.children))
  }

  /** The loop over `process.children`: a node for each listed child present in the table. */
  function BuildChildren(table: map<int, Process>, ghost rank: map<int, nat>, k: int, kids: seq<int>)
    : (r: seq<HierarchyNode>)
    requires Ranked(table, rank) && k in table && k in rank
    requires forall c :: c in kids ==> c in table[k].children
    decreases rank[k], 0, |kids|
  {
    if kids == [] then []
    else
      var c := kids[|kids| - 1];
      var front := BuildChildren(table, rank, k, kids[..|kids| - 1]);
      if c in table then front + [BuildNode(table, rank, c)] else front
  }

  /** The listed children that are in the table, in list order. */
  function Present(table: map<int, Process>, kids: seq<int>): (r: seq<int>)
    ensures |r| <= |kids|
    ensures forall c :: c in r <==> c in kids && c in table
  {
    if kids == [] then []
    else
      var c := kids[|kids| - 1];
      Present(table, kids[..|kids| - 1]) + (if c in table then [c] else [])
  }

  /**
   * The child nodes are, position by position, the nodes of the listed children present in
   * the table: list order is kept and a child missing from the table is skipped.
   */
  lemma {:induction false} ChildrenInOrder(table: map<int, Process>, rank: map<int, nat>, k: int, kids: seq<int>)
    requires Ranked(table, rank) && k in table && k in rank
    requires forall c :: c in kids ==> c in table[k].children
    ensures var r, ps := BuildChildren(table, rank, k, kids), Present(table, kids);
            && |r| == |ps|
            && forall i :: 0 <= i < |r| ==> ps[i] in table && ps[i] in rank && r[i] == BuildNode(table, rank, ps[i])
  {
    if kids != [] {
      var init := kids[..|kids| - 1];
      ChildrenInOrder(table, rank, k, init);
      var c := kids[|kids| - 1];
      assert c in kids;
      var ps0 := Present(table, init);
      forall i | 0 <= i < |ps0|
        ensures ps0[i] in table
      {
        assert ps0[i] in ps0;
      }
    }
  }

  /** A node's children are the nodes of its listed children present in the table, in list order. */
  lemma NodeChildrenInOrder(table: map<int, Process>, rank: map<int, nat>, k: int)
    requires Ranked(table, rank) && k in table && k in rank
    ensures var n, ps := BuildNode(table, rank, k), Present(table, table[k].children);
            && |n.children| == |ps|
            && forall i :: 0 <= i < |ps| ==> ps[i] in table && ps[i] in rank && n.children[i] == BuildNode(table, rank, ps[i])
  {
    ChildrenInOrder(table, rank, k, table[k].children);
  }

  /** The child nodes are exactly the nodes of the listed children present in the table. */
  lemma {:induction false} ChildrenBuilt(table: map<int, Process>, rank: map<int, nat>, k: int, kids: seq<int>)
    requires Ranked(table, rank) && k in table && k in rank
    requires forall c :: c in kids ==> c in table[k].children
    ensures forall c :: c in kids && c in table ==>
      c in rank && rank[c] < rank[k] && BuildNode(table, rank, c) in BuildChildren(table, rank, k, kids)
    ensures forall n :: n in BuildChildren(table, rank, k, kids) ==>
      exists c :: c in kids && c in table && c in rank && rank[c] < rank[k] && n == BuildNode(table, rank, c)
  {
    if kids != [] {
      ChildrenBuilt(table, rank, k, kids[..|kids| - 1]);
    }
  }

  /** The roots, in the table's iteration order `order`. */
  function RootKeys(table: map<int, Process>, order: seq<int>): (r: seq<int>)
    requires forall k :: k in order ==> k in table
    ensures forall k :: k in r <==> k in order && IsRoot(table, k)
  {
    if order == [] then []
    else
      var k := order[|order| - 1];
      RootKeys(table, order[..|order| - 1]) + (if IsRoot(table, k) then [k] else [])
  }

  /** One more key in the iteration order adds it at the end exactly when it is a root. */
  lemma RootKeysStep(table: map<int, Process>, order: seq<int>, k: int)
    requires forall x :: x in order ==> x in table
    requires k in table
    ensures RootKeys(table, order + [k]) == RootKeys(table, order) + (if IsRoot(table, k) then [k] else [])
  {
    assert (order + [k])[..|order|] == order;
  }

  /** One hierarchy node per root, in order. */
  function BuildForest(table: map<int, Process>, ghost rank: map<int, nat>, roots: seq<int>): (r: seq<HierarchyNode>)
    requires Ranked(table, rank)
    requires forall i :: 0 <= i < |roots| ==> roots[i] in table && roots[i] in rank
    ensures |r| == |roots|
    ensures forall i :: 0 <= i < |r| ==> r[i] == BuildNode(table, rank, roots[i])
  {
    if roots == [] then []
    else BuildForest(table, rank, roots[..|roots| - 1]) + [BuildNode(table, rank, roots[|roots| - 1])]
  }

  /**
   * `get_process_hierarchy`: `order` is the table's iteration order (each key once).
   * The result holds, position by position, the node of each root in that order, and so
   * the node of every root and of nothing else.
   */
  function GetProcessHierarchy(table: map<int, Process>, ghost rank: map<int, nat>, order: seq<int>)
    : (r: seq<HierarchyNode>)
    requires Ranked(table, rank)
    requires Distinct(order) && forall k :: k in order <==> k in table
    ensures var roots := RootKeys(table, order);
            && |r| == |roots|
            && forall i :: 0 <= i < |r| ==>
                 roots[i] in table && roots[i] in rank && r[i] == BuildNode(table, rank, roots[i])
    ensures forall k :: k in table && IsRoot(table, k) ==> k in rank && BuildNode(table, rank, k) in r
    ensures forall n :: n in r ==> exists k :: k in table && k in rank && IsRoot(table, k) && n == BuildNode(table, rank, k)
  {
    var roots := RootKeys(table, order);
    forall i | 0 <= i < |roots|
      ensures roots[i] in table && IsRoot(table, roots[i]) && roots[i] in rank
    {
      var k := roots[i];
      assert k in roots;
      assert k in order && IsRoot(table, k);
    }
    var r := BuildForest(table, rank, roots);
    assert forall k :: k in table && IsRoot(table, k) ==> BuildNode(table, rank, k) == r[IndexOf(roots, k)];
    r
  }

  /** The position of a member of `s`. */
  function IndexOf(s: seq<int>, x: int): (i: nat)
    requires x in s
    ensures i < |s| && s[i] == x
  {
    if s[0] == x then 0 else 1 + IndexOf(s[1..], x)
  }

  /**
   * The shape the engines keep their table in: a listed child that is in the table names
   * its lister as parent and has a pid no smaller. It rules out every cycle except a
   * process listing itself, which `IsSelfParent` names.
   */
  predicate ParentLinked(table: map<int, Process>) {
    forall p, c :: p in table && c in table[p].children && c in table ==>
      table[c].parentPid == Some(p) && c >= p
  }

  predicate IsSelfParent(table: map<int, Process>, k: int)
    requires k in table
  {
    table[k].parentPid == Some(k)
  }

  /** The keys above `k`. */
  function Above(table: map<int, Process>, k: int): set<int> {
    set x | x in table.Keys && x > k
  }

  /**
   * An engine-shaped table is ranked: every process that is not its own parent ranks by
   * the number of keys above it, and a root is never its own parent.
   */
  lemma LinkedRanked(table: map<int, Process>) returns (rank: map<int, nat>)
    requires ParentLinked(table)
    ensures Ranked(table, rank)
  {
    rank := map k | k in table && !IsSelfParent(table, k) :: |Above(table, k)|;
    forall p, c | p in rank && p in table && c in table[p].children && c in table
      ensures c in rank && rank[c] < rank[p]
    {
      assert c > p && !IsSelfParent(table, c);
      var lower, upper := Above(table, c), Above(table, p);
      assert lower <= upper;
      assert c in upper - lower;
      assert upper == lower + (upper - lower) && lower * (upper - lower) == {};
      assert rank[c] == |lower| && rank[p] == |upper|;
    }
  }

  /** A table the ranking admits but the engines' shape does not: pid 1 lists pid 2, which names no parent. */
  const UnlinkedTable: map<int, Process> := map[1 := Process(1, "A", children := [2]), 2 := Process(2, "B")]

  /** A ranking of `UnlinkedTable`. */
  const UnlinkedRank: map<int, nat> := map[1 := 1, 2 := 0]

  /** The ranking asks less than the engines' shape. */
  lemma UnlinkedTableRanked()
    ensures !ParentLinked(UnlinkedTable) && Ranked(UnlinkedTable, UnlinkedRank)
  {
    assert 2 in UnlinkedTable[1].children && UnlinkedTable[2].parentPid == None;
    assert UnlinkedTable.Keys == {1, 2} && UnlinkedTable[2].children == [];
  }

  /** On `UnlinkedTable` pid 1's node holds pid 2's node, which has no children. */
  lemma UnlinkedTableNodes()
    ensures Ranked(UnlinkedTable, UnlinkedRank)
    ensures BuildNode(UnlinkedTable, UnlinkedRank, 2) == HierarchyNode(2, "B", New, [])
    ensures BuildNode(UnlinkedTable, UnlinkedRank, 1) == HierarchyNode(1, "A", New, [HierarchyNode(2, "B", New, [])])
  {
    UnlinkedTableRanked();
    var t, rank := UnlinkedTable, UnlinkedRank;
    assert BuildNode(t, rank, 2) == HierarchyNode(2, "B", New, []);
    assert BuildChildren(t, rank, 1, [2]) == [BuildNode(t, rank, 2)] by {
      assert [2][..0] == [];
    }
  }

  /** Both pids of `UnlinkedTable` are roots, found in iteration order. */
  lemma UnlinkedTableRoots()
    ensures (forall k :: k in [1, 2] <==> k in UnlinkedTable) && Distinct([1, 2])
    ensures RootKeys(UnlinkedTable, [1, 2]) == [1, 2]
  {
    var t := UnlinkedTable;
    assert t.Keys == {1, 2};
    assert [1, 2][..1] == [1];
    assert [1][..0] == [];
  }

  /** On `UnlinkedTable` both pids are roots, and pid 2 also appears under pid 1. */
  lemma UnlinkedTableHierarchy()
    ensures Ranked(UnlinkedTable, UnlinkedRank)
    ensures GetProcessHierarchy(UnlinkedTable, UnlinkedRank, [1, 2]) ==
            [HierarchyNode(1, "A", New, [HierarchyNode(2, "B", New, [])]), HierarchyNode(2, "B", New, [])]
  {
    UnlinkedTableNodes();
    UnlinkedTableRoots();
    var t, rank := UnlinkedTable, UnlinkedRank;
    var h := GetProcessHierarchy(t, rank, [1, 2]);
    assert |h| == 2 && h[0] == BuildNode(t, rank, 1) && h[1] == BuildNode(t, rank, 2);
  }

  /** `pid` occurs somewhere in the node's subtree. */
  predicate InNode(pid: int, n: HierarchyNode)
    decreases n, 1
  {
    n.pid == pid || InForest(pid, n.children)
  }

  /** `pid` occurs somewhere in the forest. */
  predicate InForest(pid: int, nodes: seq<HierarchyNode>)
    decreases nodes, 0
  {
    exists i :: 0 <= i < |nodes| && InNode(pid, nodes[i])
  }

  /** Every record is filed under its own pid. */
  predicate PidsMatchKeys(table: map<int, Process>) {
    forall k :: k in table ==> table[k].pid == k
  }

  /** Every process whose parent is in the table is listed among that parent's children. */
  predicate ChildrenListed(table: map<int, Process>) {
    forall c :: c in table && table[c].parentPid.Some? && table[c].parentPid.value in table ==>
      c in table[table[c].parentPid.value].children
  }

  /** Once `x` occurs under `k`, so does each child `x` lists that is in the table. */
  lemma {:induction false} ChildOccurs(table: map<int, Process>, rank: map<int, nat>, k: int, x: int, c: int)
    requires Ranked(table, rank) && PidsMatchKeys(table) && k in table && k in rank
    requires x in table && InNode(x, BuildNode(table, rank, k))
    requires c in table[x].children && c in table
    ensures InNode(c, BuildNode(table, rank, k))
    decreases rank[k]
  {
    var n := BuildNode(table, rank, k);
    ChildrenBuilt(table, rank, k, table[k].children);
    if k == x {
      var m := BuildNode(table, rank, c);
      assert InNode(c, m);
      var i :| 0 <= i < |n.children| && n.children[i] == m;
    } else {
      var i :| 0 <= i < |n.children| && InNode(x, n.children[i]);
      assert n.children[i] in n.children;
      var c' :| c' in table[k].children && c' in table && c' in rank && rank[c'] < rank[k]
                && n.children[i] == BuildNode(table, rank, c');
      ChildOccurs(table, rank, c', x, c);
      assert InNode(c, n.children[i]);
    }
  }

  /** The keys below `k`: the measure of the walk from a process up to its root. */
  function Below(table: map<int, Process>, k: int): set<int> {
    set x | x in table.Keys && x < k
  }

  /** A non-root's parent is a key below it, so the walk up to a root ends. */
  lemma ParentBelow(table: map<int, Process>, k: int) returns (p: int)
    requires ParentLinked(table) && ChildrenListed(table)
    requires k in table && !IsRoot(table, k) && !IsSelfParent(table, k)
    ensures p == table[k].parentPid.value && p in table && k in table[p].children
    ensures Below(table, p) < Below(table, k)
  {
    p := table[k].parentPid.value;
    assert p in Below(table, k) && p !in Below(table, p);
  }

  /** A process occurring in a hierarchy carries its children into it. */
  lemma ForestChildOccurs(table: map<int, Process>, rank: map<int, nat>, order: seq<int>, x: int, c: int)
    requires Ranked(table, rank) && PidsMatchKeys(table)
    requires Distinct(order) && forall y :: y in order <==> y in table
    requires x in table && InForest(x, GetProcessHierarchy(table, rank, order))
    requires c in table[x].children && c in table
    ensures InForest(c, GetProcessHierarchy(table, rank, order))
  {
    var h := GetProcessHierarchy(table, rank, order);
    var i :| 0 <= i < |h| && InNode(x, h[i]);
    assert h[i] in h;
    var r :| r in table && r in rank && IsRoot(table, r) && h[i] == BuildNode(table, rank, r);
    ChildOccurs(table, rank, r, x, c);
  }

  /**
   * Completeness: when every child is listed under its parent, the table has the engines'
   * shape and no process is its own parent, every process occurs in `get_process_hierarchy`.
   */
  lemma {:induction false} HierarchyComplete(table: map<int, Process>, rank: map<int, nat>, order: seq<int>, k: int)
    requires Ranked(table, rank) && ParentLinked(table) && PidsMatchKeys(table) && ChildrenListed(table)
    requires forall x :: x in table ==> !IsSelfParent(table, x)
    requires Distinct(order) && forall x :: x in order <==> x in table
    requires k in table
    ensures InForest(k, GetProcessHierarchy(table, rank, order))
    decreases Below(table, k)
  {
    var h := GetProcessHierarchy(table, rank, order);
    if IsRoot(table, k) {
      var n := BuildNode(table, rank, k);
      assert InNode(k, n);
      var i :| 0 <= i < |h| && h[i] == n;
    } else {
      var p := ParentBelow(table, k);
      HierarchyComplete(table, rank, order, p);
      ForestChildOccurs(table, rank, order, p, k);
    }
  }

  /** Soundness: every pid occurring in a node built from the table is a key of the table. */
  lemma {:induction false} NodeSound(table: map<int, Process>, rank: map<int, nat>, k: int, x: int)
    requires Ranked(table, rank) && PidsMatchKeys(table) && k in table && k in rank
    requires InNode(x, BuildNode(table, rank, k))
    ensures x in table
    decreases rank[k]
  {
    var n := BuildNode(table, rank, k);
    if n.pid != x {
      ChildrenBuilt(table, rank, k, table[k].children);
      var i :| 0 <= i < |n.children| && InNode(x, n.children[i]);
      assert n.children[i] in n.children;
      var c :| c in table[k].children && c in table && c in rank && rank[c] < rank[k]
               && n.children[i] == BuildNode(table, rank, c);
      NodeSound(table, rank, c, x);
    }
  }
}
