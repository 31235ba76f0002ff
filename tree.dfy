/** The ranking tree builder: allocates the fixed quality-attribute tree whose leaves
    are the normalised metrics and whose root is the rank. */
module RankingTree {
  import opened TreeShape

  /** A node of the quality-attribute tree. */
  class TreeNode {
    const name: string
    var children: seq<TreeNode>

    constructor(name: string)
      ensures this.name == name
      ensures children == []
    {
      this.name := name;
      children := [];
    }

    /** TreeNode.addChild: appends one child. */
    method AddChild(child: TreeNode)
      modifies this
      ensures children == old(children) + [child]
    {
      children := children + [child];
    }
  }

  /** addChildren: appends each given child to the parent once, in list order. */
  method AddChildren(parent: TreeNode, children: seq<TreeNode>)
    modifies parent
    ensures parent.children == old(parent.children) + children
  {
    for i := 0 to |children|
      invariant parent.children == old(parent.children) + children[..i]
    {
      parent.AddChild(children[i]);
      assert children[..i + 1] == children[..i] + [children[i]];
    }
  }

  /** The nodes reachable from n, all inside repr, have the names and the child
      lists of s. */
  ghost predicate Realizes(n: TreeNode, s: Shape, repr: set<TreeNode>)
    reads repr
    decreases s
  {
    n in repr && n.name == s.name && |n.children| == |s.kids|
    && forall i :: 0 <= i < |s.kids| ==> Realizes(n.children[i], s.kids[i], repr)
  }

  /** The nodes of a realized tree in preorder: n, then the nodes below each child. */
  ghost function NodesOf(n: TreeNode, s: Shape, repr: set<TreeNode>): seq<TreeNode>
    requires Realizes(n, s, repr)
    reads repr
    decreases s, 0
  {
    [n] + NodesFrom(n.children, s.kids, 0, repr)
  }

  ghost function NodesFrom(ns: seq<TreeNode>, ss: seq<Shape>, i: nat, repr: set<TreeNode>): seq<TreeNode>
    requires |ns| == |ss|
    requires forall j :: 0 <= j < |ss| ==> Realizes(ns[j], ss[j], repr)
    reads repr
    decreases ss, |ss| - i
  {
    if i >= |ss| then [] else NodesOf(ns[i], ss[i], repr) + NodesFrom(ns, ss, i + 1, repr)
  }

  /** The preorder walk of a realized tree meets, position by position, nodes of repr
      carrying the preorder names of the shape. */
  lemma {:induction false} NodesOfNames(n: TreeNode, s: Shape, repr: set<TreeNode>)
    requires Realizes(n, s, repr)
    ensures |NodesOf(n, s, repr)| == |Names(s)|
    ensures forall k :: 0 <= k < |Names(s)| ==> NodesOf(n, s, repr)[k] in repr && NodesOf(n, s, repr)[k].name == Names(s)[k]
    decreases s, 0
  {
    NodesFromNames(n.children, s.kids, 0, repr);
  }

  lemma {:induction false} NodesFromNames(ns: seq<TreeNode>, ss: seq<Shape>, i: nat, repr: set<TreeNode>)
    requires |ns| == |ss|
    requires forall j :: 0 <= j < |ss| ==> Realizes(ns[j], ss[j], repr)
    ensures |NodesFrom(ns, ss, i, repr)| == |NamesFrom(ss, i)|
    ensures forall k :: 0 <= k < |NamesFrom(ss, i)| ==>
      NodesFrom(ns, ss, i, repr)[k] in repr && NodesFrom(ns, ss, i, repr)[k].name == NamesFrom(ss, i)[k]
    decreases ss, |ss| - i
  {
    if i < |ss| {
      NodesOfNames(ns[i], ss[i], repr);
      NodesFromNames(ns, ss, i + 1, repr);
      var a, b := NodesOf(ns[i], ss[i], repr), NodesFrom(ns, ss, i + 1, repr);
      var x, y := Names(ss[i]), NamesFrom(ss, i + 1);
      assert forall k :: 0 <= k < |a| + |b| ==> (a + b)[k] == if k < |a| then a[k] else b[k - |a|];
      assert forall k :: 0 <= k < |x| + |y| ==> (x + y)[k] == if k < |x| then x[k] else y[k - |x|];
    }
  }

  /** When the names of a shape are pairwise different, a tree realizing it shares no
      node: no node turns up twice in its preorder walk, so each node below the root
      hangs under exactly one parent. */
  lemma NoSharedNodes(n: TreeNode, s: Shape, repr: set<TreeNode>)
    requires Realizes(n, s, repr) && Distinct(Names(s))
    ensures forall i, j :: 0 <= i < j < |NodesOf(n, s, repr)| ==> NodesOf(n, s, repr)[i] != NodesOf(n, s, repr)[j]
  {
    NodesOfNames(n, s, repr);
  }

  /** The ranking tree holds 19 different nodes of repr. */
  lemma RankingTreeNodes(root: TreeNode, repr: set<TreeNode>)
    requires Realizes(root, RankingShape, repr)
    ensures |NodesOf(root, RankingShape, repr)| == 19
    ensures forall k :: 0 <= k < 19 ==> NodesOf(root, RankingShape, repr)[k] in repr
    ensures forall i, j :: 0 <= i < j < 19 ==> NodesOf(root, RankingShape, repr)[i] != NodesOf(root, RankingShape, repr)[j]
  {
    RankingShapeNamesDistinct();
    NodesOfNames(root, RankingShape, repr);
    NoSharedNodes(root, RankingShape, repr);
  }

  /** n, in repr, is named name and its children are leaves of repr named leafNames. */
  ghost predicate LeafParent(n: TreeNode, name: string, leafNames: seq<string>, repr: set<TreeNode>)
    reads repr
  {
    n in repr && n.name == name && |n.children| == |leafNames|
    && forall i :: 0 <= i < |leafNames| ==>
         n.children[i] in repr && n.children[i].name == leafNames[i] && n.children[i].children == []
  }

  /** A node whose children are leaves realizes the shape of a parent of those leaves. */
  lemma LeafParentRealizes(n: TreeNode, name: string, leafNames: seq<string>, s: Shape, repr: set<TreeNode>)
    requires LeafParent(n, name, leafNames, repr)
    requires s.name == name && |s.kids| == |leafNames|
    requires forall i :: 0 <= i < |leafNames| ==> s.kids[i] == Leaf(leafNames[i])
    ensures Realizes(n, s, repr)
  {
    forall i | 0 <= i < |s.kids| ensures Realizes(n.children[i], s.kids[i], repr) {
    }
  }

  /** The links buildTree makes, node by node, add up to the ranking tree. */
  lemma RankingTreeRealized(root: TreeNode, repr: set<TreeNode>)
    requires root in repr && root.name == "Rank" && |root.children| == 2
    requires var quality := root.children[0];
      && quality in repr && quality.name == "QUALITY" && |quality.children| == 5
      && LeafParent(quality.children[0], "COMPREHENSION", ["COMMENT_RATE"], repr)
      && LeafParent(quality.children[1], "SIMPLICITY", ["METHOD_SIZE"], repr)
      && LeafParent(quality.children[2], "MAINTAINABILITY", ["DUPLICATION", "TECHNICAL_DEBT_RATIO"], repr)
      && LeafParent(quality.children[3], "RELIABILITY", ["BUG_SEVERITY", "RELIABILITY_REMEDIATION_EFFORT"], repr)
      && LeafParent(quality.children[4], "COMPLEXITY", ["CYCLOMATIC_COMPLEXITY", "COGNITIVE_COMPLEXITY"], repr)
    requires LeafParent(root.children[1], "SECURITY",
                        ["VULNERABILITY_SEVERITY", "HOTSPOT_PRIORITY", "SECURITY_REMEDIATION_EFFORT"], repr)
    ensures Realizes(root, RankingShape, repr)
  {
    var quality := root.children[0];
    LeafParentRealizes(quality.children[0], "COMPREHENSION", ["COMMENT_RATE"], Comprehension, repr);
    LeafParentRealizes(quality.children[1], "SIMPLICITY", ["METHOD_SIZE"], Simplicity, repr);
    LeafParentRealizes(quality.children[2], "MAINTAINABILITY", ["DUPLICATION", "TECHNICAL_DEBT_RATIO"],
                       Maintainability, repr);
    LeafParentRealizes(quality.children[3], "RELIABILITY", ["BUG_SEVERITY", "RELIABILITY_REMEDIATION_EFFORT"],
                       Reliability, repr);
    LeafParentRealizes(quality.children[4], "COMPLEXITY", ["CYCLOMATIC_COMPLEXITY", "COGNITIVE_COMPLEXITY"],
                       Complexity, repr);
    LeafParentRealizes(root.children[1], "SECURITY",
                       ["VULNERABILITY_SEVERITY", "HOTSPOT_PRIORITY", "SECURITY_REMEDIATION_EFFORT"], Security, repr);
    assert Realizes(quality, Quality, repr);
  }

  // Each builder below allocates the nodes of one subtree and links them with the
  // addChildren call buildTree makes for that subtree.

  method BuildComprehension() returns (node: TreeNode, ghost repr: set<TreeNode>)
    ensures fresh(repr)
    ensures LeafParent(node, "COMPREHENSION", ["COMMENT_RATE"], repr)
  {
    var commentRate := new TreeNode("COMMENT_RATE");
    node := new TreeNode("COMPREHENSION");
    AddChildren(node, [commentRate]);
    repr := {node, commentRate};
  }

  method BuildSimplicity() returns (node: TreeNode, ghost repr: set<TreeNode>)
    ensures fresh(repr)
    ensures LeafParent(node, "SIMPLICITY", ["METHOD_SIZE"], repr)
  {
    var methodSize := new TreeNode("METHOD_SIZE");
    node := new TreeNode("SIMPLICITY");
    AddChildren(node, [methodSize]);
    repr := {node, methodSize};
  }

  method BuildMaintainability() returns (node: TreeNode, ghost repr: set<TreeNode>)
    ensures fresh(repr)
    ensures LeafParent(node, "MAINTAINABILITY", ["DUPLICATION", "TECHNICAL_DEBT_RATIO"], repr)
  {
    var duplication := new TreeNode("DUPLICATION");
    var technicalDebtRatio := new TreeNode("TECHNICAL_DEBT_RATIO");
    node := new TreeNode("MAINTAINABILITY");
    AddChildren(node, [duplication, technicalDebtRatio]);
    repr := {node, duplication, technicalDebtRatio};
  }

  method BuildReliability() returns (node: TreeNode, ghost repr: set<TreeNode>)
    ensures fresh(repr)
    ensures LeafParent(node, "RELIABILITY", ["BUG_SEVERITY", "RELIABILITY_REMEDIATION_EFFORT"], repr)
  {
    var bugSeverity := new TreeNode("BUG_SEVERITY");
    var reliabilityRemediationEffort := new TreeNode("RELIABILITY_REMEDIATION_EFFORT");
    node := new TreeNode("RELIABILITY");
    AddChildren(node, [bugSeverity, reliabilityRemediationEffort]);
    repr := {node, bugSeverity, reliabilityRemediationEffort};
  }

  method BuildComplexity() returns (node: TreeNode, ghost repr: set<TreeNode>)
    ensures fresh(repr)
    ensures LeafParent(node, "COMPLEXITY", ["CYCLOMATIC_COMPLEXITY", "COGNITIVE_COMPLEXITY"], repr)
  {
    var cyclomaticComplexity := new TreeNode("CYCLOMATIC_COMPLEXITY");
    var cognitiveComplexity := new TreeNode("COGNITIVE_COMPLEXITY");
    node := new TreeNode("COMPLEXITY");
    AddChildren(node, [cyclomaticComplexity, cognitiveComplexity]);
    repr := {node, cyclomaticComplexity, cognitiveComplexity};
  }

  method BuildSecurity() returns (node: TreeNode, ghost repr: set<TreeNode>)
    ensures fresh(repr)
    ensures LeafParent(node, "SECURITY", ["VULNERABILITY_SEVERITY", "HOTSPOT_PRIORITY", "SECURITY_REMEDIATION_EFFORT"], repr)
  {
    var vulnerabilitySeverity := new TreeNode("VULNERABILITY_SEVERITY");
    var hotSpotPriority := new TreeNode("HOTSPOT_PRIORITY");
    var securityRemediationEffort := new TreeNode("SECURITY_REMEDIATION_EFFORT");
    node := new TreeNode("SECURITY");
    AddChildren(node, [vulnerabilitySeverity, hotSpotPriority, securityRemediationEffort]);
    repr := {node, vulnerabilitySeverity, hotSpotPriority, securityRemediationEffort};
  }

  /** The five subtrees below QUALITY, in the order buildTree links them. */
  method BuildQualityAttributes() returns (kids: seq<TreeNode>, ghost repr: set<TreeNode>)
    ensures fresh(repr)
    ensures |kids| == 5
    ensures LeafParent(kids[0], "COMPREHENSION", ["COMMENT_RATE"], repr)
    ensures LeafParent(kids[1], "SIMPLICITY", ["METHOD_SIZE"], repr)
    ensures LeafParent(kids[2], "MAINTAINABILITY", ["DUPLICATION", "TECHNICAL_DEBT_RATIO"], repr)
    ensures LeafParent(kids[3], "RELIABILITY", ["BUG_SEVERITY", "RELIABILITY_REMEDIATION_EFFORT"], repr)
    ensures LeafParent(kids[4], "COMPLEXITY", ["CYCLOMATIC_COMPLEXITY", "COGNITIVE_COMPLEXITY"], repr)
  {
    var comprehension, r1 := BuildComprehension();
    var simplicity, r2 := BuildSimplicity();
    var maintainability, r3 := BuildMaintainability();
    var reliability, r4 := BuildReliability();
    var complexity, r5 := BuildComplexity();
    kids := [comprehension, simplicity, maintainability, reliability, complexity];
    repr := r1 + r2 + r3 + r4 + r5;
  }

  method BuildQuality() returns (node: TreeNode, ghost repr: set<TreeNode>)
    ensures fresh(repr)
    ensures node in repr && node.name == "QUALITY" && |node.children| == 5
    ensures LeafParent(node.children[0], "COMPREHENSION", ["COMMENT_RATE"], repr)
    ensures LeafParent(node.children[1], "SIMPLICITY", ["METHOD_SIZE"], repr)
    ensures LeafParent(node.children[2], "MAINTAINABILITY", ["DUPLICATION", "TECHNICAL_DEBT_RATIO"], repr)
    ensures LeafParent(node.children[3], "RELIABILITY", ["BUG_SEVERITY", "RELIABILITY_REMEDIATION_EFFORT"], repr)
    ensures LeafParent(node.children[4], "COMPLEXITY", ["CYCLOMATIC_COMPLEXITY", "COGNITIVE_COMPLEXITY"], repr)
  {
    node := new TreeNode("QUALITY");
    var kids, r := BuildQualityAttributes();
    AddChildren(node, kids);
    repr := {node} + r;
  }

  /** buildTree: allocates the 19 nodes and links them into the ranking tree. All of
      them are new, so trees from different calls share no node. */
  method BuildTree() returns (root: TreeNode, ghost repr: set<TreeNode>)
    ensures fresh(repr)
    ensures Realizes(root, RankingShape, repr)
  {
    var quality, r1 := BuildQuality();
    var security, r2 := BuildSecurity();
    root := new TreeNode("Rank");
    AddChildren(root, [quality, security]);
    repr := {root} + r1 + r2;
    RankingTreeRealized(root, repr);
  }
}
