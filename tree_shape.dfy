/** The quality-attribute tree that buildTree allocates, as a value: its topology, its
    node names and its leaves. */
module TreeShape {

  /** A tree of names. */
  datatype Shape = Shape(name: string, kids: seq<Shape>)

  function Leaf(name: string): Shape
  {
    Shape(name, [])
  }

  /** The subtrees of the ranking tree. */
  const Comprehension: Shape := Shape("COMPREHENSION", [Leaf("COMMENT_RATE")])
  const Simplicity: Shape := Shape("SIMPLICITY", [Leaf("METHOD_SIZE")])
  const Maintainability: Shape := Shape("MAINTAINABILITY", [Leaf("DUPLICATION"), Leaf("TECHNICAL_DEBT_RATIO")])
  const Reliability: Shape := Shape("RELIABILITY", [Leaf("BUG_SEVERITY"), Leaf("RELIABILITY_REMEDIATION_EFFORT")])
  const Complexity: Shape := Shape("COMPLEXITY", [Leaf("CYCLOMATIC_COMPLEXITY"), Leaf("COGNITIVE_COMPLEXITY")])
  const Quality: Shape := Shape("QUALITY", [Comprehension, Simplicity, Maintainability, Reliability, Complexity])
  const Security: Shape :=
    Shape("SECURITY", [Leaf("VULNERABILITY_SEVERITY"), Leaf("HOTSPOT_PRIORITY"), Leaf("SECURITY_REMEDIATION_EFFORT")])

  /** The tree buildTree allocates. */
  const RankingShape: Shape := Shape("Rank", [Quality, Security])

  /** The names of a tree in preorder. */
  function Names(s: Shape): seq<string>
    decreases s, 0
  {
    [s.name] + NamesFrom(s.kids, 0)
  }

  /** The names of the trees ss[i..], in order. */
  function NamesFrom(ss: seq<Shape>, i: nat): seq<string>
    decreases ss, |ss| - i
  {
    if i >= |ss| then [] else Names(ss[i]) + NamesFrom(ss, i + 1)
  }

  /** The names of the leaves of a tree, left to right. */
  function LeafNames(s: Shape): seq<string>
    decreases s, 0
  {
    if s.kids == [] then [s.name] else LeafNamesFrom(s.kids, 0)
  }

  /** The leaf names of the trees ss[i..], in order. */
  function LeafNamesFrom(ss: seq<Shape>, i: nat): seq<string>
    decreases ss, |ss| - i
  {
    if i >= |ss| then [] else LeafNames(ss[i]) + LeafNamesFrom(ss, i + 1)
  }

  /** No name occurs twice. */
  predicate Distinct(names: seq<string>)
  {
    forall i, j :: 0 <= i < j < |names| ==> names[i] != names[j]
  }

  /** The node names of the ranking tree in preorder. */
  const RankingNames: seq<string> := [
    "Rank", "QUALITY", "COMPREHENSION", "COMMENT_RATE", "SIMPLICITY", "METHOD_SIZE",
    "MAINTAINABILITY", "DUPLICATION", "TECHNICAL_DEBT_RATIO", "RELIABILITY", "BUG_SEVERITY",
    "RELIABILITY_REMEDIATION_EFFORT", "COMPLEXITY", "CYCLOMATIC_COMPLEXITY", "COGNITIVE_COMPLEXITY",
    "SECURITY", "VULNERABILITY_SEVERITY", "HOTSPOT_PRIORITY", "SECURITY_REMEDIATION_EFFORT"]

  /** The leaf names of the ranking tree: the eleven metrics the ranking weighs. */
  const RankingLeafNames: seq<string> := [
    "COMMENT_RATE", "METHOD_SIZE", "DUPLICATION", "TECHNICAL_DEBT_RATIO", "BUG_SEVERITY",
    "RELIABILITY_REMEDIATION_EFFORT", "CYCLOMATIC_COMPLEXITY", "COGNITIVE_COMPLEXITY",
    "VULNERABILITY_SEVERITY", "HOTSPOT_PRIORITY", "SECURITY_REMEDIATION_EFFORT"]

  /** A parent of one leaf. */
  lemma {:induction false} ParentOfOneNames(name: string, a: string)
    ensures Names(Shape(name, [Leaf(a)])) == [name, a]
    ensures LeafNames(Shape(name, [Leaf(a)])) == [a]
  {
    var ks := [Leaf(a)];
    assert NamesFrom([], 0) == [];
    assert Names(Leaf(a)) == [a] && LeafNames(Leaf(a)) == [a];
    assert NamesFrom(ks, 1) == [] && LeafNamesFrom(ks, 1) == [];
    assert NamesFrom(ks, 0) == [a] && LeafNamesFrom(ks, 0) == [a];
  }

  /** A parent of two leaves. */
  lemma {:induction false} ParentOfTwoNames(name: string, a: string, b: string)
    ensures Names(Shape(name, [Leaf(a), Leaf(b)])) == [name, a, b]
    ensures LeafNames(Shape(name, [Leaf(a), Leaf(b)])) == [a, b]
  {
    var ks := [Leaf(a), Leaf(b)];
    assert NamesFrom([], 0) == [];
    assert Names(Leaf(a)) == [a] && LeafNames(Leaf(a)) == [a];
    assert Names(Leaf(b)) == [b] && LeafNames(Leaf(b)) == [b];
    assert NamesFrom(ks, 2) == [] && LeafNamesFrom(ks, 2) == [];
    assert NamesFrom(ks, 1) == [b] && LeafNamesFrom(ks, 1) == [b];
    assert NamesFrom(ks, 0) == [a, b] && LeafNamesFrom(ks, 0) == [a, b];
  }

  /** A parent of three leaves. */
  lemma {:induction false} ParentOfThreeNames(name: string, a: string, b: string, c: string)
    ensures Names(Shape(name, [Leaf(a), Leaf(b), Leaf(c)])) == [name, a, b, c]
    ensures LeafNames(Shape(name, [Leaf(a), Leaf(b), Leaf(c)])) == [a, b, c]
  {
    var ks := [Leaf(a), Leaf(b), Leaf(c)];
    assert NamesFrom([], 0) == [];
    assert Names(Leaf(a)) == [a] && LeafNames(Leaf(a)) == [a];
    assert Names(Leaf(b)) == [b] && LeafNames(Leaf(b)) == [b];
    assert Names(Leaf(c)) == [c] && LeafNames(Leaf(c)) == [c];
    assert NamesFrom(ks, 3) == [] && LeafNamesFrom(ks, 3) == [];
    assert NamesFrom(ks, 2) == [c] && LeafNamesFrom(ks, 2) == [c];
    assert NamesFrom(ks, 1) == [b, c] && LeafNamesFrom(ks, 1) == [b, c];
    assert NamesFrom(ks, 0) == [a, b, c] && LeafNamesFrom(ks, 0) == [a, b, c];
  }

  /** A parent of two subtrees. */
  lemma {:induction false} ParentOfTwoTreesNames(name: string, s1: Shape, s2: Shape)
    ensures Names(Shape(name, [s1, s2])) == [name] + Names(s1) + Names(s2)
    ensures LeafNames(Shape(name, [s1, s2])) == LeafNames(s1) + LeafNames(s2)
  {
    var ks := [s1, s2];
    assert NamesFrom(ks, 2) == [] && LeafNamesFrom(ks, 2) == [];
    assert NamesFrom(ks, 1) == Names(s2) && LeafNamesFrom(ks, 1) == LeafNames(s2);
    assert NamesFrom(ks, 0) == Names(s1) + Names(s2);
    assert LeafNamesFrom(ks, 0) == LeafNames(s1) + LeafNames(s2);
  }

  /** The names of a parent of five subtrees. */
  lemma {:induction false} ParentOfFiveTreesNames(name: string, s1: Shape, s2: Shape, s3: Shape, s4: Shape, s5: Shape)
    ensures Names(Shape(name, [s1, s2, s3, s4, s5]))
         == [name] + Names(s1) + Names(s2) + Names(s3) + Names(s4) + Names(s5)
  {
    var ks := [s1, s2, s3, s4, s5];
    assert NamesFrom(ks, 5) == [];
    assert NamesFrom(ks, 4) == Names(s5);
    assert NamesFrom(ks, 3) == Names(s4) + Names(s5);
    assert NamesFrom(ks, 2) == Names(s3) + Names(s4) + Names(s5);
    assert NamesFrom(ks, 1) == Names(s2) + Names(s3) + Names(s4) + Names(s5);
    assert NamesFrom(ks, 0) == Names(s1) + Names(s2) + Names(s3) + Names(s4) + Names(s5);
  }

  /** The leaf names of a parent of five subtrees. */
  lemma {:induction false} ParentOfFiveTreesLeafNames(name: string, s1: Shape, s2: Shape, s3: Shape, s4: Shape,
                                                      s5: Shape)
    ensures LeafNames(Shape(name, [s1, s2, s3, s4, s5]))
         == LeafNames(s1) + LeafNames(s2) + LeafNames(s3) + LeafNames(s4) + LeafNames(s5)
  {
    var ks := [s1, s2, s3, s4, s5];
    assert LeafNamesFrom(ks, 5) == [];
    assert LeafNamesFrom(ks, 4) == LeafNames(s5);
    assert LeafNamesFrom(ks, 3) == LeafNames(s4) + LeafNames(s5);
    assert LeafNamesFrom(ks, 2) == LeafNames(s3) + LeafNames(s4) + LeafNames(s5);
    assert LeafNamesFrom(ks, 1) == LeafNames(s2) + LeafNames(s3) + LeafNames(s4) + LeafNames(s5);
    assert LeafNamesFrom(ks, 0) == LeafNames(s1) + LeafNames(s2) + LeafNames(s3) + LeafNames(s4) + LeafNames(s5);
  }

  /** The ranking tree lists its 19 node names in preorder and its 11 leaves left to
      right. */
  lemma RankingShapeNames()
    ensures Names(RankingShape) == RankingNames
    ensures LeafNames(RankingShape) == RankingLeafNames
  {
    ParentOfOneNames("COMPREHENSION", "COMMENT_RATE");
    ParentOfOneNames("SIMPLICITY", "METHOD_SIZE");
    ParentOfTwoNames("MAINTAINABILITY", "DUPLICATION", "TECHNICAL_DEBT_RATIO");
    ParentOfTwoNames("RELIABILITY", "BUG_SEVERITY", "RELIABILITY_REMEDIATION_EFFORT");
    ParentOfTwoNames("COMPLEXITY", "CYCLOMATIC_COMPLEXITY", "COGNITIVE_COMPLEXITY");
    ParentOfThreeNames("SECURITY", "VULNERABILITY_SEVERITY", "HOTSPOT_PRIORITY", "SECURITY_REMEDIATION_EFFORT");
    ParentOfFiveTreesNames("QUALITY", Comprehension, Simplicity, Maintainability, Reliability, Complexity);
    ParentOfFiveTreesLeafNames("QUALITY", Comprehension, Simplicity, Maintainability, Reliability, Complexity);
    ParentOfTwoTreesNames("Rank", Quality, Security);
  }

  /** A number that tells the names of the ranking tree apart: their length and
      first letter. */
  function Key(name: string): int
  {
    if name == [] then 0 else |name| * 256 + name[0] as int
  }

  lemma RankingNamesDistinct()
    ensures Distinct(RankingNames)
  {
    var keys := [1106, 1873, 3395, 3139, 2643, 2893, 3917, 2884, 5204, 2898, 3138, 7762, 2627, 5443, 5187, 2131, 5718,
                 4168, 6995];
    assert forall i :: 0 <= i < |RankingNames| ==> Key(RankingNames[i]) == keys[i];
  }

  lemma RankingLeafNamesDistinct()
    ensures Distinct(RankingLeafNames)
  {
    var keys := [3139, 2893, 2884, 5204, 3138, 7762, 5443, 5187, 5718, 4168, 6995];
    assert forall i :: 0 <= i < |RankingLeafNames| ==> Key(RankingLeafNames[i]) == keys[i];
  }

  /** The 19 node names of the ranking tree are pairwise different, and so are its 11
      leaf names. */
  lemma RankingShapeNamesDistinct()
    ensures |Names(RankingShape)| == 19 && Distinct(Names(RankingShape))
    ensures |LeafNames(RankingShape)| == 11 && Distinct(LeafNames(RankingShape))
  {
    RankingShapeNames();
    RankingNamesDistinct();
    RankingLeafNamesDistinct();
  }
}
