/** Field mappings written as runs of entries: runs of dot-free names and
    runs of one parent's dotted names. Grouping such a mapping can be read
    off its runs. */
module FieldBlocks {
  import opened Wrappers
  import opened ParseMemoryService

  /** The dotted names `parent.child`, one per child, in order. */
  function Dotted(parent: string, children: seq<string>): (names: seq<string>)
    ensures |names| == |children|
    ensures forall i :: 0 <= i < |children| ==> names[i] == parent + "." + children[i]
  {
    seq(|children|, i requires 0 <= i < |children| => parent + "." + children[i])
  }

  /** The mapping with the given names and descriptions, pair by pair. */
  function Zip(names: seq<string>, descriptions: seq<string>): (mapping: FieldMapping)
    requires |names| == |descriptions|
    ensures FieldNames(mapping) == names
    ensures forall i :: 0 <= i < |mapping| ==> mapping[i].1 == descriptions[i]
  {
    seq(|names|, i requires 0 <= i < |names| => (names[i], descriptions[i]))
  }

  /** Splitting a group's name at its first dot gives back the parent and
      that child, so the grouping loop recovers the group. */
  lemma DottedSplits(parent: string, children: seq<string>)
    requires '.' !in parent
    ensures forall i :: 0 <= i < |children| ==> SplitFirstDot(Dotted(parent, children)[i]) == Some((parent, children[i]))
  {
    forall i | 0 <= i < |children|
      ensures SplitFirstDot(Dotted(parent, children)[i]) == Some((parent, children[i]))
    {
      SplitsAt(Dotted(parent, children)[i], parent, children[i]);
    }
  }

  /** The descriptions of a mapping, in order. */
  function Descriptions(mapping: FieldMapping): (descriptions: seq<string>)
    ensures |descriptions| == |mapping|
  {
    seq(|mapping|, i requires 0 <= i < |mapping| => mapping[i].1)
  }

  /** Pairing is undone by the two projections, and pairing a mapping's own
      names and descriptions gives the mapping back. */
  lemma ZipInverse(names: seq<string>, descriptions: seq<string>, mapping: FieldMapping)
    requires |names| == |descriptions|
    ensures FieldNames(Zip(names, descriptions)) == names
    ensures Descriptions(Zip(names, descriptions)) == descriptions
    ensures Zip(FieldNames(mapping), Descriptions(mapping)) == mapping
  {
    var z := Zip(FieldNames(mapping), Descriptions(mapping));
    assert forall i :: 0 <= i < |mapping| ==> z[i] == (z[i].0, z[i].1);
  }

  /** No name of the list holds a dot. */
  predicate DotFree(names: seq<string>) {
    forall i :: 0 <= i < |names| ==> '.' !in names[i]
  }

  /** A block of dot-free names groups into scalars only. */
  lemma DotFreeGrouping(names: seq<string>)
    requires DotFree(names)
    ensures ScalarNames(names) == set name | name in names
    ensures Parents(names) == {}
    ensures forall parent :: ChildrenOf(names, parent) == []
  {
    forall key ensures key in ScalarNames(names) <==> key in names {
      ScalarNamesIff(names, key);
    }
    forall parent ensures ChildrenOf(names, parent) == [] && parent !in Parents(names) {
      ParentsIff(names, parent);
      ChildrenEmptyIff(names, parent);
      forall i | 0 <= i < |names| ensures !NamesParent(names[i], parent) {
        SplitFirstDotSpec(names[i]);
      }
    }
  }

  /** A block `parent.child`, one per child, groups into that one parent
      with exactly those children, in order, and no scalars. */
  lemma {:induction false} DottedGrouping(parent: string, children: seq<string>)
    requires '.' !in parent
    ensures ScalarNames(Dotted(parent, children)) == {}
    ensures Parents(Dotted(parent, children)) == if children == [] then {} else {parent}
    ensures ChildrenOf(Dotted(parent, children), parent) == children
    ensures forall other :: other != parent ==> ChildrenOf(Dotted(parent, children), other) == []
    decreases |children|
  {
    if children != [] {
      var init := children[..|children| - 1];
      var last := children[|children| - 1];
      var names := Dotted(parent, children);
      assert names[..|names| - 1] == Dotted(parent, init);
      DottedGrouping(parent, init);
      SplitsAt(names[|names| - 1], parent, last);
      assert '.' in names[|names| - 1] by {
        assert names[|names| - 1][|parent|] == '.';
      }
      assert children == init + [last];
    }
  }

  /** A run of consecutive entries of a mapping: dot-free names, or one
      parent's dotted names. */
  datatype Block = Scalars(names: seq<string>) | Group(parent: string, children: seq<string>)

  /** The names a block contributes, in order. */
  function BlockNames(block: Block): seq<string> {
    match block
    case Scalars(names) => names
    case Group(parent, children) => Dotted(parent, children)
  }

  /** Consecutive blocks, first to last. */
  datatype BlockList = Nil | Cons(head: Block, tail: BlockList)

  /** The names of consecutive blocks. */
  function Flatten(blocks: BlockList): seq<string> {
    match blocks
    case Nil => []
    case Cons(block, rest) => BlockNames(block) + Flatten(rest)
  }

  /** Scalar blocks hold no dot and group parents hold none either. */
  predicate WellFormedBlock(block: Block) {
    match block
    case Scalars(names) => DotFree(names)
    case Group(parent, _) => '.' !in parent
  }

  predicate AllWellFormed(blocks: BlockList) {
    match blocks
    case Nil => true
    case Cons(block, rest) => WellFormedBlock(block) && AllWellFormed(rest)
  }

  /** The names of the scalar blocks. */
  function ScalarSet(blocks: BlockList): set<string> {
    match blocks
    case Nil => {}
    case Cons(block, rest) =>
      if block.Scalars? then (set name | name in block.names) + ScalarSet(rest) else ScalarSet(rest)
  }

  /** The parents of the non-empty groups. */
  function GroupParents(blocks: BlockList): set<string> {
    match blocks
    case Nil => {}
    case Cons(block, rest) =>
      if block.Group? && block.children != [] then {block.parent} + GroupParents(rest) else GroupParents(rest)
  }

  /** The children of every group of `parent`, in order. */
  function GroupChildren(blocks: BlockList, parent: string): seq<string> {
    match blocks
    case Nil => []
    case Cons(Scalars(_), rest) => GroupChildren(rest, parent)
    case Cons(Group(p, children), rest) =>
      if p == parent then children + GroupChildren(rest, parent) else GroupChildren(rest, parent)
  }

  /** The names of the `k`-th block when it is a scalar block. */
  function ScalarBlockAt(blocks: BlockList, k: nat): seq<string> {
    match blocks
    case Nil => []
    case Cons(block, rest) =>
      if k == 0 then (if block.Scalars? then block.names else []) else ScalarBlockAt(rest, k - 1)
  }

  /** A block of dot-free names in front adds its names as scalars and
      nothing else. */
  lemma ScalarsThenGrouping(names: seq<string>, rest: seq<string>)
    requires DotFree(names)
    ensures ScalarNames(names + rest) == (set name | name in names) + ScalarNames(rest)
    ensures Parents(names + rest) == Parents(rest)
    ensures forall parent :: ChildrenOf(names + rest, parent) == ChildrenOf(rest, parent)
  {
    GroupingAppend(names, rest);
    DotFreeGrouping(names);
  }

  /** A group in front adds its parent and puts its children before those
      that follow. */
  lemma GroupThenGrouping(parent: string, children: seq<string>, rest: seq<string>)
    requires '.' !in parent
    ensures ScalarNames(Dotted(parent, children) + rest) == ScalarNames(rest)
    ensures Parents(Dotted(parent, children) + rest) ==
              if children != [] then {parent} + Parents(rest) else Parents(rest)
    ensures forall p :: ChildrenOf(Dotted(parent, children) + rest, p) ==
              if p == parent then children + ChildrenOf(rest, p) else ChildrenOf(rest, p)
  {
    GroupingAppend(Dotted(parent, children), rest);
    DottedGrouping(parent, children);
  }

  /** Grouping a mapping made of well-formed blocks finds exactly the names
      of its scalar blocks as scalars and the parents of its groups, each
      with the children of its groups in order. */
  lemma {:induction false} BlocksGrouping(blocks: BlockList)
    requires AllWellFormed(blocks)
    ensures ScalarNames(Flatten(blocks)) == ScalarSet(blocks)
    ensures Parents(Flatten(blocks)) == GroupParents(blocks)
    ensures forall parent :: ChildrenOf(Flatten(blocks), parent) == GroupChildren(blocks, parent)
  {
    match blocks {
      case Nil =>
      case Cons(block, rest) =>
        BlocksGrouping(rest);
        match block {
          case Scalars(names) =>
            ScalarsThenGrouping(names, Flatten(rest));
          case Group(parent, children) =>
            GroupThenGrouping(parent, children, Flatten(rest));
        }
    }
  }

  /** Two adjacent dot-free slices make a dot-free slice; slices that
      cover the list make it dot-free. */
  lemma DotFreeJoin(names: seq<string>, i: nat, j: nat, k: nat)
    requires i <= j <= k <= |names| && DotFree(names[i..j]) && DotFree(names[j..k])
    ensures DotFree(names[i..k])
    ensures i == 0 && k == |names| ==> DotFree(names)
  {
    forall n | 0 <= n < k - i ensures '.' !in names[i..k][n] {
      if n < j - i {
        assert names[i..k][n] == names[i..j][n];
      } else {
        assert names[i..k][n] == names[j..k][n - (j - i)];
      }
    }
    if i == 0 && k == |names| {
      assert names[i..k] == names;
    }
  }
}
