/**
 * The RELAX NG schema builder of TXW2 (SchemaBuilderImpl): one callback per
 * grammar construct, each turning already-built children into a pattern leaf.
 * Choice, group and interleave collapse into one left-to-right merge fold;
 * optional and zero-or-more merge with Empty; one-or-more is the identity;
 * notAllowed and error patterns become Empty.
 */
module RelaxNgBuilder {
  import opened Wrappers
  import opened TxwModel

  /** The merge groups of `leaves`, one per leaf, in order. */
  function Groups(leaves: seq<Leaf>): (gs: seq<seq<Leaf>>)
    reads set l | l in leaves
    ensures |gs| == |leaves|
    ensures forall i :: 0 <= i < |leaves| ==> gs[i] == leaves[i].group
  {
    if leaves == [] then [] else [leaves[0].group] + Groups(leaves[1..])
  }

  /**
   * The group of `first` after merging `others` into it one by one, starting
   * from `start`; `groups` are the groups the others had beforehand. Merging
   * `first` into itself appends its group as it stands at that step.
   */
  function Accumulate(first: Leaf, start: seq<Leaf>, others: seq<Leaf>, groups: seq<seq<Leaf>>): seq<Leaf>
    requires |others| == |groups|
    decreases |others|
  {
    if others == [] then start
    else
      var n := |others| - 1;
      var acc := Accumulate(first, start, others[..n], groups[..n]);
      acc + (if others[n] == first then acc else groups[n])
  }

  /** All the groups, one after another. */
  function Flatten(groups: seq<seq<Leaf>>): (flat: seq<Leaf>)
    decreases |groups|
  {
    if groups == [] then [] else Flatten(groups[..|groups| - 1]) + groups[|groups| - 1]
  }

  /** Without self-merges, the fold appends every other group in list order. */
  lemma {:induction false} AccumulateAppends(first: Leaf, start: seq<Leaf>, others: seq<Leaf>, groups: seq<seq<Leaf>>)
    requires |others| == |groups|
    requires first !in others
    ensures Accumulate(first, start, others, groups) == start + Flatten(groups)
    decreases |others|
  {
    if others != [] {
      var n := |others| - 1;
      assert first !in others[..n] by {
        forall k | 0 <= k < n ensures others[..n][k] != first {
          assert others[..n][k] == others[k];
        }
      }
      AccumulateAppends(first, start, others[..n], groups[..n]);
    }
  }

  /** Flattening singleton groups gives back the leaves themselves. */
  lemma {:induction false} FlattenSingletons(leaves: seq<Leaf>, groups: seq<seq<Leaf>>)
    requires |leaves| == |groups|
    requires forall i :: 0 <= i < |leaves| ==> groups[i] == [leaves[i]]
    ensures Flatten(groups) == leaves
    decreases |leaves|
  {
    if leaves != [] {
      var n := |leaves| - 1;
      FlattenSingletons(leaves[..n], groups[..n]);
      assert leaves == leaves[..n] + [leaves[n]];
    }
  }

  /**
   * Folding freshly built leaves (each alone in its group, the first not
   * repeated later) leaves the first one heading all of them, in list order.
   */
  lemma FoldOfSeparateLeaves(leaves: seq<Leaf>, groups: seq<seq<Leaf>>)
    requires |leaves| > 0 && |groups| == |leaves|
    requires forall i :: 0 <= i < |leaves| ==> groups[i] == [leaves[i]]
    requires leaves[0] !in leaves[1..]
    ensures Accumulate(leaves[0], groups[0], leaves[1..], groups[1..]) == leaves
  {
    AccumulateAppends(leaves[0], groups[0], leaves[1..], groups[1..]);
    FlattenSingletons(leaves[1..], groups[1..]);
    assert leaves == [leaves[0]] + leaves[1..];
  }

  /** Attribute or element leaves for `names`, all with the same content and locator, each alone in its group. */
  ghost predicate FannedOut(r: Leaf, names: seq<QName>, element: bool, content: Leaf, locator: Option<Locator>)
    reads r, set l | l in r.group
  {
    && r.Valid()
    && |r.group| == |names|
    && (forall j :: 0 <= j < |names| ==>
          && r.group[j].kind == (if element then ElementLeaf(names[j], content) else AttributeLeaf(names[j], content))
          && r.group[j].locator == locator
          && r.group[j].alternativeName == None)
    && (forall j :: 1 <= j < |names| ==> r.group[j].group == [r.group[j]])
    && (forall j, k :: 0 <= j < k < |names| ==> r.group[j] != r.group[k])
  }

  /**
   * The builder. `stringType` is the code model's handle for the string type;
   * `lookup` is the datatype factory's `getType`, `None` where it returns null.
   */
  class SchemaBuilder {
    const stringType: JavaType
    const lookup: (Option<string>, string) -> Option<JavaType>

    constructor (stringType: JavaType, lookup: (Option<string>, string) -> Option<JavaType>)
      ensures this.stringType == stringType && this.lookup == lookup
    {
      this.stringType := stringType;
      this.lookup := lookup;
    }

    /** `getType`: the factory's answer, or the string type exactly when the factory has none. */
    function GetType(datatypeLibrary: Option<string>, datatypeName: string): (t: JavaType)
      ensures lookup(datatypeLibrary, datatypeName).Some? ==> lookup(datatypeLibrary, datatypeName) == Some(t)
      ensures lookup(datatypeLibrary, datatypeName).None? ==> t == stringType
    {
      match lookup(datatypeLibrary, datatypeName)
      case Some(resolved) => resolved
      case None => stringType
    }

    /** `expandPattern`: the leaf itself. */
    function ExpandPattern(leaf: Leaf): (r: Leaf)
      ensures r == leaf
    {
      leaf
    }

    /** `annotate`: annotations are dropped; the leaf itself. */
    function Annotate(leaf: Leaf): (r: Leaf)
      ensures r == leaf
    {
      leaf
    }

    /** `annotateAfter`: following annotations are dropped; the leaf itself. */
    function AnnotateAfter(leaf: Leaf): (r: Leaf)
      ensures r == leaf
    {
      leaf
    }

    /** `commentAfter`: comments are dropped; the leaf itself. */
    function CommentAfter(leaf: Leaf): (r: Leaf)
      ensures r == leaf
    {
      leaf
    }

    /** `usesComments`: the builder does not use comments. */
    function UsesComments(): (b: bool)
      ensures !b
    {
      false
    }

    /** `makeCommentList`: there is no comment list (null). */
    function MakeCommentList(): (r: Option<seq<string>>)
      ensures r.None?
    {
      None
    }

    /**
     * The private `merge(List)`: merges every later leaf into the first, in
     * list order, ignoring what each merge returns, and returns the first.
     */
    method Merge(leaves: seq<Leaf>) returns (r: Leaf)
      requires |leaves| > 0
      modifies leaves[0]
      ensures r == leaves[0]
      ensures r.group == Accumulate(r, old(r.group), leaves[1..], old(Groups(leaves))[1..])
      ensures r.alternativeName == old(r.alternativeName)
      ensures old(r.Valid()) ==> r.Valid()
    {
      ghost var before := Groups(leaves);
      var first := leaves[0];
      var i := 1;
      while i < |leaves|
        invariant 1 <= i <= |leaves|
        invariant first.group == Accumulate(first, before[0], leaves[1..i], before[1..i])
        invariant first.alternativeName == old(first.alternativeName)
        invariant old(first.Valid()) ==> first.Valid()
      {
        var ignored := first.Merge(leaves[i]);
        assert leaves[1..i + 1][..i - 1] == leaves[1..i];
        assert before[1..i + 1][..i - 1] == before[1..i];
        i := i + 1;
      }
      assert leaves[1..i] == leaves[1..] && before[1..i] == before[1..];
      r := first;
    }

    /** `makeChoice`: the merge fold. */
    method MakeChoice(leaves: seq<Leaf>, locator: Option<Locator>) returns (r: Leaf)
      requires |leaves| > 0
      modifies leaves[0]
      ensures r == leaves[0]
      ensures r.group == Accumulate(r, old(r.group), leaves[1..], old(Groups(leaves))[1..])
      ensures r.alternativeName == old(r.alternativeName)
    {
      r := Merge(leaves);
    }

    /** `makeInterleave`: the same merge fold as choice. */
    method MakeInterleave(leaves: seq<Leaf>, locator: Option<Locator>) returns (r: Leaf)
      requires |leaves| > 0
      modifies leaves[0]
      ensures r == leaves[0]
      ensures r.group == Accumulate(r, old(r.group), leaves[1..], old(Groups(leaves))[1..])
      ensures r.alternativeName == old(r.alternativeName)
    {
      r := Merge(leaves);
    }

    /** `makeGroup`: the same merge fold as choice. */
    method MakeGroup(leaves: seq<Leaf>, locator: Option<Locator>) returns (r: Leaf)
      requires |leaves| > 0
      modifies leaves[0]
      ensures r == leaves[0]
      ensures r.group == Accumulate(r, old(r.group), leaves[1..], old(Groups(leaves))[1..])
      ensures r.alternativeName == old(r.alternativeName)
    {
      r := Merge(leaves);
    }

    /** `makeOneOrMore`: repetition is not modelled; the leaf itself. */
    function MakeOneOrMore(leaf: Leaf, locator: Option<Locator>): (r: Leaf)
      ensures r == leaf
    {
      leaf
    }

    /** `makeZeroOrMore`: the leaf merged with a new Empty leaf at `locator`. */
    method MakeZeroOrMore(leaf: Leaf, locator: Option<Locator>) returns (r: Leaf)
      modifies leaf
      ensures r == leaf
      ensures |leaf.group| == |old(leaf.group)| + 1
      ensures leaf.group[..|old(leaf.group)|] == old(leaf.group)
      ensures var e := leaf.group[|leaf.group| - 1];
        fresh(e) && e.kind == EmptyLeaf && e.locator == locator && e.group == [e] && e.alternativeName == None
      ensures leaf.alternativeName == old(leaf.alternativeName)
      ensures old(leaf.Valid()) ==> leaf.Valid()
    {
      var e := new Leaf(locator, EmptyLeaf);
      r := leaf.Merge(e);
    }

    /** `makeOptional`: the same as zero-or-more. */
    method MakeOptional(leaf: Leaf, locator: Option<Locator>) returns (r: Leaf)
      modifies leaf
      ensures r == leaf
      ensures |leaf.group| == |old(leaf.group)| + 1
      ensures leaf.group[..|old(leaf.group)|] == old(leaf.group)
      ensures var e := leaf.group[|leaf.group| - 1];
        fresh(e) && e.kind == EmptyLeaf && e.locator == locator && e.group == [e] && e.alternativeName == None
      ensures leaf.alternativeName == old(leaf.alternativeName)
      ensures old(leaf.Valid()) ==> leaf.Valid()
    {
      var e := new Leaf(locator, EmptyLeaf);
      r := leaf.Merge(e);
    }

    /** `makeList`: a new List leaf wrapping the leaf. */
    method MakeList(leaf: Leaf, locator: Option<Locator>) returns (r: Leaf)
      ensures fresh(r) && r.kind == ListLeaf(leaf) && r.locator == locator && r.group == [r]
    {
      r := new Leaf(locator, ListLeaf(leaf));
    }

    /** `makeMixed`: the leaf merged with a new Data leaf of the string type. */
    method MakeMixed(leaf: Leaf, locator: Option<Locator>) returns (r: Leaf)
      modifies leaf
      ensures r == leaf
      ensures |leaf.group| == |old(leaf.group)| + 1
      ensures leaf.group[..|old(leaf.group)|] == old(leaf.group)
      ensures var d := leaf.group[|leaf.group| - 1];
        fresh(d) && d.kind == DataLeaf(stringType) && d.locator == locator && d.group == [d] && d.alternativeName == None
      ensures leaf.alternativeName == old(leaf.alternativeName)
      ensures old(leaf.Valid()) ==> leaf.Valid()
    {
      var d := new Leaf(locator, DataLeaf(stringType));
      r := leaf.Merge(d);
    }

    /** `makeEmpty`: a new Empty leaf. */
    method MakeEmpty(locator: Option<Locator>) returns (r: Leaf)
      ensures fresh(r) && r.kind == EmptyLeaf && r.locator == locator && r.group == [r]
    {
      r := new Leaf(locator, EmptyLeaf);
    }

    /** `makeNotAllowed`: approximated by a new Empty leaf. */
    method MakeNotAllowed(locator: Option<Locator>) returns (r: Leaf)
      ensures fresh(r) && r.kind == EmptyLeaf && r.locator == locator && r.group == [r]
    {
      r := new Leaf(locator, EmptyLeaf);
    }

    /** `makeErrorPattern`: a new Empty leaf with no locator. */
    method MakeErrorPattern() returns (r: Leaf)
      ensures fresh(r) && r.kind == EmptyLeaf && r.locator == None && r.group == [r]
    {
      r := new Leaf(None, EmptyLeaf);
    }

    /** `makeText`: a new Data leaf of the string type. */
    method MakeText(locator: Option<Locator>) returns (r: Leaf)
      ensures fresh(r) && r.kind == DataLeaf(stringType) && r.locator == locator && r.group == [r]
    {
      r := new Leaf(locator, DataLeaf(stringType));
    }

    /** `makeValue`: a new Value leaf whose type is the resolved datatype. */
    method MakeValue(datatypeLibrary: Option<string>, datatypeName: string, value: string, locator: Option<Locator>)
      returns (r: Leaf)
      ensures fresh(r) && r.kind == ValueLeaf(GetType(datatypeLibrary, datatypeName), value)
      ensures r.locator == locator && r.group == [r]
    {
      r := new Leaf(locator, ValueLeaf(GetType(datatypeLibrary, datatypeName), value));
    }

    /**
     * `makeAttribute`: one Attribute leaf per listed name, sharing `content`,
     * each merged into the accumulator, which continues with what `Merge`
     * returns; no names give a new Empty leaf.
     */
    method MakeAttribute(names: seq<QName>, content: Leaf, locator: Option<Locator>) returns (r: Leaf)
      ensures fresh(r)
      ensures names == [] ==> r.kind == EmptyLeaf && r.locator == locator && r.group == [r]
      ensures names != [] ==> FannedOut(r, names, false, content, locator) && forall l | l in r.group :: fresh(l)
    {
      var acc: Leaf? := null;
      var i := 0;
      while i < |names|
        invariant 0 <= i <= |names|
        invariant i == 0 <==> acc == null
        invariant acc != null ==> fresh(acc) && (forall l | l in acc.group :: fresh(l)) && FannedOut(acc, names[..i], false, content, locator)
      {
        var l := new Leaf(locator, AttributeLeaf(names[i], content));
        if acc != null {
          acc := acc.Merge(l);
        } else {
          acc := l;
        }
        i := i + 1;
      }
      if acc == null {
        r := new Leaf(locator, EmptyLeaf);
        return;
      }
      assert names[..i] == names;
      r := acc;
    }

    /** `makeElement`: as `makeAttribute`, with Element leaves. */
    method MakeElement(names: seq<QName>, content: Leaf, locator: Option<Locator>) returns (r: Leaf)
      ensures fresh(r)
      ensures names == [] ==> r.kind == EmptyLeaf && r.locator == locator && r.group == [r]
      ensures names != [] ==> FannedOut(r, names, true, content, locator) && forall l | l in r.group :: fresh(l)
    {
      var acc: Leaf? := null;
      var i := 0;
      while i < |names|
        invariant 0 <= i <= |names|
        invariant i == 0 <==> acc == null
        invariant acc != null ==> fresh(acc) && (forall l | l in acc.group :: fresh(l)) && FannedOut(acc, names[..i], true, content, locator)
      {
        var l := new Leaf(locator, ElementLeaf(names[i], content));
        if acc != null {
          acc := acc.Merge(l);
        } else {
          acc := l;
        }
        i := i + 1;
      }
      if acc == null {
        r := new Leaf(locator, EmptyLeaf);
        return;
      }
      assert names[..i] == names;
      r := acc;
    }
  }
}
