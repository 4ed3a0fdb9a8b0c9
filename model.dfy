/**
 * The TXW2 pattern model (package com.sun.tools.txw2.model): pattern leaves,
 * the output-type handles they are generated into, and the named grammar rule
 * (`Define`) with its declare / generate / prepare protocol.
 *
 * The leaf classes' own `merge` and `generate` bodies, the code-model classes
 * and `NodeSet` are collaborators whose code is not part of this model; each is
 * given the smallest placeholder behaviour that lets the rule protocol be stated.
 */
module TxwModel {
  import opened Wrappers

  /** A qualified XML name. */
  datatype QName = QName(namespaceUri: string, localPart: string)

  /** A Java type handle from the code model (the string type, a resolved datatype). */
  datatype JavaType = JavaType(fullName: string)

  /** The source position a parsed construct came from. */
  datatype Locator = Locator(systemId: Option<string>, lineNumber: int, columnNumber: int)

  /** Identity of the grammar scope a rule belongs to. */
  datatype GrammarScope = GrammarScope(id: nat)

  /** Name of the distinguished start rule; a stand-in value, only equality with it matters. */
  const Start: string := "\0#start\0"

  /** The variant of a pattern leaf, with the data each variant's constructor receives. */
  datatype LeafKind =
    | EmptyLeaf
    | DataLeaf(dataType: JavaType)
    | ValueLeaf(valueType: JavaType, literal: string)
    | ListLeaf(item: Leaf)
    | AttributeLeaf(attributeName: QName, attributeContent: Leaf)
    | ElementLeaf(elementName: QName, elementContent: Leaf)
    | RuleUse(rule: Define)

  /** Attributes, elements and rules are writer nodes: they carry an alternative name. */
  predicate IsWriterNode(kind: LeafKind)
  {
    kind.AttributeLeaf? || kind.ElementLeaf? || kind.RuleUse?
  }

  /** The generic "typed writer" interface, or the interface generated for a rule. */
  datatype Supertype = TypedXmlWriter | Generated(handle: TypeHandle)

  /** One call of a leaf's `generate` into a type: which leaf, with which property set. */
  datatype Contribution = Contribution(leaf: Leaf, props: PropertySet)

  /** The properties already generated into one output type (a `HashSet<Prop>`). */
  class PropertySet {
    var props: set<QName>

    constructor ()
      ensures props == {}
    {
      props := {};
    }
  }

  /**
   * An output type being built (a `JDefinedClass`): the interfaces it
   * implements and, in order, the leaves generated into it.
   */
  class TypeHandle {
    const name: string
    var implements: set<Supertype>
    var contributions: seq<Contribution>

    constructor (name: string)
      ensures this.name == name && implements == {} && contributions == []
    {
      this.name := name;
      implements := {};
      contributions := [];
    }

    /** `_implements`: adds one interface and nothing else. */
    method Implements(s: Supertype)
      modifies this
      ensures implements == old(implements) + {s}
      ensures contributions == old(contributions)
    {
      implements := implements + {s};
    }
  }

  /** The rule registry, reduced to its class factory: every class it created, in order. */
  class NodeSet {
    var created: seq<TypeHandle>

    constructor ()
      ensures created == []
    {
      created := [];
    }

    /** `createClass`: a fresh, empty output type for the given rule name. */
    method CreateClass(name: string) returns (c: TypeHandle)
      modifies this
      ensures fresh(c) && c.name == name && c.implements == {} && c.contributions == []
      ensures created == old(created) + [c]
    {
      c := new TypeHandle(name);
      created := created + [c];
    }
  }

  /**
   * A pattern leaf. `group` lists the leaves merged into this one, this one
   * first: a newly built leaf is alone in its group, and `Merge` appends the
   * other operand's group to the receiver's.
   */
  class Leaf {
    const locator: Option<Locator>
    const kind: LeafKind
    var group: seq<Leaf>
    var alternativeName: Option<string>

    /** A leaf heads its own merge group. */
    ghost predicate Valid()
      reads this
    {
      |group| >= 1 && group[0] == this
    }

    constructor (locator: Option<Locator>, kind: LeafKind)
      ensures this.locator == locator && this.kind == kind
      ensures group == [this] && alternativeName == None
      ensures Valid()
    {
      this.locator := locator;
      this.kind := kind;
      group := [this];
      alternativeName := None;
    }

    /**
     * `merge`: updates the receiver in place and returns the leaf callers must
     * continue with, here the receiver itself.
     */
    method Merge(that: Leaf) returns (r: Leaf)
      modifies this
      ensures r == this
      ensures group == old(group) + old(that.group)
      ensures alternativeName == old(alternativeName)
      ensures old(Valid()) ==> Valid()
    {
      group := group + that.group;
      r := this;
    }

    /** `generate`: records that this leaf was generated into `clazz` with `props`. */
    method Generate(clazz: TypeHandle, nset: NodeSet, props: PropertySet)
      modifies clazz
      ensures clazz.contributions == old(clazz.contributions) + [Contribution(this, props)]
      ensures clazz.implements == old(clazz.implements)
    {
      clazz.contributions := clazz.contributions + [Contribution(this, props)];
    }
  }

  /** What generating each of `leaves` in turn with one property set records. */
  function Contributions(leaves: seq<Leaf>, props: PropertySet): (cs: seq<Contribution>)
    ensures |cs| == |leaves|
    ensures forall i :: 0 <= i < |leaves| ==> cs[i] == Contribution(leaves[i], props)
  {
    if leaves == [] then [] else [Contribution(leaves[0], props)] + Contributions(leaves[1..], props)
  }

  /**
   * A named grammar rule. Its pattern is `leaf` (set by the grammar builder);
   * its children are the members of that leaf's merge group. A rule that is not
   * inline owns the output type `clazz` once declared.
   */
  class Define {
    const scope: GrammarScope
    const name: string
    var leaf: Leaf?
    var clazz: TypeHandle?

    constructor (scope: GrammarScope, name: string)
      ensures this.scope == scope && this.name == name
      ensures leaf == null && clazz == null
    {
      this.scope := scope;
      this.name := name;
      leaf := null;
      clazz := null;
    }

    /** The rule's children, in iteration order. */
    function Children(): seq<Leaf>
      reads this, leaf
    {
      if leaf == null then [] else leaf.group
    }

    predicate HasOneChild()
      reads this, leaf
    {
      |Children()| == 1
    }

    /** A rule is inline iff it has exactly one child. */
    predicate IsInline()
      reads this, leaf
      ensures IsInline() <==> |Children()| == 1
    {
      HasOneChild()
    }

    /**
     * Declare phase: an inline rule gets no type; any other rule gets a fresh
     * class for its name, which implements the typed-writer interface.
     */
    method Declare(nset: NodeSet)
      modifies this, nset
      ensures leaf == old(leaf)
      ensures old(IsInline()) ==> clazz == old(clazz) && nset.created == old(nset.created)
      ensures !old(IsInline()) ==>
        && clazz != null && fresh(clazz)
        && clazz.name == name
        && clazz.implements == {TypedXmlWriter}
        && clazz.contributions == []
        && nset.created == old(nset.created) + [clazz]
    {
      if IsInline() {
        return;
      }
      clazz := nset.CreateClass(name);
      clazz.Implements(TypedXmlWriter);
    }

    /**
     * Generate phase for the rule's own type: nothing without a type; otherwise
     * every child is generated into it, in order, sharing one fresh, empty
     * property set (returned as `used` for the contract's sake).
     */
    method Generate(nset: NodeSet) returns (ghost used: PropertySet?)
      modifies clazz
      ensures clazz == old(clazz)
      ensures clazz == null ==> used == null
      ensures clazz != null ==>
        && used != null && fresh(used) && used.props == {}
        && clazz.contributions == old(clazz.contributions) + Contributions(Children(), used)
        && clazz.implements == old(clazz.implements)
    {
      used := null;
      if clazz == null {
        return;
      }
      var props := new PropertySet();
      used := props;
      var children := Children();
      var i := 0;
      while i < |children|
        invariant 0 <= i <= |children|
        invariant clazz.contributions == old(clazz.contributions) + Contributions(children[..i], props)
        invariant clazz.implements == old(clazz.implements)
        invariant props.props == {}
      {
        children[i].Generate(clazz, nset, props);
        assert children[..i + 1] == children[..i] + [children[i]];
        i := i + 1;
      }
      assert children[..i] == children;
    }

    /**
     * Generation at a use site inside `caller`: an inline rule's children are
     * generated into the caller with the caller's property set; any other rule
     * only makes the caller implement the rule's own type.
     */
    method GenerateInto(caller: TypeHandle, nset: NodeSet, props: PropertySet)
      requires !IsInline() ==> clazz != null
      modifies caller
      ensures IsInline() ==>
        && caller.contributions == old(caller.contributions) + Contributions(Children(), props)
        && caller.implements == old(caller.implements)
      ensures !IsInline() ==>
        && caller.implements == old(caller.implements) + {Generated(clazz)}
        && caller.contributions == old(caller.contributions)
    {
      if IsInline() {
        var children := Children();
        var i := 0;
        while i < |children|
          invariant 0 <= i <= |children|
          invariant caller.contributions == old(caller.contributions) + Contributions(children[..i], props)
          invariant caller.implements == old(caller.implements)
        {
          children[i].Generate(caller, nset, props);
          assert children[..i + 1] == children[..i] + [children[i]];
          i := i + 1;
        }
        assert children[..i] == children;
      } else {
        caller.Implements(Generated(clazz));
      }
    }

    /**
     * Prepare: an inline rule other than the start rule whose pattern leaf is a
     * writer node lends that node its name; otherwise nothing changes.
     */
    method Prepare(nset: NodeSet)
      modifies leaf
      ensures leaf == old(leaf)
      ensures leaf != null ==> leaf.group == old(leaf.group)
      ensures leaf != null && old(IsInline()) && IsWriterNode(leaf.kind) && name != Start ==>
        leaf.alternativeName == Some(name)
      ensures leaf != null && !(old(IsInline()) && IsWriterNode(leaf.kind) && name != Start) ==>
        leaf.alternativeName == old(leaf.alternativeName)
    {
      if IsInline() && IsWriterNode(leaf.kind) && name != Start {
        leaf.alternativeName := Some(name);
      }
    }
  }
}
