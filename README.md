# TXW2 schema compiler front half, in Dafny

This project models the front half of the TXW2 schema compiler, which turns a RELAX NG
grammar into a typed writer API, together with the JAXB runtime's argument validator.

- `RelaxNgBuilder` (builder.dfy) models `SchemaBuilderImpl`, the callbacks the RELAX NG
  parser drives. Each grammar construct becomes a pattern leaf. Choice, group and interleave
  are one left-to-right merge fold. Optional and zero-or-more merge with a new Empty leaf.
  One-or-more is the identity. notAllowed and error patterns become Empty. An attribute or
  element name class fans out into one leaf per listed name, and those leaves are merged.
  Datatype lookup falls back to the string type.
- `TxwModel` (model.dfy) holds the pattern leaves (`Leaf`), the output-type handles
  (`TypeHandle`), the property sets, the class factory (`NodeSet`) and the named rule
  `Define` with its declare, generate and prepare steps. A rule is inline iff it has exactly
  one child. Only a non-inline rule gets an output type.
- `Validation` (validation.dfy) models `Validate`: `notNull`, `notEmpty`, `isTrue` and the
  message builder. A thrown exception is a `Thrown` outcome with its class and message.
- `Wrappers` (wrappers.dfy) holds `Option`, which stands for Java's nullable references.

`Leaf.merge` is modelled as an in-place update of the receiver that returns the leaf callers
continue with. `merge(List)` ignores that return value and returns the first leaf.
`makeAttribute` and `makeElement` thread it through their accumulator. Both usages appear as
written. Each leaf has a merge group: the leaves merged into it, itself first. Merging
appends the other operand's group to the receiver's group. The fold's result is specified by
`Accumulate`, which also covers a leaf merged into itself. `AccumulateAppends` and
`FoldOfSeparateLeaves` show that without self-merges the fold appends every later group in
list order. For freshly built leaves, the first leaf then heads the whole list.

Two behaviours of the code are worth stating plainly.
- `prepare` gives the single child the rule's name whenever that child is a writer node:
  an attribute, an element or a rule (src/compiler/com/sun/tools/txw2/model/Define.java:60).
  The child need not be a rule reference.
- `Define` has no guard against a second declare or generate. That bookkeeping belongs to
  the registry, and the registry is not part of this model.

## Model

| member | source | states |
|---|---|---|
| `Validation.GetMessage` | jaxb-ri/runtime/impl/src/main/java/com/sun/xml/bind/v2/util/Validate.java:104-109 | the message is "Cannot handle ", then the definition word, then the quoted name if one is given, then " argument."; its length shows whether a name was given |
| `Validation.MessageRoundTrip` | jaxb-ri/runtime/impl/src/main/java/com/sun/xml/bind/v2/util/Validate.java:104-109 | the argument name (or its absence) can always be read back from the message |
| `Validation.MessageDeterminesArgumentName` | jaxb-ri/runtime/impl/src/main/java/com/sun/xml/bind/v2/util/Validate.java:104-109 | two messages for the same definition word are equal only for the same argument name |
| `Validation.NullAndEmptyMessagesDiffer` | jaxb-ri/runtime/impl/src/main/java/com/sun/xml/bind/v2/util/Validate.java:63-85 | a message built with "null" never equals one built with "empty" |
| `Validation.NotNull` | jaxb-ri/runtime/impl/src/main/java/com/sun/xml/bind/v2/util/Validate.java:63-67 | passes iff the object is non-null; otherwise a NullPointerException with the "null" message |
| `Validation.NotEmpty` | jaxb-ri/runtime/impl/src/main/java/com/sun/xml/bind/v2/util/Validate.java:77-85 | null fails exactly as `notNull`; passes iff the string is non-null and non-empty; the empty string gives an IllegalArgumentException with the "empty" message |
| `Validation.NotEmptyFailuresDistinct` | jaxb-ri/runtime/impl/src/main/java/com/sun/xml/bind/v2/util/Validate.java:77-85 | the null and the empty failures differ in exception class and in message |
| `Validation.IsTrue` | jaxb-ri/runtime/impl/src/main/java/com/sun/xml/bind/v2/util/Validate.java:93-98 | passes iff the condition holds; otherwise an IllegalArgumentException carrying exactly the caller's message |
| `TxwModel.Define.constructor` | src/compiler/com/sun/tools/txw2/model/Define.java:20-24 | scope and name are the given ones and never change (constants); no pattern and no class yet |
| `TxwModel.Define.IsInline` | src/compiler/com/sun/tools/txw2/model/Define.java:30-32 | inline iff the rule has exactly one child |
| `TxwModel.Define.Declare` | src/compiler/com/sun/tools/txw2/model/Define.java:34-39 | an inline rule changes nothing; any other rule gets a fresh class created for its name, implementing only the typed-writer interface, with no members |
| `TxwModel.Define.Generate` | src/compiler/com/sun/tools/txw2/model/Define.java:41-47 | nothing happens without a class; otherwise every child is generated into the class, in order, all with one fresh, empty property set |
| `TxwModel.Define.GenerateInto` | src/compiler/com/sun/tools/txw2/model/Define.java:49-57 | at a use site, an inline rule's children are generated into the caller's class with the caller's property set; any other rule needs its class declared and only makes the caller implement it |
| `TxwModel.Define.Prepare` | src/compiler/com/sun/tools/txw2/model/Define.java:59-62 | the pattern leaf takes the rule's name as alternative name iff the rule is inline, the leaf is a writer node and the rule is not the start rule; otherwise nothing changes |
| `RelaxNgBuilder.SchemaBuilder.constructor` | txw2/src/compiler/com/sun/tools/txw2/builder/relaxng/SchemaBuilderImpl.java:60-63 | the builder keeps the string type and the datatype lookup it is given |
| `RelaxNgBuilder.SchemaBuilder.ExpandPattern` | txw2/src/compiler/com/sun/tools/txw2/builder/relaxng/SchemaBuilderImpl.java:66-68 | pattern expansion returns the leaf itself |
| `RelaxNgBuilder.SchemaBuilder.Merge` | txw2/src/compiler/com/sun/tools/txw2/builder/relaxng/SchemaBuilderImpl.java:76-80 | needs a non-empty list; returns the first leaf, after merging each later leaf into it from index 1 to the end; a singleton comes back unchanged |
| `RelaxNgBuilder.AccumulateAppends` | txw2/src/compiler/com/sun/tools/txw2/builder/relaxng/SchemaBuilderImpl.java:76-80 | when the first leaf is not repeated later, the fold appends every later leaf's group in list order |
| `RelaxNgBuilder.FoldOfSeparateLeaves` | txw2/src/compiler/com/sun/tools/txw2/builder/relaxng/SchemaBuilderImpl.java:76-80 | folding leaves that are each alone in their group leaves the first heading all of them, in list order |
| `RelaxNgBuilder.SchemaBuilder.MakeChoice` | txw2/src/compiler/com/sun/tools/txw2/builder/relaxng/SchemaBuilderImpl.java:82-84 | choice is exactly the merge fold |
| `RelaxNgBuilder.SchemaBuilder.MakeInterleave` | txw2/src/compiler/com/sun/tools/txw2/builder/relaxng/SchemaBuilderImpl.java:86-88 | interleave has the same contract as choice |
| `RelaxNgBuilder.SchemaBuilder.MakeGroup` | txw2/src/compiler/com/sun/tools/txw2/builder/relaxng/SchemaBuilderImpl.java:90-92 | group has the same contract as choice |
| `RelaxNgBuilder.SchemaBuilder.MakeOneOrMore` | txw2/src/compiler/com/sun/tools/txw2/builder/relaxng/SchemaBuilderImpl.java:94-96 | one-or-more returns its argument unchanged |
| `RelaxNgBuilder.SchemaBuilder.MakeZeroOrMore` | txw2/src/compiler/com/sun/tools/txw2/builder/relaxng/SchemaBuilderImpl.java:98-100 | returns the leaf, with one new Empty leaf at the locator (alone in its group, no alternative name) merged after its group; the leaf keeps its alternative name and its group stays headed by itself |
| `RelaxNgBuilder.SchemaBuilder.MakeOptional` | txw2/src/compiler/com/sun/tools/txw2/builder/relaxng/SchemaBuilderImpl.java:102-104 | the same contract as zero-or-more, so the two are the same operation |
| `RelaxNgBuilder.SchemaBuilder.MakeList` | txw2/src/compiler/com/sun/tools/txw2/builder/relaxng/SchemaBuilderImpl.java:106-108 | a new List leaf wrapping exactly the given leaf |
| `RelaxNgBuilder.SchemaBuilder.MakeMixed` | txw2/src/compiler/com/sun/tools/txw2/builder/relaxng/SchemaBuilderImpl.java:110-112 | returns the leaf, with one new Data leaf of the string type at the locator (alone in its group, no alternative name) merged after its group; the leaf keeps its alternative name |
| `RelaxNgBuilder.SchemaBuilder.MakeEmpty` | txw2/src/compiler/com/sun/tools/txw2/builder/relaxng/SchemaBuilderImpl.java:114-116 | a new Empty leaf at the locator |
| `RelaxNgBuilder.SchemaBuilder.MakeNotAllowed` | txw2/src/compiler/com/sun/tools/txw2/builder/relaxng/SchemaBuilderImpl.java:118-122 | notAllowed is approximated by a new Empty leaf |
| `RelaxNgBuilder.SchemaBuilder.MakeText` | txw2/src/compiler/com/sun/tools/txw2/builder/relaxng/SchemaBuilderImpl.java:124-126 | a new Data leaf of the string type |
| `RelaxNgBuilder.SchemaBuilder.MakeAttribute` | txw2/src/compiler/com/sun/tools/txw2/builder/relaxng/SchemaBuilderImpl.java:128-137 | no names give a new Empty leaf; otherwise the result heads one fresh, distinct Attribute leaf per name, in name order, all sharing the content leaf; one name gives that single leaf |
| `RelaxNgBuilder.SchemaBuilder.MakeElement` | txw2/src/compiler/com/sun/tools/txw2/builder/relaxng/SchemaBuilderImpl.java:139-148 | the same as for attributes, with Element leaves |
| `RelaxNgBuilder.SchemaBuilder.GetType` | txw2/src/compiler/com/sun/tools/txw2/builder/relaxng/SchemaBuilderImpl.java:154-158 | the factory's type when it has one; the string type exactly when it returns null |
| `RelaxNgBuilder.SchemaBuilder.MakeValue` | txw2/src/compiler/com/sun/tools/txw2/builder/relaxng/SchemaBuilderImpl.java:160-162 | a new Value leaf whose type is always the resolved type and whose literal is the given value |
| `RelaxNgBuilder.SchemaBuilder.Annotate` | txw2/src/compiler/com/sun/tools/txw2/builder/relaxng/SchemaBuilderImpl.java:168-170 | annotating returns the leaf itself |
| `RelaxNgBuilder.SchemaBuilder.AnnotateAfter` | txw2/src/compiler/com/sun/tools/txw2/builder/relaxng/SchemaBuilderImpl.java:172-174 | a following annotation returns the leaf itself |
| `RelaxNgBuilder.SchemaBuilder.MakeErrorPattern` | txw2/src/compiler/com/sun/tools/txw2/builder/relaxng/SchemaBuilderImpl.java:176-178 | an error pattern is a new Empty leaf with no locator |
| `RelaxNgBuilder.SchemaBuilder.UsesComments` | txw2/src/compiler/com/sun/tools/txw2/builder/relaxng/SchemaBuilderImpl.java:180-182 | comments are reported as unused |
| `RelaxNgBuilder.SchemaBuilder.MakeCommentList` | txw2/src/compiler/com/sun/tools/txw2/builder/relaxng/SchemaBuilderImpl.java:201-203 | the comment list is null |
| `RelaxNgBuilder.SchemaBuilder.CommentAfter` | txw2/src/compiler/com/sun/tools/txw2/builder/relaxng/SchemaBuilderImpl.java:205-207 | a following comment returns the leaf itself |

## Left out

- The bodies of `Leaf.merge` and `Leaf.generate` and the per-variant merge rules are not part of this model. `Leaf.Merge` is a placeholder: it appends the other operand's group to the receiver's group and returns the receiver. It does not update the other operand, so the shared ring of merged leaves is only seen from the receiver. No merge-identity or name-collapse property is claimed.
- `Leaf.Generate` is a placeholder: it records the leaf and the property set in the target type. It adds no property, so the property sets stay empty in the model.
- `NodeSet.createClass`, `JDefinedClass._implements` and `JCodeModel.ref` are modelled as a fresh handle, a set of implemented interfaces and a given string type. Unique naming of output types belongs to the registry, which is not part of this model.
- `WriterNode.hasOneChild` and the children iterator are not part of this model. The children are taken to be the pattern leaf's merge group, so "one child" means a group of one.
- Which leaf variants are writer nodes (attribute, element, rule) comes from the leaf class hierarchy, which is not part of this model. A rule used inside a pattern is the `RuleUse` leaf, and its alternative name is set on that leaf rather than on the rule object.
- `Grammar.START` is not part of this model. `Start` is a stand-in value; only equality with it matters.
- `NameClass.listNames()` is given as the sequence of names in iteration order, and `DatatypeFactory.getType` as a given total lookup function.
- `TxwModel.Define.Generate`: the clause that the rule's own type gains no interface rests only on the `Leaf.Generate` placeholder. In the source, a child that refers to a non-inline rule would make the type implement that rule's type, and `Leaf.generate` is not part of this model.
- `TxwModel.Define.GenerateInto`: for an inline rule, the clause that the caller's type gains no interface rests only on the `Leaf.Generate` placeholder, for the same reason.
- `TxwModel.Define.GenerateInto`: the Java `assert` that the rule's class exists becomes a precondition, since with assertions disabled the source would pass null on.
- `makeExternalRef` delegates to the RELAX NG parser (a foreign call). `makeGrammar`, `makeLocation`, `makeAnnotations`, `makeElementAnnotationBuilder`, `makeDataPatternBuilder` and `getNameClassBuilder` only build parser or code-model objects.
- Locators and annotations passed to choice, group, interleave, one-or-more and the annotation hooks are unused by the source and are not modelled beyond the locator parameter. The `Context` and namespace arguments of `makeValue` are dropped for the same reason.
- `RelaxNgBuilder.SchemaBuilder.Merge`: an empty list is excluded by a precondition. In the source, `leaves.get(0)` would throw an IndexOutOfBoundsException. The model does not capture that exception.
- `FoolProofResolver`, the output-location wrapper, is I/O plumbing around a user callback plus logging.
- `Define.toString` is debugging output.
