/**
 * The layout decision for object destructuring: an object binding pattern
 * (`function f({ a, b }) {}`, `const { a } = o`, `catch ({ message })`) or an
 * object assignment target (`({ a, b } = o)`) is laid out empty, inline in
 * its parent, or as a group that may be forced to expand.
 *
 * The node's ancestors are given as far as the decision looks: the parent,
 * the grandparent and the great-grandparent. Whether the node is empty and
 * whether a type annotation's span holds a comment are inputs, and the
 * property lists are written by formatters outside this model.
 */
module PatternLike {
  import opened Wrappers

  /** A type annotation, known only by whether a comment lies in its span. */
  datatype TypeAnnotation = TypeAnnotation(hasCommentInSpan: bool)

  /** The kinds of ancestor node the decision tells apart. */
  datatype AncestorNode =
    | FormalParameterNode(hasInitializer: bool, typeAnnotation: Option<TypeAnnotation>)
    | BindingIdentifierNode
    | CatchParameterNode
    | VariableDeclaratorNode
    | AssignmentExpressionNode
    | ArrowFunctionExpressionNode
    | OtherNode

  /** The parent, grandparent and great-grandparent of a node. */
  datatype Ancestry = Ancestry(parent: AncestorNode, grandparent: AncestorNode, greatGrandparent: AncestorNode)

  /** `BindingPattern`: the value side of a binding property. */
  datatype BindingPattern =
    | BindingIdentifier
    | ObjectPattern
    | ArrayPattern
    | AssignmentPattern(left: BindingPattern)

  /** A property of an object binding pattern, by its value. */
  datatype BindingProperty = BindingProperty(value: BindingPattern)

  /** `AssignmentTarget`, by whether it destructures. */
  datatype AssignmentTarget = SimpleAssignmentTarget | ObjectAssignmentTarget | ArrayAssignmentTarget

  /** `AssignmentTargetMaybeDefault`: a target, or a target with a default value. */
  datatype AssignmentTargetMaybeDefault =
    | Target(target: AssignmentTarget)
    | AssignmentTargetWithDefault(binding: AssignmentTarget)

  /** A property of an object assignment target. */
  datatype AssignmentTargetProperty =
    | AssignmentTargetPropertyIdentifier
    | AssignmentTargetPropertyProperty(propertyBinding: AssignmentTargetMaybeDefault)

  /** `ObjectPatternLike`: the node, its emptiness and its ancestors. */
  datatype ObjectPatternLike =
    | ObjectPatternNode(properties: seq<BindingProperty>, empty: bool, ancestry: Ancestry)
    | ObjectAssignmentTargetNode(targetProperties: seq<AssignmentTargetProperty>, empty: bool, ancestry: Ancestry)

  /** `ObjectPatternLayout`. */
  datatype ObjectPatternLayout = Group(expand: bool) | Empty | Inline

  // ---------------------------------------------------------------------
  // The checks

  /** `is_empty`: read from the node. */
  function IsEmpty(p: ObjectPatternLike): bool
  {
    p.empty
  }

  /**
   * `is_inline`: a binding pattern hugs when it is the default-valued
   * parameter `({ a } = {}) => …`, seen as a binding identifier whose parent
   * is a formal parameter with an initializer.
   */
  function IsInline(p: ObjectPatternLike): (r: bool)
    ensures r <==> (p.ObjectPatternNode? && p.ancestry.parent == BindingIdentifierNode
                    && p.ancestry.grandparent.FormalParameterNode? && p.ancestry.grandparent.hasInitializer)
  {
    match p
    case ObjectPatternNode(_, _, ancestry) =>
      (match ancestry.parent
       case BindingIdentifierNode =>
         (match ancestry.grandparent
          case FormalParameterNode(hasInitializer, _) => hasInitializer
          case _ => false)
       case _ => false)
    case ObjectAssignmentTargetNode(_, _, _) => false
  }

  /** A parameter's property value that is not a plain identifier. */
  predicate IsComplexValue(v: BindingPattern)
  {
    !v.BindingIdentifier?
  }

  /** A value that destructures, directly or as the left side of a default. */
  predicate IsNestedDestructuring(v: BindingPattern)
  {
    v.ObjectPattern? || v.ArrayPattern? || (v.AssignmentPattern? && (v.left.ObjectPattern? || v.left.ArrayPattern?))
  }

  /** A target property whose binding is directly a destructuring target, without a default. */
  predicate IsNestedTarget(prop: AssignmentTargetProperty)
  {
    prop.AssignmentTargetPropertyProperty? && prop.propertyBinding.Target?
      && (prop.propertyBinding.target.ObjectAssignmentTarget? || prop.propertyBinding.target.ArrayAssignmentTarget?)
  }

  /** `properties.iter().any(...)` for a formal parameter. */
  function AnyComplexProperty(props: seq<BindingProperty>): (r: bool)
    ensures r <==> exists i :: 0 <= i < |props| && IsComplexValue(props[i].value)
  {
    if |props| == 0 then false
    else
      match props[0].value
      case AssignmentPattern(_) => true
      case ObjectPattern => true
      case ArrayPattern => true
      case BindingIdentifier =>
        var rest := AnyComplexProperty(props[1..]);
        assert forall i :: 1 <= i < |props| ==> props[i] == props[1..][i - 1];
        rest
  }

  /** `properties.iter().any(...)` outside parameters and catch clauses. */
  function AnyNestedProperty(props: seq<BindingProperty>): (r: bool)
    ensures r <==> exists i :: 0 <= i < |props| && IsNestedDestructuring(props[i].value)
  {
    if |props| == 0 then false
    else
      var here :=
        match props[0].value
        case ObjectPattern => true
        case ArrayPattern => true
        case AssignmentPattern(left) => left.ObjectPattern? || left.ArrayPattern?
        case BindingIdentifier => false;
      if here then true
      else
        var rest := AnyNestedProperty(props[1..]);
        assert forall i :: 1 <= i < |props| ==> props[i] == props[1..][i - 1];
        rest
  }

  /** `properties.iter().any(...)` for an assignment target. */
  function AnyNestedTarget(props: seq<AssignmentTargetProperty>): (r: bool)
    ensures r <==> exists i :: 0 <= i < |props| && IsNestedTarget(props[i])
  {
    if |props| == 0 then false
    else
      var here :=
        match props[0]
        case AssignmentTargetPropertyIdentifier => false
        case AssignmentTargetPropertyProperty(binding) =>
          (match binding
           case Target(t) => t.ObjectAssignmentTarget? || t.ArrayAssignmentTarget?
           case AssignmentTargetWithDefault(_) => false);
      if here then true
      else
        var rest := AnyNestedTarget(props[1..]);
        assert forall i :: 1 <= i < |props| ==> props[i] == props[1..][i - 1];
        rest
  }

  /** The formal-parameter rule: comment in the annotation, a complex property, or three properties outside an unannotated arrow. */
  predicate ParameterBreaks(props: seq<BindingProperty>, typeAnnotation: Option<TypeAnnotation>, greatGrandparent: AncestorNode)
  {
    || (typeAnnotation.Some? && typeAnnotation.value.hasCommentInSpan)
    || (exists i :: 0 <= i < |props| && IsComplexValue(props[i].value))
    || (|props| >= 3 && !(typeAnnotation.None? && greatGrandparent == ArrowFunctionExpressionNode))
  }

  /** `should_break_properties`. */
  function ShouldBreakProperties(p: ObjectPatternLike): (r: bool)
    ensures p.ObjectPatternNode? && p.ancestry.parent.FormalParameterNode? ==>
      (r <==> ParameterBreaks(p.properties, p.ancestry.parent.typeAnnotation, p.ancestry.greatGrandparent))
    ensures p.ObjectPatternNode? && p.ancestry.parent == CatchParameterNode ==> !r
    ensures p.ObjectPatternNode? && !p.ancestry.parent.FormalParameterNode? && p.ancestry.parent != CatchParameterNode ==>
      (r <==> exists i :: 0 <= i < |p.properties| && IsNestedDestructuring(p.properties[i].value))
    ensures p.ObjectAssignmentTargetNode? ==>
      (r <==> exists i :: 0 <= i < |p.targetProperties| && IsNestedTarget(p.targetProperties[i]))
  {
    match p
    case ObjectPatternNode(props, _, ancestry) =>
      (match ancestry.parent
       case FormalParameterNode(_, typeAnnotation) =>
         var propertyCount := |props|;
         var hasComplexProperty := AnyComplexProperty(props);
         var typeAnnHasComments := typeAnnotation.Some? && typeAnnotation.value.hasCommentInSpan;
         var isArrowNoType := typeAnnotation.None? && ancestry.greatGrandparent.ArrowFunctionExpressionNode?;
         typeAnnHasComments || hasComplexProperty || (propertyCount >= 3 && !isArrowNoType)
       case CatchParameterNode => false
       case _ => AnyNestedProperty(props))
    case ObjectAssignmentTargetNode(props, _, _) => AnyNestedTarget(props)
  }

  /** `is_in_assignment_like`. */
  function IsInAssignmentLike(p: ObjectPatternLike): (r: bool)
    ensures p.ObjectPatternNode? ==> (r <==> p.ancestry.parent == VariableDeclaratorNode)
    ensures p.ObjectAssignmentTargetNode? ==>
      (r <==> p.ancestry.parent in {AssignmentExpressionNode, VariableDeclaratorNode})
  {
    match p
    case ObjectPatternNode(_, _, ancestry) => ancestry.parent.VariableDeclaratorNode?
    case ObjectAssignmentTargetNode(_, _, ancestry) =>
      ancestry.parent.AssignmentExpressionNode? || ancestry.parent.VariableDeclaratorNode?
  }

  /** `layout`: the checks in their fixed order. */
  function Layout(p: ObjectPatternLike): (r: ObjectPatternLayout)
    ensures r == Empty <==> IsEmpty(p)
    ensures r == Group(true) <==> !IsEmpty(p) && !IsInline(p) && ShouldBreakProperties(p)
    ensures r == Inline <==> !IsEmpty(p) && (IsInline(p) || (!ShouldBreakProperties(p) && IsInAssignmentLike(p)))
    ensures r == Group(false) <==>
      !IsEmpty(p) && !IsInline(p) && !ShouldBreakProperties(p) && !IsInAssignmentLike(p)
  {
    if IsEmpty(p) then Empty
    else if IsInline(p) then Inline
    else
      var breakProperties := ShouldBreakProperties(p);
      if breakProperties then Group(true)
      else if IsInAssignmentLike(p) then Inline
      else Group(false)
  }

  // ---------------------------------------------------------------------
  // Output shape

  /** The pieces `fmt` writes; the property list itself is formatted elsewhere. */
  datatype DocElement =
    | Token(text: string)
    | BlockIndentedDanglingComments                              // comments inside `{}`
    | PropertyBlock(spaceAroundBrackets: bool)                   // soft block indent around the list
    | GroupedPropertyBlock(spaceAroundBrackets: bool, expand: bool)

  /** `fmt`: braces around the part the layout selects. */
  function Fmt(p: ObjectPatternLike, bracketSpacing: bool): (doc: seq<DocElement>)
    ensures |doc| == 3
    ensures doc[0] == Token("{") && doc[2] == Token("}")
    ensures doc[1] == BlockIndentedDanglingComments <==> Layout(p) == Empty
    ensures doc[1] == PropertyBlock(bracketSpacing) <==> Layout(p) == Inline
    ensures forall expand: bool {:trigger Group(expand)} ::
      doc[1] == GroupedPropertyBlock(bracketSpacing, expand) <==> Layout(p) == Group(expand)
  {
    var middle :=
      match Layout(p)
      case Empty => BlockIndentedDanglingComments
      case Inline => PropertyBlock(bracketSpacing)
      case Group(expand) => GroupedPropertyBlock(bracketSpacing, expand);
    [Token("{"), middle, Token("}")]
  }

  // ---------------------------------------------------------------------
  // Which contexts yield which layout

  /** An inline layout comes only from a hugging parameter or an assignment-like parent. */
  lemma InlineContexts(p: ObjectPatternLike)
    requires Layout(p) == Inline
    ensures p.ObjectPatternNode? ==>
      p.ancestry.parent == BindingIdentifierNode || p.ancestry.parent == VariableDeclaratorNode
    ensures p.ObjectAssignmentTargetNode? ==>
      p.ancestry.parent == AssignmentExpressionNode || p.ancestry.parent == VariableDeclaratorNode
  {
  }

  /** The default-valued parameter hugs whatever its properties are. */
  lemma DefaultedParameterHugs(props: seq<BindingProperty>, typeAnnotation: Option<TypeAnnotation>, ggp: AncestorNode)
    ensures Layout(ObjectPatternNode(props, false,
      Ancestry(BindingIdentifierNode, FormalParameterNode(true, typeAnnotation), ggp))) == Inline
  {
  }

  /** An assignment target never hugs: it is inline only as an assignment's or declarator's left side. */
  lemma AssignmentTargetNeverHugs(props: seq<AssignmentTargetProperty>, ancestry: Ancestry)
    ensures !IsInline(ObjectAssignmentTargetNode(props, false, ancestry))
  {
  }

  /** A non-empty pattern bound by `catch` is always a group that does not expand. */
  lemma CatchNeverExpands(props: seq<BindingProperty>, gp: AncestorNode, ggp: AncestorNode)
    ensures Layout(ObjectPatternNode(props, false, Ancestry(CatchParameterNode, gp, ggp))) == Group(false)
  {
  }

  /**
   * Three plain identifiers expand an annotated parameter pattern but not the
   * same pattern bound by `catch`.
   */
  lemma ParameterAndCatchDiffer(a: BindingProperty, b: BindingProperty, c: BindingProperty, gp: AncestorNode, ggp: AncestorNode)
    requires a.value == BindingIdentifier && b.value == BindingIdentifier && c.value == BindingIdentifier
    ensures Layout(ObjectPatternNode([a, b, c], false,
      Ancestry(FormalParameterNode(false, Some(TypeAnnotation(false))), gp, ggp))) == Group(true)
    ensures Layout(ObjectPatternNode([a, b, c], false, Ancestry(CatchParameterNode, gp, ggp))) == Group(false)
  {
  }

  /**
   * The arrow exemption: a pattern of plain identifiers in an unannotated
   * arrow-function parameter does not expand, however many properties it has.
   */
  lemma ArrowParameterExempt(props: seq<BindingProperty>, gp: AncestorNode)
    requires forall i :: 0 <= i < |props| ==> props[i].value == BindingIdentifier
    ensures Layout(ObjectPatternNode(props, false,
      Ancestry(FormalParameterNode(false, None), gp, ArrowFunctionExpressionNode))) == Group(false)
  {
  }

  /**
   * The same identifiers in an annotated arrow-function parameter do expand
   * once there are three of them.
   */
  lemma AnnotatedArrowParameterExpands(props: seq<BindingProperty>, gp: AncestorNode, ann: TypeAnnotation)
    requires |props| >= 3
    ensures Layout(ObjectPatternNode(props, false,
      Ancestry(FormalParameterNode(false, Some(ann)), gp, ArrowFunctionExpressionNode))) == Group(true)
  {
  }

  /**
   * A property with a default (`{ a = 1 }`) expands a parameter pattern but
   * not a declaration's pattern, where only nested destructuring counts.
   */
  lemma DefaultedIdentifierBreaksOnlyInParameters(gp: AncestorNode, ggp: AncestorNode, ann: Option<TypeAnnotation>)
    ensures var props := [BindingProperty(AssignmentPattern(BindingIdentifier))];
      && Layout(ObjectPatternNode(props, false, Ancestry(FormalParameterNode(false, ann), gp, ggp))) == Group(true)
      && Layout(ObjectPatternNode(props, false, Ancestry(VariableDeclaratorNode, gp, ggp))) == Inline
  {
    var props := [BindingProperty(AssignmentPattern(BindingIdentifier))];
    assert IsComplexValue(props[0].value);
  }

  /** Outside parameters, a defaulted nested pattern (`{ a: { b } = {} }`) expands. */
  lemma DefaultedNestedPatternBreaks(left: BindingPattern, ancestry: Ancestry)
    requires left.ObjectPattern? || left.ArrayPattern?
    requires !ancestry.parent.FormalParameterNode? && ancestry.parent != CatchParameterNode
    requires ancestry.parent != BindingIdentifierNode
    ensures Layout(ObjectPatternNode([BindingProperty(AssignmentPattern(left))], false, ancestry)) == Group(true)
  {
    var props := [BindingProperty(AssignmentPattern(left))];
    assert IsNestedDestructuring(props[0].value);
  }

  /**
   * For an assignment target only a directly nested target expands; the same
   * target behind a default (`({ a: { b } = {} } = o)`) does not.
   */
  lemma DefaultedNestedTargetDoesNotBreak(t: AssignmentTarget, ancestry: Ancestry)
    requires t.ObjectAssignmentTarget? || t.ArrayAssignmentTarget?
    ensures ShouldBreakProperties(ObjectAssignmentTargetNode(
      [AssignmentTargetPropertyProperty(Target(t))], false, ancestry))
    ensures !ShouldBreakProperties(ObjectAssignmentTargetNode(
      [AssignmentTargetPropertyProperty(AssignmentTargetWithDefault(t))], false, ancestry))
  {
    var direct := [AssignmentTargetPropertyProperty(Target(t))];
    assert IsNestedTarget(direct[0]);
  }

  /** Shorthand properties never expand an assignment target. */
  lemma ShorthandTargetsDoNotBreak(props: seq<AssignmentTargetProperty>, ancestry: Ancestry)
    requires forall i :: 0 <= i < |props| ==> props[i] == AssignmentTargetPropertyIdentifier
    ensures !ShouldBreakProperties(ObjectAssignmentTargetNode(props, false, ancestry))
  {
  }

  /** An empty pattern's output is the same whatever the bracket-spacing option says. */
  lemma EmptyIgnoresBracketSpacing(p: ObjectPatternLike)
    requires IsEmpty(p)
    ensures Fmt(p, true) == Fmt(p, false) == [Token("{"), BlockIndentedDanglingComments, Token("}")]
  {
  }
}
