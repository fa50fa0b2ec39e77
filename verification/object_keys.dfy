/**
 * The formatter's property-key quoting policy: whether a string-literal key
 * needs its quotes, whether a numeric key may be quoted (and with what text),
 * the container-wide scan of the "consistent" policy, and the rendering and
 * width of one key under the resulting force flag.
 *
 * Text is a sequence of bytes, one `char` per UTF-8 byte, so every length is
 * the source's byte length. The collaborators the policy only calls
 * (`is_identifier_name`, `f64` parsing and printing, the literal-string token
 * formatter and the source text's display width) are fields of `Host`.
 */
module ObjectKeys {
  import opened Wrappers

  /** An `f64` by its bit pattern; the policy never does arithmetic on it. */
  type F64 = bv64

  /** Only the TypeScript test of the source type matters to the policy. */
  datatype SourceType = SourceType(isTypeScript: bool)

  /** The `quote_style` option. */
  datatype QuoteStyle = Double | Single

  /** The `quote_properties` option. */
  datatype QuoteProperties = AsNeeded | Preserve | Consistent

  /** The context tag handed to the literal-string token formatter. */
  datatype StringLiteralParentKind = Expression | Member | MemberForceQuotes

  /** A string literal: its decoded `value` and its raw text, quotes included, when known. */
  datatype StringLiteral = StringLiteral(value: string, raw: Option<string>)

  /** A numeric literal: its value and its raw text, when known. */
  datatype NumericLiteral = NumericLiteral(value: F64, raw: Option<string>)

  /**
   * The key variants the policy tells apart. A literal key is a string or
   * numeric key whether or not it is written in brackets (`["a-b"]`);
   * `OtherKey` covers private names and every other expression key.
   */
  datatype PropertyKey =
    | StaticIdentifier(name: string)
    | StringLiteralKey(lit: StringLiteral)
    | NumericLiteralKey(num: NumericLiteral)
    | OtherKey

  /** The functions the policy calls but does not define. */
  datatype Host = Host(
    isIdentifierName: string -> bool,
    parseF64: string -> Option<F64>,
    f64ToString: F64 -> string,
    literalTokenWidth: (string, StringLiteralParentKind, SourceType, QuoteStyle, QuoteProperties) -> nat,
    spanWidth: string -> nat)

  // ---------------------------------------------------------------------
  // Numeric keys

  predicate StartsWith(s: string, c: char)
  {
    |s| > 0 && s[0] == c
  }

  predicate EndsWith(s: string, c: char)
  {
    |s| > 0 && s[|s| - 1] == c
  }

  /**
   * A raw numeric literal whose quoted form is its normalised value: it is
   * already the normalised text, or a leading or trailing `.` only drops.
   */
  predicate RawNumberQuotable(raw: string, normalized: string)
  {
    normalized == raw || StartsWith(raw, '.') || EndsWith(raw, '.')
  }

  /**
   * `can_quote_numeric_literal`: the normalised text a numeric key may be
   * quoted as, or `None` when quoting would change how it reads.
   */
  function CanQuoteNumericLiteral(num: NumericLiteral, st: SourceType, host: Host): (r: Option<string>)
    ensures st.isTypeScript ==> r == None
    ensures !st.isTypeScript && num.raw.None? ==> r.Some?
    ensures !st.isTypeScript && num.raw.Some? ==>
      (r.Some? <==> RawNumberQuotable(num.raw.value, host.f64ToString(num.value)))
    ensures r.Some? ==> r.value == host.f64ToString(num.value)
  {
    if st.isTypeScript then None
    else
      var normalized := host.f64ToString(num.value);
      match num.raw
      case Some(raw) =>
        if normalized == raw then Some(normalized)
        else if |raw| > 0 && raw[0] == '.' then Some(normalized)
        else if |raw| > 0 && raw[|raw| - 1] == '.' then Some(normalized)
        else None
      case None => Some(normalized)
  }

  // ---------------------------------------------------------------------
  // String keys

  /** The bytes of a raw string literal between its first and last byte. */
  function Inner(raw: string): (content: string)
    requires |raw| >= 2
    ensures |content| == |raw| - 2
    ensures forall i :: 0 <= i < |content| ==> content[i] == raw[i + 1]
  {
    raw[1..|raw| - 1]
  }

  /** The raw text between the quotes differs from the value: the source spells it with escapes. */
  predicate HasEscapeMismatch(lit: StringLiteral)
  {
    lit.raw.Some? && |lit.raw.value| >= 2 && Inner(lit.raw.value) != lit.value
  }

  predicate IsAsciiDigit(c: char)
  {
    '0' <= c <= '9'
  }

  /**
   * In JavaScript, a text that starts with a digit and that `f64` parsing and
   * printing reproduces exactly reads the same as a bare numeric key.
   */
  predicate IsPlainNumber(value: string, st: SourceType, host: Host)
  {
    && !st.isTypeScript
    && |value| > 0 && IsAsciiDigit(value[0])
    && host.parseF64(value).Some?
    && host.f64ToString(host.parseF64(value).value) == value
  }

  /** The key may be written without quotes: as an identifier or as a plain number. */
  predicate HasBareForm(value: string, st: SourceType, host: Host)
  {
    host.isIdentifierName(value) || IsPlainNumber(value, st, host)
  }

  /** `string_literal_key_requires_quotes`. */
  function StringLiteralKeyRequiresQuotes(lit: StringLiteral, st: SourceType, host: Host): (r: bool)
    ensures HasEscapeMismatch(lit) ==> r
    ensures !HasEscapeMismatch(lit) ==> (r <==> !HasBareForm(lit.value, st, host))
  {
    var value := lit.value;
    var escaped :=
      match lit.raw
      case Some(raw) => |raw| >= 2 && raw[1..|raw| - 1] != value
      case None => false;
    if escaped then true
    else if host.isIdentifierName(value) then false
    else if !st.isTypeScript && |value| > 0 && '0' <= value[0] <= '9' then
      match host.parseF64(value)
      case Some(parsed) => host.f64ToString(parsed) != value
      case None => true
    else true
  }

  // ---------------------------------------------------------------------
  // Container scans

  /** A member of an object literal. */
  datatype ObjectPropertyKind = ObjectProperty(propKey: PropertyKey) | SpreadProperty

  /** A member of a TypeScript type literal; only property signatures are scanned. */
  datatype TSSignature =
    | TSPropertySignature(sigKey: PropertyKey)
    | TSMethodSignature(methodKey: PropertyKey)
    | TSIndexSignature
    | TSCallSignature
    | TSConstructSignature

  /** A member of a class body; static blocks and index signatures have no key. */
  datatype ClassElement =
    | PropertyDefinition(defKey: PropertyKey)
    | MethodDefinition(methodDefKey: PropertyKey)
    | AccessorProperty(accessorKey: PropertyKey)
    | StaticBlock
    | ClassIndexSignature

  /** A key that is a string literal requiring its quotes. */
  predicate KeyRequiresQuotes(key: PropertyKey, st: SourceType, host: Host)
  {
    key.StringLiteralKey? && StringLiteralKeyRequiresQuotes(key.lit, st, host)
  }

  /** The key an object member contributes to the scan, if any. */
  function ObjectMemberKey(p: ObjectPropertyKind): (r: Option<PropertyKey>)
    ensures r.Some? <==> p.ObjectProperty?
  {
    match p
    case ObjectProperty(key) => Some(key)
    case SpreadProperty => None
  }

  /** The key a type-literal member contributes to the scan, if any. */
  function TypeLiteralMemberKey(m: TSSignature): (r: Option<PropertyKey>)
    ensures r.Some? <==> m.TSPropertySignature?
  {
    match m
    case TSPropertySignature(key) => Some(key)
    case _ => None
  }

  /** The key a class element contributes to the scan, if any. */
  function ClassElementKey(e: ClassElement): (r: Option<PropertyKey>)
    ensures r.Some? <==> (e.PropertyDefinition? || e.MethodDefinition? || e.AccessorProperty?)
  {
    match e
    case PropertyDefinition(key) => Some(key)
    case MethodDefinition(key) => Some(key)
    case AccessorProperty(key) => Some(key)
    case _ => None
  }

  /** A scanned member whose key is a string literal requiring its quotes. */
  predicate Triggers(key: Option<PropertyKey>, st: SourceType, host: Host)
  {
    key.Some? && KeyRequiresQuotes(key.value, st, host)
  }

  /** `object_has_property_requiring_quotes`. */
  method ObjectHasPropertyRequiringQuotes(props: seq<ObjectPropertyKind>, st: SourceType, host: Host)
    returns (r: bool)
    ensures r <==> exists i :: 0 <= i < |props| && Triggers(ObjectMemberKey(props[i]), st, host)
  {
    for i := 0 to |props|
      invariant forall j :: 0 <= j < i ==> !Triggers(ObjectMemberKey(props[j]), st, host)
    {
      if props[i].ObjectProperty? && props[i].propKey.StringLiteralKey? {
        if StringLiteralKeyRequiresQuotes(props[i].propKey.lit, st, host) {
          return true;
        }
      }
    }
    return false;
  }

  /** `type_literal_has_property_requiring_quotes`. */
  method TypeLiteralHasPropertyRequiringQuotes(members: seq<TSSignature>, st: SourceType, host: Host)
    returns (r: bool)
    ensures r <==> exists i :: 0 <= i < |members| && Triggers(TypeLiteralMemberKey(members[i]), st, host)
  {
    for i := 0 to |members|
      invariant forall j :: 0 <= j < i ==> !Triggers(TypeLiteralMemberKey(members[j]), st, host)
    {
      if members[i].TSPropertySignature? && members[i].sigKey.StringLiteralKey? {
        if StringLiteralKeyRequiresQuotes(members[i].sigKey.lit, st, host) {
          return true;
        }
      }
    }
    return false;
  }

  /** `class_body_has_property_requiring_quotes`. */
  method ClassBodyHasPropertyRequiringQuotes(body: seq<ClassElement>, st: SourceType, host: Host)
    returns (r: bool)
    ensures r <==> exists i :: 0 <= i < |body| && Triggers(ClassElementKey(body[i]), st, host)
  {
    for i := 0 to |body|
      invariant forall j :: 0 <= j < i ==> !Triggers(ClassElementKey(body[j]), st, host)
    {
      match body[i]
      case PropertyDefinition(key) =>
        if key.StringLiteralKey? && StringLiteralKeyRequiresQuotes(key.lit, st, host) {
          return true;
        }
      case MethodDefinition(key) =>
        if key.StringLiteralKey? && StringLiteralKeyRequiresQuotes(key.lit, st, host) {
          return true;
        }
      case AccessorProperty(key) =>
        if key.StringLiteralKey? && StringLiteralKeyRequiresQuotes(key.lit, st, host) {
          return true;
        }
      case _ =>
    }
    return false;
  }

  /** `should_force_quotes_for_object`. */
  method ShouldForceQuotesForObject(props: seq<ObjectPropertyKind>, policy: QuoteProperties, st: SourceType, host: Host)
    returns (r: bool)
    ensures policy != Consistent ==> !r
    ensures policy == Consistent ==>
      (r <==> exists i :: 0 <= i < |props| && Triggers(ObjectMemberKey(props[i]), st, host))
  {
    r := false;
    if policy == Consistent {
      r := ObjectHasPropertyRequiringQuotes(props, st, host);
    }
  }

  /** `should_force_quotes_for_type_literal`. */
  method ShouldForceQuotesForTypeLiteral(members: seq<TSSignature>, policy: QuoteProperties, st: SourceType, host: Host)
    returns (r: bool)
    ensures policy != Consistent ==> !r
    ensures policy == Consistent ==>
      (r <==> exists i :: 0 <= i < |members| && Triggers(TypeLiteralMemberKey(members[i]), st, host))
  {
    r := false;
    if policy == Consistent {
      r := TypeLiteralHasPropertyRequiringQuotes(members, st, host);
    }
  }

  /** `should_force_quotes_for_class_body`. */
  method ShouldForceQuotesForClassBody(body: seq<ClassElement>, policy: QuoteProperties, st: SourceType, host: Host)
    returns (r: bool)
    ensures policy != Consistent ==> !r
    ensures policy == Consistent ==>
      (r <==> exists i :: 0 <= i < |body| && Triggers(ClassElementKey(body[i]), st, host))
  {
    r := false;
    if policy == Consistent {
      r := ClassBodyHasPropertyRequiringQuotes(body, st, host);
    }
  }

  // ---------------------------------------------------------------------
  // Rendering one key

  /** The node a key hangs off: only class property definitions are told apart. */
  datatype KeyParent = PropertyDefinitionParent | OtherKeyParent

  /** A key as the formatter sees it: the key, its parent, and its span's source text. */
  datatype KeyNode = KeyNode(key: PropertyKey, parent: KeyParent, sourceText: string)

  /** The options and context the rendering reads. */
  datatype KeyContext = KeyContext(
    forceQuotes: bool, quoteStyle: QuoteStyle, quoteProperties: QuoteProperties, sourceType: SourceType)

  /** What is written for a key. */
  datatype KeyOutput =
    | LiteralStringToken(source: string, kind: StringLiteralParentKind)  // handed to the token formatter
    | QuotedText(text: string)                                           // synthesised text
    | OwnFormat                                                          // written by the key node's own formatter

  /** A key's output and the width `write_member_name` reports for it. */
  datatype MemberName = MemberName(output: KeyOutput, width: nat)

  /** `'"'` for double quotes, `'\''` otherwise. */
  function QuoteChar(style: QuoteStyle): (q: char)
    ensures q == '"' <==> style == Double
    ensures q == '"' || q == '\''
  {
    if style.Double? then '"' else '\''
  }

  /** `format!("{quote}{text}{quote}")`. */
  function Quote(style: QuoteStyle, text: string): (quoted: string)
    ensures |quoted| == |text| + 2
    ensures quoted[0] == QuoteChar(style) && quoted[|quoted| - 1] == QuoteChar(style)
    ensures Inner(quoted) == text
  {
    [QuoteChar(style)] + text + [QuoteChar(style)]
  }

  /** The literal `"constructor"`. */
  const ConstructorName: string := "constructor"

  /** The tag `format_property_key` passes for a string-literal key. */
  function PropertyKeyTag(forceQuotes: bool, parent: KeyParent, value: string): (kind: StringLiteralParentKind)
    ensures forceQuotes ==> kind == MemberForceQuotes
    ensures !forceQuotes ==>
      (kind == Expression <==> parent == PropertyDefinitionParent && value == ConstructorName)
    ensures kind != Expression ==> (kind == MemberForceQuotes <==> forceQuotes)
  {
    if forceQuotes then MemberForceQuotes
    else if parent.PropertyDefinitionParent? && value == ConstructorName then Expression
    else Member
  }

  /** The tag `write_member_name` passes for a string-literal key: no `constructor` case. */
  function MemberNameTag(forceQuotes: bool): (kind: StringLiteralParentKind)
    ensures kind != Expression
    ensures kind == MemberForceQuotes <==> forceQuotes
  {
    if forceQuotes then MemberForceQuotes else Member
  }

  /** `format_property_key`. */
  function FormatPropertyKey(node: KeyNode, ctx: KeyContext, host: Host): (r: KeyOutput)
    ensures node.key.StringLiteralKey? <==> r.LiteralStringToken?
    ensures r.LiteralStringToken? ==>
      r.source == node.sourceText && r.kind == PropertyKeyTag(ctx.forceQuotes, node.parent, node.key.lit.value)
    ensures r.QuotedText? ==> ctx.forceQuotes && (node.key.StaticIdentifier? || node.key.NumericLiteralKey?)
    ensures ctx.forceQuotes && node.key.StaticIdentifier? ==> r == QuotedText(Quote(ctx.quoteStyle, node.key.name))
    ensures ctx.forceQuotes && node.key.NumericLiteralKey? ==>
      match CanQuoteNumericLiteral(node.key.num, ctx.sourceType, host)
      case Some(normalized) => r == QuotedText(Quote(ctx.quoteStyle, normalized))
      case None => r == OwnFormat
  {
    match node.key
    case StringLiteralKey(s) =>
      LiteralStringToken(node.sourceText, PropertyKeyTag(ctx.forceQuotes, node.parent, s.value))
    case StaticIdentifier(name) =>
      if ctx.forceQuotes then QuotedText(Quote(ctx.quoteStyle, name)) else OwnFormat
    case NumericLiteralKey(num) =>
      if ctx.forceQuotes then
        match CanQuoteNumericLiteral(num, ctx.sourceType, host)
        case Some(normalized) => QuotedText(Quote(ctx.quoteStyle, normalized))
        case None => OwnFormat
      else OwnFormat
    case OtherKey => OwnFormat
  }

  /** `write_member_name`: the output and the width it reports. */
  function WriteMemberName(node: KeyNode, ctx: KeyContext, host: Host): (r: MemberName)
    ensures r.output.LiteralStringToken? ==>
      r.width == host.literalTokenWidth(node.sourceText, r.output.kind, ctx.sourceType, ctx.quoteStyle, ctx.quoteProperties)
    ensures r.output.QuotedText? ==> r.width == |r.output.text|
    ensures r.output.OwnFormat? ==> r.width == host.spanWidth(node.sourceText)
    ensures node.key.StringLiteralKey? ==>
      r.output == LiteralStringToken(node.sourceText, MemberNameTag(ctx.forceQuotes))
  {
    match node.key
    case StringLiteralKey(_) =>
      var kind := MemberNameTag(ctx.forceQuotes);
      var width := host.literalTokenWidth(node.sourceText, kind, ctx.sourceType, ctx.quoteStyle, ctx.quoteProperties);
      MemberName(LiteralStringToken(node.sourceText, kind), width)
    case StaticIdentifier(name) =>
      if ctx.forceQuotes then
        var quoted := Quote(ctx.quoteStyle, name);
        MemberName(QuotedText(quoted), |quoted|)
      else MemberName(OwnFormat, host.spanWidth(node.sourceText))
    case NumericLiteralKey(num) =>
      if ctx.forceQuotes then
        match CanQuoteNumericLiteral(num, ctx.sourceType, host)
        case Some(normalized) =>
          var quoted := Quote(ctx.quoteStyle, normalized);
          MemberName(QuotedText(quoted), |quoted|)
        case None => MemberName(OwnFormat, host.spanWidth(node.sourceText))
      else MemberName(OwnFormat, host.spanWidth(node.sourceText))
    case OtherKey => MemberName(OwnFormat, host.spanWidth(node.sourceText))
  }

  /**
   * The keys of one object literal as its formatter renders them: the force
   * flag is decided once for the container, then every property key is
   * rendered under it. `sourceTexts[i]` is the source text of member `i`'s key.
   */
  method FormatObjectLiteralKeys(props: seq<ObjectPropertyKind>, sourceTexts: seq<string>,
                                 policy: QuoteProperties, style: QuoteStyle, st: SourceType, host: Host)
    returns (force: bool, outs: seq<Option<KeyOutput>>)
    requires |sourceTexts| == |props|
    ensures force <==> (policy == Consistent
                        && exists j :: 0 <= j < |props| && Triggers(ObjectMemberKey(props[j]), st, host))
    ensures |outs| == |props|
    ensures forall i :: 0 <= i < |props| ==> (outs[i].Some? <==> props[i].ObjectProperty?)
    ensures force ==> forall i :: 0 <= i < |props| && props[i].ObjectProperty? && props[i].propKey.StaticIdentifier? ==>
      outs[i] == Some(QuotedText(Quote(style, props[i].propKey.name)))
    ensures force ==> forall i :: 0 <= i < |props| && props[i].ObjectProperty? && props[i].propKey.StringLiteralKey? ==>
      outs[i] == Some(LiteralStringToken(sourceTexts[i], MemberForceQuotes))
    ensures force ==> forall i :: 0 <= i < |props| && props[i].ObjectProperty? && props[i].propKey.NumericLiteralKey? ==>
      match CanQuoteNumericLiteral(props[i].propKey.num, st, host)
      case Some(normalized) => outs[i] == Some(QuotedText(Quote(style, normalized)))
      case None => outs[i] == Some(OwnFormat)
    ensures !force ==> forall i :: 0 <= i < |props| && props[i].ObjectProperty? && !props[i].propKey.StringLiteralKey? ==>
      outs[i] == Some(OwnFormat)
    ensures !force ==> forall i :: 0 <= i < |props| && props[i].ObjectProperty? && props[i].propKey.StringLiteralKey? ==>
      outs[i] == Some(LiteralStringToken(sourceTexts[i], Member))
    ensures forall i :: 0 <= i < |props| && props[i].ObjectProperty? ==>
      outs[i] == Some(FormatPropertyKey(KeyNode(props[i].propKey, OtherKeyParent, sourceTexts[i]),
                                        KeyContext(force, style, policy, st), host))
  {
    force := ShouldForceQuotesForObject(props, policy, st, host);
    var ctx := KeyContext(force, style, policy, st);
    outs := [];
    for i := 0 to |props|
      invariant |outs| == i
      invariant forall k :: 0 <= k < i ==> (outs[k].Some? <==> props[k].ObjectProperty?)
      invariant forall k :: 0 <= k < i && props[k].ObjectProperty? ==>
        outs[k] == Some(FormatPropertyKey(KeyNode(props[k].propKey, OtherKeyParent, sourceTexts[k]), ctx, host))
    {
      match props[i]
      case ObjectProperty(key) =>
        outs := outs + [Some(FormatPropertyKey(KeyNode(key, OtherKeyParent, sourceTexts[i]), ctx, host))];
      case SpreadProperty =>
        outs := outs + [None];
    }
  }

  // ---------------------------------------------------------------------
  // Properties

  /** A string key written with escapes keeps its quotes even when its value is an identifier. */
  lemma EscapedKeyKeepsQuotes(lit: StringLiteral, st: SourceType, host: Host)
    requires HasEscapeMismatch(lit)
    ensures StringLiteralKeyRequiresQuotes(lit, st, host)
  {
  }

  /** Without escapes, an identifier-name value never needs quotes. */
  lemma IdentifierKeyNeedsNoQuotes(lit: StringLiteral, st: SourceType, host: Host)
    requires !HasEscapeMismatch(lit) && host.isIdentifierName(lit.value)
    ensures !StringLiteralKeyRequiresQuotes(lit, st, host)
  {
  }

  /** In TypeScript, numbers are no bare form: only identifier names lose their quotes. */
  lemma TypeScriptKeepsNumberQuotes(lit: StringLiteral, host: Host)
    requires !host.isIdentifierName(lit.value)
    ensures StringLiteralKeyRequiresQuotes(lit, SourceType(true), host)
  {
  }

  /**
   * Re-reading a synthesised key: the text a forced identifier key is written
   * as, read back as a string literal, does not itself require quotes. So
   * forcing quotes never makes a container look as if it needed forcing.
   */
  lemma QuotedIdentifierNeedsNoQuotes(name: string, style: QuoteStyle, st: SourceType, host: Host)
    requires host.isIdentifierName(name)
    ensures !StringLiteralKeyRequiresQuotes(StringLiteral(name, Some(Quote(style, name))), st, host)
  {
  }

  /**
   * The same for a quoted numeric key in JavaScript, given that printing the
   * value starts with a digit and that parsing the printed text gives the
   * value back.
   */
  lemma QuotedNumberNeedsNoQuotes(num: NumericLiteral, style: QuoteStyle, host: Host)
    requires CanQuoteNumericLiteral(num, SourceType(false), host).Some?
    requires var t := host.f64ToString(num.value);
      |t| > 0 && IsAsciiDigit(t[0]) && host.parseF64(t) == Some(num.value)
    ensures
      var t := CanQuoteNumericLiteral(num, SourceType(false), host).value;
      !StringLiteralKeyRequiresQuotes(StringLiteral(t, Some(Quote(style, t))), SourceType(false), host)
  {
  }

  /** `.5` and `5.` are quoted as their normalised text, here `0.5` and `5`. */
  lemma DotEdgedNumbersQuote(half: F64, five: F64, host: Host)
    requires host.f64ToString(half) == "0.5" && host.f64ToString(five) == "5"
    ensures CanQuoteNumericLiteral(NumericLiteral(half, Some(".5")), SourceType(false), host) == Some("0.5")
    ensures CanQuoteNumericLiteral(NumericLiteral(five, Some("5.")), SourceType(false), host) == Some("5")
  {
  }

  /** `1.0`, `1e2` and `0b10` stay numeric: their normalised text differs from what was written. */
  lemma RewrittenNumbersStayNumeric(one: F64, hundred: F64, two: F64, host: Host)
    requires host.f64ToString(one) == "1" && host.f64ToString(hundred) == "100" && host.f64ToString(two) == "2"
    ensures CanQuoteNumericLiteral(NumericLiteral(one, Some("1.0")), SourceType(false), host) == None
    ensures CanQuoteNumericLiteral(NumericLiteral(hundred, Some("1e2")), SourceType(false), host) == None
    ensures CanQuoteNumericLiteral(NumericLiteral(two, Some("0b10")), SourceType(false), host) == None
  {
  }

  /** `1.5` prints as written, so it may be quoted. */
  lemma ExactDecimalQuotes(v: F64, host: Host)
    requires host.f64ToString(v) == "1.5"
    ensures CanQuoteNumericLiteral(NumericLiteral(v, Some("1.5")), SourceType(false), host) == Some("1.5")
  {
  }

  /**
   * The two renderings agree on every key except a `"constructor"` string key
   * of a class property definition outside forced quoting, which
   * `format_property_key` tags `Expression` and `write_member_name` tags `Member`.
   */
  lemma WriteMemberNameAgreesWithFormat(node: KeyNode, ctx: KeyContext, host: Host)
    ensures
      var constructorCase := !ctx.forceQuotes && node.parent == PropertyDefinitionParent
        && node.key.StringLiteralKey? && node.key.lit.value == ConstructorName;
      && (!constructorCase ==> WriteMemberName(node, ctx, host).output == FormatPropertyKey(node, ctx, host))
      && (constructorCase ==>
            FormatPropertyKey(node, ctx, host) == LiteralStringToken(node.sourceText, Expression)
            && WriteMemberName(node, ctx, host).output == LiteralStringToken(node.sourceText, Member))
  {
  }

  /** A forced identifier key is two bytes wider than its name. */
  lemma ForcedIdentifierWidth(node: KeyNode, ctx: KeyContext, host: Host)
    requires ctx.forceQuotes && node.key.StaticIdentifier?
    ensures WriteMemberName(node, ctx, host).width == |node.key.name| + 2
  {
  }

  /** A quoted numeric key is two bytes wider than its normalised text. */
  lemma QuotedNumberWidth(node: KeyNode, ctx: KeyContext, host: Host)
    requires ctx.forceQuotes && node.key.NumericLiteralKey?
    requires CanQuoteNumericLiteral(node.key.num, ctx.sourceType, host).Some?
    ensures WriteMemberName(node, ctx, host).width == |host.f64ToString(node.key.num.value)| + 2
  {
  }

  /**
   * Under forced quoting every key the policy can quote comes out between
   * the style's quote characters: identifiers always, numbers whenever they
   * are quotable; string keys are tagged for forced quoting.
   */
  lemma ForcedKeysAreQuoted(node: KeyNode, ctx: KeyContext, host: Host)
    requires ctx.forceQuotes
    ensures node.key.StringLiteralKey? ==> FormatPropertyKey(node, ctx, host).kind == MemberForceQuotes
    ensures node.key.StaticIdentifier? || (node.key.NumericLiteralKey? &&
              CanQuoteNumericLiteral(node.key.num, ctx.sourceType, host).Some?) ==>
      var r := FormatPropertyKey(node, ctx, host);
      r.QuotedText? && |r.text| >= 2
      && r.text[0] == QuoteChar(ctx.quoteStyle) && r.text[|r.text| - 1] == QuoteChar(ctx.quoteStyle)
  {
  }

  /** Without forced quoting, only string keys reach the token formatter; every other key is written by its own formatter, with the span width. */
  lemma UnforcedKeysUseOwnFormat(node: KeyNode, ctx: KeyContext, host: Host)
    requires !ctx.forceQuotes && !node.key.StringLiteralKey?
    ensures FormatPropertyKey(node, ctx, host) == OwnFormat
    ensures WriteMemberName(node, ctx, host) == MemberName(OwnFormat, host.spanWidth(node.sourceText))
  {
  }
}
