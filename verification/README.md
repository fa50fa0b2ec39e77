# oxc formatter key quoting, `Ident` handle and object-pattern layout in Dafny

This project models three pure decision components of the oxc JavaScript/TypeScript toolchain and proves properties of them:

- **Property-key quoting** (`ObjectKeys`, `object_keys.dfy`). It covers:
  - whether a string-literal key needs its quotes;
  - whether a numeric key may be quoted, and as which text;
  - the container-wide scan that forces quotes under the "consistent" `quote_properties` policy. It runs over object literals, type literals and class bodies;
  - how `format_property_key` and `write_member_name` render one key, and the width the latter reports.
- **The `Ident` handle** (`SpanIdent`, `span_ident.dfy`). A non-empty identifier text with one `u64` word. The word's low 32 bits hold the byte length and its high 32 bits hold the top of the text's hash. `usize`/`u64` quantities are `bv64`, so masks, `|` and `rotate_left` are the source's own bit operations. The model covers:
  - construction;
  - the two-stage equality;
  - comparison with plain text;
  - the word written by `Hash`;
  - the `FromIn`/`CloneIn`/`Dummy` constructors.
- **Object-pattern layout** (`PatternLike`, `pattern_like.dfy`). The choice between `Empty`, `Inline` and `Group { expand }` for an object binding pattern or object assignment target, from its properties and ancestors, and the brace shape of `fmt`.

`wrappers.dfy` holds the shared `Option` type.

Text is `seq<char>` with one element per UTF-8 byte, so every length is a byte length as in the source. The functions the policy calls but does not define are fields of `ObjectKeys.Host`:
- `is_identifier_name`;
- `f64` parsing and printing, with an `f64` kept as its bit pattern;
- the string-token formatter's width, given the source text, the tag, the source type, the quote style and the `quote_properties` policy;
- the source text's display width.

The FxHasher is a `string -> bv64` parameter of `SpanIdent`.

## Model

| member | source | states |
|---|---|---|
| ObjectKeys.CanQuoteNumericLiteral | crates/oxc_formatter/src/utils/object.rs:22-54 | `None` in TypeScript whatever the literal. In JavaScript it is `Some` when there is no raw text, and otherwise exactly when the raw text equals the normalised text, starts with `.` or ends with `.`. The payload is always the normalised text. |
| ObjectKeys.DotEdgedNumbersQuote | crates/oxc_formatter/src/utils/object.rs:38-46 | `.5` is quoted as `0.5` and `5.` as `5`: the normalised text, not the raw one. |
| ObjectKeys.RewrittenNumbersStayNumeric | crates/oxc_formatter/src/utils/object.rs:34-49 | `1.0`, `1e2` and `0b10` cannot be quoted, because their normalised text differs from what was written. |
| ObjectKeys.ExactDecimalQuotes | crates/oxc_formatter/src/utils/object.rs:33-36 | `1.5`, whose normalised text is itself, can be quoted. |
| ObjectKeys.Inner | crates/oxc_formatter/src/utils/object.rs:68-69 | The content between the first and last byte is two bytes shorter than the raw text, and its byte i is the raw text's byte i+1. |
| ObjectKeys.StringLiteralKeyRequiresQuotes | crates/oxc_formatter/src/utils/object.rs:60-97 | A key spelled with escapes always requires quotes. Otherwise it requires quotes exactly when its value has no bare form. A bare form is an identifier name or, in JavaScript only, a digit-led text that parsing and printing reproduce. |
| ObjectKeys.EscapedKeyKeepsQuotes | crates/oxc_formatter/src/utils/object.rs:65-75 | An escape mismatch forces quotes even when the value is an identifier name. |
| ObjectKeys.IdentifierKeyNeedsNoQuotes | crates/oxc_formatter/src/utils/object.rs:77-80 | Without escapes, an identifier-name value never requires quotes. |
| ObjectKeys.TypeScriptKeepsNumberQuotes | crates/oxc_formatter/src/utils/object.rs:82-96 | In TypeScript every non-identifier value requires quotes, numbers included. |
| ObjectKeys.QuotedIdentifierNeedsNoQuotes | crates/oxc_formatter/src/utils/object.rs:163-169 | Read back as a string literal, a forced identifier key's text does not itself require quotes. |
| ObjectKeys.QuotedNumberNeedsNoQuotes | crates/oxc_formatter/src/utils/object.rs:170-182 | In JavaScript, a quoted numeric key read back does not require quotes. This holds when the printed number starts with a digit and parses back to its value. |
| ObjectKeys.ObjectMemberKey | crates/oxc_formatter/src/utils/object.rs:105-107 | Only `ObjectProperty` members contribute a key to the object scan. |
| ObjectKeys.TypeLiteralMemberKey | crates/oxc_formatter/src/utils/object.rs:123-125 | Only `TSPropertySignature` members contribute a key to the type-literal scan. |
| ObjectKeys.ClassElementKey | crates/oxc_formatter/src/utils/object.rs:215-239 | Only property definitions, method definitions and accessor properties contribute a key to the class scan. |
| ObjectKeys.ObjectHasPropertyRequiringQuotes | crates/oxc_formatter/src/utils/object.rs:101-115 | True iff some object property has a string-literal key requiring quotes. |
| ObjectKeys.TypeLiteralHasPropertyRequiringQuotes | crates/oxc_formatter/src/utils/object.rs:119-133 | True iff some property signature has a string-literal key requiring quotes. |
| ObjectKeys.ClassBodyHasPropertyRequiringQuotes | crates/oxc_formatter/src/utils/object.rs:211-242 | True iff some property definition, method definition or accessor property has a string-literal key requiring quotes. |
| ObjectKeys.ShouldForceQuotesForObject | crates/oxc_formatter/src/utils/object.rs:191-197 | False unless the policy is `Consistent`, and under `Consistent` equal to the object scan. |
| ObjectKeys.ShouldForceQuotesForTypeLiteral | crates/oxc_formatter/src/utils/object.rs:201-207 | False unless the policy is `Consistent`, and under `Consistent` equal to the type-literal scan. |
| ObjectKeys.ShouldForceQuotesForClassBody | crates/oxc_formatter/src/utils/object.rs:246-252 | False unless the policy is `Consistent`, and under `Consistent` equal to the class-body scan. |
| ObjectKeys.FormatObjectLiteralKeys | crates/oxc_formatter/src/utils/object.rs:135-138 | Force is on iff the policy is `Consistent` and some property key requires quotes. Every property key is rendered as `format_property_key` renders it under that one flag, and spread members produce no key. Under force: identifier keys come out quoted, quotable numbers come out as their quoted normalised text (others are written by the key's own formatter), and string keys are tagged for forced quoting. Without force: string keys are tagged `Member` and every other key is written by its own formatter. |
| ObjectKeys.QuoteChar | crates/oxc_formatter/src/utils/object.rs:165 | The quote is `"` exactly for the double style, and `'` otherwise. |
| ObjectKeys.Quote | crates/oxc_formatter/src/utils/object.rs:166 | The quoted text is two bytes longer, starts and ends with the style's quote, and its inner part is the text. |
| ObjectKeys.PropertyKeyTag | crates/oxc_formatter/src/utils/object.rs:145-153 | `MemberForceQuotes` under force. Otherwise `Expression` exactly for a `"constructor"` key of a class property definition, and `Member` for the rest. |
| ObjectKeys.MemberNameTag | crates/oxc_formatter/src/utils/object.rs:264-268 | Never `Expression`; `MemberForceQuotes` exactly under force. |
| ObjectKeys.FormatPropertyKey | crates/oxc_formatter/src/utils/object.rs:139-187 | String keys, and only they, go to the token formatter with their source text and tag. Synthesised text appears only under force, for identifier and numeric keys. A forced identifier is the quoted name. A forced number is the quoted normalised text when quotable, else it is written by the key's own formatter. Every other key is written by its own formatter. |
| ObjectKeys.WriteMemberName | crates/oxc_formatter/src/utils/object.rs:256-309 | The reported width depends on the output. For a string token it is the cleaned token's width, which depends on the source text, the tag, the source type, the quote style and the `quote_properties` policy. For synthesised text it is the byte length, and for a key written by its own formatter the source span's width. String keys are tagged without the `constructor` case. |
| ObjectKeys.WriteMemberNameAgreesWithFormat | crates/oxc_formatter/src/utils/object.rs:143-153 | The two renderings write the same thing for every key but one case. That case is an unforced `"constructor"` key of a property definition, tagged `Expression` by one and `Member` by the other. |
| ObjectKeys.ForcedIdentifierWidth | crates/oxc_formatter/src/utils/object.rs:279-287 | A forced identifier key's width is its name's length plus 2. |
| ObjectKeys.QuotedNumberWidth | crates/oxc_formatter/src/utils/object.rs:288-297 | A quoted numeric key's width is its normalised text's length plus 2. |
| ObjectKeys.ForcedKeysAreQuoted | crates/oxc_formatter/src/utils/object.rs:163-182 | Under force, string keys are tagged for forced quoting. Identifiers always come out between the style's quotes, and quotable numbers do too. |
| ObjectKeys.UnforcedKeysUseOwnFormat | crates/oxc_formatter/src/utils/object.rs:183-185 | Without force, every non-string key is written by the key's own formatter, with the source span's width. |
| SpanIdent.Pack | crates/oxc_span/src/ident.rs:47-55 | OR-ing a length with an empty hash half into a hash with its low half cleared yields a word whose low half is the length and whose high half is the hash's high half. |
| SpanIdent.New | crates/oxc_span/src/ident.rs:35-58 | For non-empty text below 2^32 bytes, the handle designates exactly the given text and its word is well formed. Well formed means the low half is the byte length and the high half is the top of the text's hash. |
| SpanIdent.Len | crates/oxc_span/src/ident.rs:61-64 | `len()` reads the low 32 bits of the word, so it is below 2^32 whatever the word holds. |
| SpanIdent.AsStr | crates/oxc_span/src/ident.rs:66-71 | The text the handle designates. Its contract is stated at `New`: `as_str` of a fresh handle is exactly the text given. |
| SpanIdent.NewLen | crates/oxc_span/src/ident.rs:47-64 | `len()` of a fresh handle is the byte length of its text. |
| SpanIdent.HelloHasLengthFive | crates/oxc_span/src/ident.rs:312-315 | `Ident::new("hello").len()` is 5. |
| SpanIdent.NewHashHalf | crates/oxc_span/src/ident.rs:47-55 | The top 32 bits of a fresh handle's word are the top 32 bits of the text's hash. |
| SpanIdent.Eq | crates/oxc_span/src/ident.rs:92-99 | A true result implies equal texts, and differing words give false. |
| SpanIdent.SameTextSameWord | crates/oxc_span/src/ident.rs:35-58 | Two well-formed handles over equal texts carry equal words. |
| SpanIdent.EqIsTextEquality | crates/oxc_span/src/ident.rs:92-99 | On well-formed handles the fast equality holds exactly when the texts are equal. |
| SpanIdent.NewOfEqualTexts | crates/oxc_span/src/ident.rs:296-302 | Two handles made by `new` are equal iff their texts are. |
| SpanIdent.UnequalWordsShortCircuit | crates/oxc_span/src/ident.rs:95-97 | Differing words make the handles unequal whatever texts they designate. |
| SpanIdent.DifferentLengthsNeverEqual | crates/oxc_span/src/ident.rs:95-97 | Handles with different `len()` are never equal. |
| SpanIdent.EqText | crates/oxc_span/src/ident.rs:101-106 | Comparing a handle with a text holds iff the handle equals a handle over that text carrying the same word. The word stage never decides, so this is plain text equality. It also stands for `Cow == Ident` and `Ident == T: AsRef<str>`. |
| SpanIdent.NewEqText | crates/oxc_span/src/ident.rs:101-106 | Comparing a fresh handle with a text is comparing the handle's original text with it. |
| SpanIdent.EqTextAgreesWithEq | crates/oxc_span/src/ident.rs:129-134 | On well-formed handles, comparing with the other handle's text gives the same answer as comparing the handles. |
| SpanIdent.RotationInjective | crates/oxc_span/src/ident.rs:258 | Rotating left by 25 is injective on 64-bit words. |
| SpanIdent.HashWord | crates/oxc_span/src/ident.rs:248-261 | The word handed to the hasher, rotated back right by 25, is the packed word: nothing is lost. |
| SpanIdent.HashWordInjective | crates/oxc_span/src/ident.rs:248-261 | Handles write equal hash words iff their packed words are equal. |
| SpanIdent.EqualIdentsHashAlike | crates/oxc_span/src/ident.rs:248-261 | Equal handles write equal hash words. |
| SpanIdent.HashWordTopBitsAreHash | crates/oxc_span/src/ident.rs:248-261 | For a well-formed handle, the top 7 written bits are bits 32..38 of the text's hash. |
| SpanIdent.HashWordLowBitsAreHash | crates/oxc_span/src/ident.rs:248-261 | For a well-formed handle, the bottom 25 written bits are bits 39..63 of the text's hash, so no length bit reaches them. |
| SpanIdent.FromInIdent | crates/oxc_span/src/ident.rs:198-204 | The result equals the given handle. |
| SpanIdent.FromInStr | crates/oxc_span/src/ident.rs:206-211 | The result is well formed and designates the given text. |
| SpanIdent.CloneIn | crates/oxc_span/src/ident.rs:229-236 | The clone is well formed, designates the same text and equals the original. |
| SpanIdent.Dummy | crates/oxc_span/src/ident.rs:238-245 | A well-formed handle over the text `x`. |
| PatternLike.IsEmpty | crates/oxc_formatter/src/write/object_pattern_like.rs:34-39 | The node's own emptiness, an input here. Its contract is stated at `Layout`: `Empty` iff this holds. |
| PatternLike.IsInline | crates/oxc_formatter/src/write/object_pattern_like.rs:41-57 | True exactly for a binding pattern whose parent is a binding identifier and whose grandparent is a formal parameter with an initializer. Never for an assignment target. |
| PatternLike.AnyComplexProperty | crates/oxc_formatter/src/write/object_pattern_like.rs:67-73 | True iff some property value is not a plain identifier. |
| PatternLike.AnyNestedProperty | crates/oxc_formatter/src/write/object_pattern_like.rs:105-114 | True iff some property value is an object or array pattern, or a default whose left side is one. |
| PatternLike.AnyNestedTarget | crates/oxc_formatter/src/write/object_pattern_like.rs:118-127 | True iff some non-shorthand property's binding is directly an object or array target. |
| PatternLike.ShouldBreakProperties | crates/oxc_formatter/src/write/object_pattern_like.rs:59-130 | In a formal parameter: break iff the annotation holds a comment, a property is complex, or there are 3+ properties outside an unannotated arrow. Never in a catch clause. Elsewhere: break iff a property nests a destructuring pattern. For targets: break iff a property binds a nested target directly. |
| PatternLike.IsInAssignmentLike | crates/oxc_formatter/src/write/object_pattern_like.rs:132-140 | A pattern is assignment-like iff its parent is a variable declarator. A target is iff its parent is an assignment expression or a variable declarator. |
| PatternLike.Layout | crates/oxc_formatter/src/write/object_pattern_like.rs:142-160 | `Empty` iff empty. `Group(true)` iff not empty, not inline and breaking. `Inline` iff not empty and either hugging or non-breaking and assignment-like. `Group(false)` otherwise. |
| PatternLike.Fmt | crates/oxc_formatter/src/write/object_pattern_like.rs:172-201 | The output is `{`, one part, `}`. The part is dangling comments iff `Empty`, the bare property block iff `Inline`, and a group with the same expand flag iff `Group`. |
| PatternLike.InlineContexts | crates/oxc_formatter/src/write/object_pattern_like.rs:142-160 | `Inline` arises only for a pattern under a binding identifier or declarator, or a target under an assignment or declarator. |
| PatternLike.DefaultedParameterHugs | crates/oxc_formatter/src/write/object_pattern_like.rs:143-149 | A non-empty pattern that is a default-valued parameter is `Inline` whatever its properties. |
| PatternLike.AssignmentTargetNeverHugs | crates/oxc_formatter/src/write/object_pattern_like.rs:55 | An assignment target is never inline by the hugging rule. |
| PatternLike.CatchNeverExpands | crates/oxc_formatter/src/write/object_pattern_like.rs:100-102 | A non-empty pattern bound by `catch` is always `Group(false)`. |
| PatternLike.ParameterAndCatchDiffer | crates/oxc_formatter/src/write/object_pattern_like.rs:93-102 | Three plain identifiers are `Group(true)` in an annotated parameter but `Group(false)` in a catch clause. |
| PatternLike.ArrowParameterExempt | crates/oxc_formatter/src/write/object_pattern_like.rs:85-99 | Plain identifiers in an unannotated arrow parameter never expand, however many there are. |
| PatternLike.AnnotatedArrowParameterExpands | crates/oxc_formatter/src/write/object_pattern_like.rs:85-99 | With an annotation, three or more properties of an arrow parameter expand. |
| PatternLike.DefaultedIdentifierBreaksOnlyInParameters | crates/oxc_formatter/src/write/object_pattern_like.rs:67-73 | `{ a = 1 }` expands as a parameter but is `Inline` in a declarator. |
| PatternLike.DefaultedNestedPatternBreaks | crates/oxc_formatter/src/write/object_pattern_like.rs:107-112 | Outside parameters, a default whose left side is a nested pattern expands. |
| PatternLike.DefaultedNestedTargetDoesNotBreak | crates/oxc_formatter/src/write/object_pattern_like.rs:118-127 | A directly nested target breaks, and the same target behind a default does not. |
| PatternLike.ShorthandTargetsDoNotBreak | crates/oxc_formatter/src/write/object_pattern_like.rs:119 | Shorthand properties never make a target break. |
| PatternLike.EmptyIgnoresBracketSpacing | crates/oxc_formatter/src/write/object_pattern_like.rs:188-190 | An empty pattern's output is the same for both bracket-spacing settings. |

A numeric key such as `1.5`, whose printed value equals its raw text, is quotable under forced quoting (`ExactDecimalQuotes`). The first rule of `can_quote_numeric_literal` decides this. The doc comment's examples of keys that stay numeric are only `1.0`, `1e2` and `0b10`.

## Left out

- SpanIdent.New: requires a length below 2^32. The source assumes this in a comment and does not mask the length, so a longer text would spill into the hash half. That case is not modelled.
- The FxHasher, `f64::to_string`/`parse::<f64>()`, `is_identifier_name`, the source type's TypeScript test and the display width of source text: collaborators given as parameters or `Host` fields, never defined.
- The key node's own `Format` implementation (`write!(f, key)`) for identifier, numeric and other expression keys: a collaborator that is not modelled. Its output appears as `OwnFormat`, and only the width `write_member_name` reports for it, the source span's width, is modelled.
- `FormatLiteralStringToken` (escape and quote normalisation, `clean_text`, `width`): only the tag and source text passed to it are modelled. The width it reports is a `Host` field, keyed on the inputs `clean_text` reads: source text, tag, source type, quote style and `quote_properties`. The other formatter options are not modelled.
- Comments: the type annotation's "comment in span" test is an input flag. The dangling comments of an empty pattern appear as a document placeholder. The leading and trailing comments that `write_member_name` writes around a string key are not modelled.
- `ObjectPattern::is_empty` / `ObjectAssignmentTarget::is_empty`: an input flag, because their definitions are outside the modelled files.
- `BindingPropertyList`, `AssignmentTargetPropertyList`, `group`, `soft_block_indent_with_maybe_space` and the layout engine: `fmt` is modelled as the shape it hands them, with the bracket-spacing flag passed through.
- Raw pointer, `NonNull`, `unsafe` slicing and `from_utf8_unchecked`: the handle is modelled by the text it designates.
- `into_atom`, `from_cow_in`, `into_compact_str`, the `Atom`/`CompactStr`/`Cow` conversions, `Deref`, `ContentEq`, `Debug`/`Display`/serde/ESTree impls and arena allocation: plumbing with no decision in it.
- `Formatter`/`Buffer` writes and `FormatResult` error propagation: writes cannot fail in the model.
