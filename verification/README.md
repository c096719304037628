# justerror `#[Error]` — a Dafny model

This project models the `#[Error]` attribute macro of the Rust crate
justerror (`src/lib.rs`). The macro takes an enum or a struct and builds one
display template per enum variant, or a single template for the struct. It
attaches each template as an `#[error("...")]` attribute for thiserror to
read.

A template has three parts:

- The title: `Type::Variant`, or `Type` for a struct.
- The description lines. They come from the root `#[Error(desc = ...)]` and
  the variant's `#[error(desc = ...)]`.
- The data section. This is the marker `=== DEBUG DATA:` followed by one
  placeholder line per field, such as `name: {name:#?}`. Each field's
  formatting mode is resolved from its own `#[fmt(...)]`, then the variant's
  `fmt`, then the root's `fmt`, then `Display`.

The model is written as pure functions over immutable datatypes. Modules
follow the structure of the source:

- `Syntax`: tokens, attributes, `Option`, `Result` and the diagnostic kinds.
  Each diagnostic kind stands for one diagnostic message, which the source
  may raise at several places.
- `Args`: `ErrorArgs`, `Fmt`, and their parsers, written in the order the
  source consumes tokens. It also holds the reference grammar `Spells`:
  the token spellings each argument list is accepted from.
- `Resolve`: `Fmt::derive`, and the reference "first level that sets a
  mode" rule it is proved equal to.
- `Attrs`: the attribute selection loops. They parse every attribute with a
  given path, stop at the first failure, remember the last one, and remove
  only that one.
- `Text`: joining lines with newlines (`Block`), splitting them back
  (`Split`), and the decimal spelling of field positions.
- `Items`: the declaration the macro is attached to.
- `Layout`: the declarative template, stated as a list of lines.
- `Output`: the push-based builder of the source. Each `push_*` is proved to
  append exactly the lines `Layout` prescribes.
- `Macro`: the expansion itself, covering the root argument list, the
  variant loop, the struct branch and the union rejection.
- `ArgsFacts`, `TemplateFacts` and `Scenarios`: the proved properties. The
  parser accepts exactly the reference grammar. A missing key, `=` or comma,
  a value of the wrong kind, a repeated key and a third argument each fail
  with the source's diagnostic, in the first argument and in the second. The template read back as lines has
  the promised shape. The seven test cases of `tests/tests.rs` expand to the
  templates whose rendering they check.

Behaviours of the source worth knowing, all of which the model keeps:

- An empty argument list counts as "no arguments" only for the root
  attribute (`args.is_empty()` is tested before parsing). An empty
  `#[error()]` on a variant is parsed, and it fails with the lookahead
  error.
- A field with several `#[fmt(...)]` attributes is not an error. Every one
  of them must parse, the last one sets the mode, and only that one is
  removed; the earlier ones stay on the field.
- In the same way, of several `#[error(...)]` attributes on a variant the
  last one configures it and is replaced by the template. The earlier ones
  stay.
- The data section is left out only for unit variants and unit structs. An
  empty braced or parenthesised field list still produces the marker line.

## Model

| member | source | states |
|---|---|---|
| Args.ParseDesc | src/lib.rs:113-122 | a successful parse consumed exactly `desc = "s"` and returns `s` together with the remaining tokens |
| Args.ParseFmtArg | src/lib.rs:124-130 | a successful parse consumed exactly `fmt = value` and returns the mode that value spells |
| Args.ParseFmt | src/lib.rs:225-245 | a successful parse consumed exactly the spelling of the returned mode: `debug`, `display` or a string literal |
| Args.ParseSlot | src/lib.rs:137-171 | one argument slot fills exactly one aspect that was unset before, leaves the other aspect alone, and consumed that argument's spelling |
| Args.ParseSecond | src/lib.rs:149-181 | after the first argument: an empty rest accepts it unchanged; otherwise a comma and a second argument that fills the other aspect must follow, and nothing after it |
| Args.ParseArgs | src/lib.rs:133-182 | every accepted list is a spelling of the parsed arguments in the reference grammar |
| Args.ParseFieldFmt | src/lib.rs:343-348 | a `#[fmt(...)]` parses only when its delimited arguments are exactly the spelling of the mode |
| Args.ParseVariantArgs | src/lib.rs:407-412 | a `#[error(...)]` parses only when it is a delimited group that spells the arguments |
| ArgsFacts.ParseDescSpelled | src/lib.rs:113-122 | `desc = "s"` followed by any tokens parses to `s` and leaves those tokens |
| ArgsFacts.ParseFmtSpelled | src/lib.rs:225-245 | the spelling of any mode followed by any tokens parses back to that mode and leaves those tokens |
| ArgsFacts.ParseFmtArgSpelled | src/lib.rs:124-130 | `fmt = value` followed by any tokens parses back to the mode the value spells |
| ArgsFacts.ParseSlotDesc | src/lib.rs:157-162 | a `desc` argument fills an argument list that has no description yet |
| ArgsFacts.ParseSlotFmt | src/lib.rs:163-168 | a `fmt` argument fills an argument list that has no mode yet |
| ArgsFacts.ParseArgsComplete | src/lib.rs:133-182 | every spelling of an argument list parses to that list |
| ArgsFacts.ParseArgsExact | src/lib.rs:133-182 | the parser yields `a` if and only if the tokens are a spelling of `a` |
| ArgsFacts.SingleArgument | src/lib.rs:139-151 | a list with a single argument sets that aspect and leaves the other one unset |
| ArgsFacts.ArgumentOrderIrrelevant | src/lib.rs:155-174 | both arguments parse to the same list in either order |
| ArgsFacts.KeysOnce | src/lib.rs:157-168 | in an accepted list each key occurs exactly once when it is set and not at all otherwise |
| ArgsFacts.NoKeyFirst | src/lib.rs:137-147 | an empty list, or one that does not start with `desc` or `fmt`, fails with the lookahead error |
| ArgsFacts.NoKeySecond | src/lib.rs:155-171 | after one argument and a comma, anything but a key fails with the lookahead error, including a trailing comma |
| ArgsFacts.MissingComma | src/lib.rs:149-153 | after the first argument, anything but the end or a comma fails with "expected `,`" |
| ArgsFacts.RepeatedKey | src/lib.rs:157-166 | a key given twice fails with "already defined" for that key, before its value is read |
| ArgsFacts.TooManyArguments | src/lib.rs:173-180 | any token after two arguments fails with "more than 2 arguments" |
| ArgsFacts.FirstSlotFails | src/lib.rs:139-147 | an error in the first argument is the error of the whole list |
| ArgsFacts.SecondSlotFails | src/lib.rs:155-171 | after one argument and a comma, an error in the second argument is the error of the whole list |
| ArgsFacts.DescValueChecks | src/lib.rs:113-121 | in any slot where `desc` is unset, a non-string literal value is "`desc` must be a string", and any non-literal, `debug` and `display` included, is "expected literal" |
| ArgsFacts.FmtValueChecks | src/lib.rs:124-130 | in any slot where `fmt` is unset, a non-string literal value is "`fmt` must be either ...", and anything but a literal, `debug` or `display` is "expected literal" (the value parser is at lines 227-241) |
| ArgsFacts.SlotMissingEq | src/lib.rs:114-115 | in any slot where the key is unset, a key not followed by `=` is "expected `=`"; `parse_fmt` checks it the same way at lines 125-126 |
| ArgsFacts.LiteralKinds | src/lib.rs:116-121 | in the first argument, a non-string literal fails differently for `desc` and for `fmt`, and a non-literal value fails as "expected literal"; `desc = debug` is one of them |
| ArgsFacts.SecondLiteralKinds | src/lib.rs:155-168 | the same four value errors in the second argument, after the other key's argument and a comma |
| ArgsFacts.MissingEq | src/lib.rs:114-115 | a first-argument key not followed by `=` fails with "expected `=`" |
| ArgsFacts.SecondMissingEq | src/lib.rs:155-168 | a second-argument key not followed by `=` fails with "expected `=`" too |
| ArgsFacts.FieldFmtExact | src/lib.rs:345 | `#[fmt(ts)]` parses to `f` if and only if `ts` is exactly the spelling of `f` |
| ArgsFacts.FieldFmtTrailing | src/lib.rs:345 | tokens left after the value are rejected, and so is an attribute whose arguments are not a delimited group |
| Args.Suffix | src/lib.rs:215-223 | the suffix is empty exactly for `Display`; every other mode's suffix starts with the format-spec colon, and a custom pattern follows it verbatim (partner: `ArgsFacts.SuffixCollision`, which reads the mode back) |
| ArgsFacts.SuffixRoundTrip | src/lib.rs:215-223 | the placeholder suffix gives back the mode, except for the custom pattern `#?`, which is spelled like `Debug` |
| ArgsFacts.SuffixCollision | src/lib.rs:215-223 | two modes share a suffix if and only if they are equal, or are `Debug` and `Custom("#?")` |
| Resolve.Derive | src/lib.rs:192-206 | a field override always wins, and the result is always the mode of some level or the default when no level sets one |
| Resolve.DeriveIsFirstSet | src/lib.rs:192-206 | resolution is the first mode set along field, variant, root, else `Display` |
| Resolve.DeriveIgnoresDescriptions | src/lib.rs:195-203 | descriptions play no part in resolving the mode |
| Resolve.VariantWithoutFmtFallsThrough | src/lib.rs:195-203 | a variant list that does not set `fmt` resolves as no variant list at all, so the root `fmt` still applies |
| Attrs.Scan | src/lib.rs:343-350 | the loop succeeds if and only if every attribute with the path parses; on failure it reports the first one that does not; otherwise it returns the last such attribute and its value |
| Attrs.LastAttr | src/lib.rs:405-415 | the selection succeeds if and only if every attribute with the path parses; the selected one is the last, and an error is the first failure's |
| Attrs.Consume | src/lib.rs:352-359 | the attributes with another path are all kept in order; of those with the path, exactly the last is dropped, and with none the list is unchanged; the variant loop removes its `#[error]` the same way at lines 417-424 (partner: `Attrs.ConsumeCount`) |
| Attrs.RemoveAt | src/lib.rs:357-359 | removal drops exactly the element at the index and keeps the others in order |
| Attrs.ConsumeCount | src/lib.rs:417-424 | removal takes away exactly one attribute with the path when there is one, and changes nothing otherwise |
| Text.DecimalRoundTrip | src/lib.rs:323-324 | the decimal spelling of a field position reads back as that position |
| Text.DecimalInjective | src/lib.rs:323-324 | distinct positions get distinct identifiers |
| Output.PushTitle | src/lib.rs:259-268 | the buffer grows by `Type::Variant`, or by `Type` alone |
| Output.PushDesc | src/lib.rs:270-281 | the buffer grows by one new line holding the description, prefixed when a prefix is given |
| Output.PushDebugTitle | src/lib.rs:283-288 | the buffer grows by one new line holding the data marker |
| Output.PushField | src/lib.rs:333-381 | succeeds if and only if the field's `#[fmt]` attributes all parse; appends the field's line with the resolved mode; removes only the last `#[fmt]`; otherwise returns the first failure |
| Output.PushEach | src/lib.rs:302-312 | pushing a list of fields appends the line of each field in order, consumes each field's last `#[fmt]`, and stops at the first failure |
| Output.PushFields | src/lib.rs:290-331 | the buffer grows by exactly the data section, the fields lose their last `#[fmt]`, and any error is the first failing field's |
| Output.PushNamed | src/lib.rs:299-313 | named fields give the marker and `name: {name<suffix>}` lines |
| Output.PushUnnamed | src/lib.rs:314-326 | unnamed fields give the marker and position-identified lines, prefixed only when there are two or more |
| Output.UnnamedLines | src/lib.rs:317-325 | the pushed unnamed-field lines are the data section of the declarative template |
| Output.MarkedBlock | src/lib.rs:283-288 | the marker followed by the field lines is one block of lines |
| Macro.RootArgs | src/lib.rs:396-400 | an empty root list means no arguments; a non-empty one must parse, and then it spells the arguments |
| Macro.PushVariantDesc | src/lib.rs:430-454 | the buffer grows by exactly the description lines of the policy: both prefixed, one alone unprefixed, or none |
| Macro.VariantHead | src/lib.rs:426-454 | the title and description part of a variant's template |
| Macro.BuildVariant | src/lib.rs:426-461 | succeeds if and only if every field's `#[fmt]` parses, and then yields the declarative template and the consumed fields |
| Macro.ExpandVariant | src/lib.rs:404-463 | succeeds if and only if every `#[error]` and every field `#[fmt]` parses; the last `#[error]` is replaced by the template attribute at the end of the list; errors are the first failure |
| Macro.ExpandVariants | src/lib.rs:403-464 | succeeds if and only if every variant does; each variant is expanded independently of the others; the error is that of the first failing variant |
| Macro.ExpandStruct | src/lib.rs:465-481 | the struct gets its one template, with the root description alone, and its fields lose their last `#[fmt]` |
| Macro.Expand | src/lib.rs:393-490 | root errors come first; a union is rejected; an enum succeeds exactly when every variant does and keeps its own attributes; a struct gets its template |
| TemplateFacts.VariantTemplateLines | src/lib.rs:426-461 | the template, read as lines, is the title, then the description lines, then the data section |
| TemplateFacts.StructTemplateLines | src/lib.rs:465-480 | the struct template, read as lines, is its name, the root description if any, then the data section |
| TemplateFacts.StructIsBareVariant | src/lib.rs:465-480 | a struct's lines after the title are those of a variant without an argument list |
| TemplateFacts.DescriptionPolicy | src/lib.rs:430-454 | both descriptions are prefixed lines 1 and 2; one alone is line 1, unprefixed; with none, the data section follows the title |
| TemplateFacts.TemplateLength | src/lib.rs:426-461 | the template has one line for the title, for each description and for each data line |
| TemplateFacts.DataLineAt | src/lib.rs:456-460 | each data line sits right after the descriptions, at its own position |
| TemplateFacts.DataSection | src/lib.rs:298-328 | a unit variant has no data section; any other has the marker and one line per field |
| TemplateFacts.NamedDataLine | src/lib.rs:368-378 | a named field's line is `name: {name<suffix>}` |
| TemplateFacts.UnnamedDataLine | src/lib.rs:317-324 | a single unnamed field's line is `{0<suffix>}`; with two or more, field `i` has the line `i: {i<suffix>}` |
| TemplateFacts.FieldOverrideWins | src/lib.rs:343-361 | when a field's last `#[fmt]` spells `f`, the field is rendered with `f`, whatever the variant and root say |
| TemplateFacts.VariantErrorAttrs | src/lib.rs:417-462 | after expansion the template is the variant's last attribute, and a variant with at most one `#[error]` ends with exactly one |
| TemplateFacts.FieldFmtAttrsConsumed | src/lib.rs:352-359 | after expansion each field has one `#[fmt]` fewer, or none when it had none |
| Scenarios.EnumErrorFoo | tests/tests.rs:33-39 | a unit variant without arguments has only its title as template |
| Scenarios.EnumErrorBar | tests/tests.rs:41-51 | named fields give the marker, then `a: {a}` and `b: {b}` |
| Scenarios.EnumErrorBaz | tests/tests.rs:53-66 | a field's `#[fmt(debug)]` gives `0: {0:#?}` and is removed; the other field gives `1: {1}` |
| Scenarios.EnumErrorExpansion | tests/tests.rs:6-11 | the whole enum expands to these three variants |
| Scenarios.WithArgsParsed | tests/tests.rs:13-17 | the root and variant argument lists of the test parse to the expected values |
| Scenarios.WithArgsFoo | tests/tests.rs:68-77 | both descriptions appear, prefixed, in the order root then variant |
| Scenarios.WithArgsBar | tests/tests.rs:79-91 | the variant `fmt = display` overrides the root `debug`, and the field's `#[fmt("05")]` overrides both |
| Scenarios.WithArgsBaz | tests/tests.rs:93-107 | without a variant list the root description is unprefixed, and the root `debug` applies to every field |
| Scenarios.EnumErrorWithArgsExpansion | tests/tests.rs:13-24 | the whole enum with arguments expands to these three variants |
| Scenarios.StructErrorExpansion | tests/tests.rs:109-120 | the struct receives its template; its field's `#[fmt(">5")]` gives `b: {b:>5}` and is removed |
| Scenarios.EmptyVariantArgs | src/lib.rs:407-412 | an empty `#[error()]` on a variant fails with the lookahead error |
| Scenarios.LastFmtWins | src/lib.rs:343-359 | of two `#[fmt]` on a field, the later one sets the mode and is the only one removed |
| Scenarios.LastErrorWins | src/lib.rs:405-424 | of two `#[error]` on a variant, the later one configures it and is the only one removed |

## Left out

- Token streams, spans and diagnostic messages are left out. Tokens are the
  abstract `Token` datatype, and a diagnostic is only its kind.
- `parse_macro_input!`, `quote!`, `parse_quote!` and `ToTokens` are left
  out. The template attribute is the datatype value `TemplateAttr(s)`.
- The `#[derive(thiserror::Error, Debug)]` added in front of the
  declaration is left out. It is a fixed prefix that thiserror consumes.
- Rendering templates at run time (e.g. `{b:05}` to `00042`) is left out.
  It belongs to `format!` and thiserror, so the scenarios stop at the
  template string.
- Literal kinds are abstracted. `OtherLit` stands for every non-string
  literal, including `true` and `false`. An escaped string literal is
  represented by its unescaped value.
- The delimiter of an attribute's argument group is not recorded. `#[fmt(debug)]`, `#[fmt[debug]]` and `#[fmt{debug}]` are the same `Delimited` value, as `parse_args` treats them alike.
- Named fields always carry an identifier in the model. The source skips a
  named field without one (`src/lib.rs:303`), which syn never produces.
- TemplateFacts.VariantTemplateLines: like the other lemmas that read a
  template back as lines (the six below), it assumes that type, variant and field names,
  descriptions and custom patterns contain no newline. The source allows a
  newline inside a string literal, and then one "line" of the template
  spans two lines of text.
- TemplateFacts.StructTemplateLines: the same no-newline premise.
- TemplateFacts.StructIsBareVariant: the same no-newline premise.
- TemplateFacts.DescriptionPolicy: the same no-newline premise.
- TemplateFacts.TemplateLength: the same no-newline premise.
- TemplateFacts.DataLineAt: the same no-newline premise.
- TemplateFacts.DataSection: the same no-newline premise.
- ArgsFacts.SuffixRoundTrip: the round trip excludes `Custom("#?")`,
  because the source renders it exactly as `Debug`.
- Macro.Expand: a union is rejected with a single error kind. The union's
  contents are not modelled.
