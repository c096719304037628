/**
 The declarations of the crate's own test suite (tests/tests.rs), and the
 templates the expansion gives them.

 Each template is the format string thiserror later fills in; the test
 suite's expected messages are these templates with the fields' values
 substituted.
 */
module Scenarios {
  import opened Syntax
  import opened Args
  import opened Attrs
  import opened Text
  import opened Items
  import opened Layout
  import opened Macro
  import ArgsFacts

  function FmtAttribute(ts: seq<Token>): Attr
  {
    Attr(FmtAttr, Delimited(ts))
  }

  function ErrorAttribute(ts: seq<Token>): Attr
  {
    Attr(ErrorAttr, Delimited(ts))
  }

  /** `#[Error] enum EnumError { Foo, Bar { a, b }, Baz(#[fmt(debug)] _, _) }` */
  const EnumError :=
    Decl("EnumError", [], Enum([
      Variant("Foo", [], Unit),
      Variant("Bar", [], Named([("a", []), ("b", [])])),
      Variant("Baz", [], Unnamed([[FmtAttribute([DebugKw])], []]))
    ]))

  /** A title followed by a block of lines: each line after a newline. */
  lemma Joined1(t: string, a: string)
    ensures t + Block([a]) == t + "\n" + a
  {
    assert [a][1..] == [];
  }

  lemma Joined2(t: string, a: string, b: string)
    ensures t + Block([a, b]) == t + "\n" + a + "\n" + b
  {
    assert [a, b][1..] == [b];
    Joined1(t + "\n" + a, b);
  }

  lemma Joined3(t: string, a: string, b: string, c: string)
    ensures t + Block([a, b, c]) == t + "\n" + a + "\n" + b + "\n" + c
  {
    assert [a, b, c][1..] == [b, c];
    Joined2(t + "\n" + a, b, c);
  }

  lemma Joined4(t: string, a: string, b: string, c: string, d: string)
    ensures t + Block([a, b, c, d]) == t + "\n" + a + "\n" + b + "\n" + c + "\n" + d
  {
    assert [a, b, c, d][1..] == [b, c, d];
    Joined3(t + "\n" + a, b, c, d);
  }

  lemma Joined5(t: string, a: string, b: string, c: string, d: string, e: string)
    ensures t + Block([a, b, c, d, e]) == t + "\n" + a + "\n" + b + "\n" + c + "\n" + d + "\n" + e
  {
    assert [a, b, c, d, e][1..] == [b, c, d, e];
    Joined4(t + "\n" + a, b, c, d, e);
  }

  /** A variant with no attributes of its own. */
  lemma ExpandBare(typeId: string, root: ErrorArgs, ident: string, fields: Fields)
    requires FieldsParse(fields)
    ensures ExpandVariant(typeId, root, Variant(ident, [], fields))
         == Ok(Variant(ident, [TemplateAttr(VariantTemplate(typeId, ident, root, None, fields))], ConsumeFields(fields)))
  {
    var v := Variant(ident, [], fields);
    assert VariantConfig(v.attrs) == None;
    assert Consume(v.attrs, ErrorAttr) == [];
    assert AllParse(v.attrs, ErrorAttr, ParseVariantArgs);
    var t := TemplateAttr(VariantTemplate(typeId, ident, root, None, fields));
    assert [] + [t] == [t];
  }

  /** A variant whose only attribute is `#[error(...)]` with argument list `a`. */
  lemma ExpandConfigured(typeId: string, root: ErrorArgs, ident: string, ts: seq<Token>, a: ErrorArgs, fields: Fields)
    requires Spells(ts, a) && FieldsParse(fields)
    ensures ExpandVariant(typeId, root, Variant(ident, [ErrorAttribute(ts)], fields))
         == Ok(Variant(ident, [TemplateAttr(VariantTemplate(typeId, ident, root, Some(a), fields))], ConsumeFields(fields)))
  {
    var attrs := [ErrorAttribute(ts)];
    ArgsFacts.ParseArgsComplete(ts, a);
    assert ParseVariantArgs(attrs[0].meta) == Ok(a);
    assert attrs[..0] == [];
    assert LastIndex(attrs, ErrorAttr) == Some(0);
    assert VariantConfig(attrs) == Some(a);
    assert Consume(attrs, ErrorAttr) == [];
    assert AllParse(attrs, ErrorAttr, ParseVariantArgs);
    var t := TemplateAttr(VariantTemplate(typeId, ident, root, Some(a), fields));
    assert [] + [t] == [t];
  }

  /** A variant whose attributes all parse, with the configuration and
      remaining attributes given. */
  lemma ExpandParsed(typeId: string, root: ErrorArgs, v: Variant, vargs: Option<ErrorArgs>, kept: seq<Attr>)
    requires AllParse(v.attrs, ErrorAttr, ParseVariantArgs) && FieldsParse(v.fields)
    requires VariantConfig(v.attrs) == vargs && Consume(v.attrs, ErrorAttr) == kept
    ensures ExpandVariant(typeId, root, v)
         == Ok(Variant(v.ident, kept + [TemplateAttr(VariantTemplate(typeId, v.ident, root, vargs, v.fields))],
                       ConsumeFields(v.fields)))
  {
  }

  /** A struct whose fields all parse, with the template and remaining
      field attributes given. */
  lemma ExpandStructParsed(args: seq<Token>, root: ErrorArgs, ident: string, fields: Fields, kept: Fields, text: string)
    requires RootArgs(args) == Ok(root) && FieldsParse(fields)
    requires ConsumeFields(fields) == kept && StructTemplate(ident, root, fields) == text
    ensures Expand(args, Decl(ident, [], Struct(fields))) == Ok(Decl(ident, [TemplateAttr(text)], Struct(kept)))
  {
    assert [] + [TemplateAttr(text)] == [TemplateAttr(text)];
  }

  /** A template is its title and the block of its description and data
      lines. */
  lemma TemplateFromLines(typeId: string, ident: string, root: ErrorArgs, vargs: Option<ErrorArgs>,
                          fields: Fields, lines: seq<string>, text: string)
    requires DescLines(typeId, ident, root.desc, VariantDesc(vargs)) + DataLines(fields, root, vargs) == lines
    requires Title(typeId, Some(ident)) + Block(lines) == text
    ensures VariantTemplate(typeId, ident, root, vargs, fields) == text
  {
  }

  /** A struct's template is its title and the block of its description
      and data lines. */
  lemma StructTemplateFromLines(typeId: string, root: ErrorArgs, fields: Fields, lines: seq<string>, text: string)
    requires StructDescLines(root.desc) + DataLines(fields, root, None) == lines
    requires Title(typeId, None) + Block(lines) == text
    ensures StructTemplate(typeId, root, fields) == text
  {
  }

  /** An enum whose every variant expands to the given one. */
  lemma ExpandEnum(args: seq<Token>, decl: Decl, out: seq<Variant>)
    requires RootArgs(args).Ok? && decl.data.Enum? && |out| == |decl.data.variants|
    requires forall i :: 0 <= i < |out| ==> ExpandVariant(decl.ident, RootArgs(args).value, decl.data.variants[i]) == Ok(out[i])
    ensures Expand(args, decl) == Ok(Decl(decl.ident, decl.attrs, Enum(out)))
  {
    var r := Expand(args, decl);
    assert r.value.data.variants == out;
  }

  /** An enum of three variants, each expanding to the given one. */
  lemma ExpandThree(args: seq<Token>, ident: string, v0: Variant, v1: Variant, v2: Variant,
                    o0: Variant, o1: Variant, o2: Variant)
    requires RootArgs(args).Ok?
    requires ExpandVariant(ident, RootArgs(args).value, v0) == Ok(o0)
    requires ExpandVariant(ident, RootArgs(args).value, v1) == Ok(o1)
    requires ExpandVariant(ident, RootArgs(args).value, v2) == Ok(o2)
    ensures Expand(args, Decl(ident, [], Enum([v0, v1, v2]))) == Ok(Decl(ident, [], Enum([o0, o1, o2])))
  {
    var vs, os := [v0, v1, v2], [o0, o1, o2];
    EachOfThree((v: Variant) => ExpandVariant(ident, RootArgs(args).value, v), vs, os);
    ExpandEnum(args, Decl(ident, [], Enum(vs)), os);
  }

  lemma EachOfThree<V, W>(step: V -> Result<W>, vs: seq<V>, os: seq<W>)
    requires |vs| == 3 && |os| == 3
    requires step(vs[0]) == Ok(os[0]) && step(vs[1]) == Ok(os[1]) && step(vs[2]) == Ok(os[2])
    ensures forall i :: 0 <= i < |os| ==> step(vs[i]) == Ok(os[i])
  {
    forall i | 0 <= i < |os|
      ensures step(vs[i]) == Ok(os[i])
    {
      assert i == 0 || i == 1 || i == 2;
    }
  }

  lemma EnumErrorFoo()
    ensures ExpandVariant("EnumError", NoArgs, EnumError.data.variants[0])
         == Ok(Variant("Foo", [TemplateAttr("EnumError::Foo")], Unit))
  {
    assert EnumError.data.variants[0] == Variant("Foo", [], Unit);
    assert FieldsParse(Unit);
    ExpandBare("EnumError", NoArgs, "Foo", Unit);
    assert DescLines("EnumError", "Foo", None, None) + DataLines(Unit, NoArgs, None) == [];
    assert VariantTemplate("EnumError", "Foo", NoArgs, None, Unit) == "EnumError::Foo";
  }

  lemma EnumErrorBar()
    ensures ExpandVariant("EnumError", NoArgs, EnumError.data.variants[1])
         == Ok(Variant("Bar", [TemplateAttr("EnumError::Bar" + "\n" + "=== DEBUG DATA:" + "\n" + "a: {a}" + "\n" + "b: {b}")],
                       Named([("a", []), ("b", [])])))
  {
    var fields := Named([("a", []), ("b", [])]);
    assert EnumError.data.variants[1] == Variant("Bar", [], fields);
    assert FieldsParse(fields) && ConsumeFields(fields) == fields;
    ExpandBare("EnumError", NoArgs, "Bar", fields);
    BarTemplate();
  }

  lemma BarLines()
    ensures DescLines("EnumError", "Bar", None, None) + DataLines(Named([("a", []), ("b", [])]), NoArgs, None)
         == [DebugTitle, "a: {a}", "b: {b}"]
  {
    assert FieldFmt([], NoArgs, None) == Display;
    assert FieldLine("a", true, Display) == "a: {a}";
    assert FieldLine("b", true, Display) == "b: {b}";
  }

  lemma BarText()
    ensures Title("EnumError", Some("Bar")) + Block([DebugTitle, "a: {a}", "b: {b}"])
         == "EnumError::Bar" + "\n" + "=== DEBUG DATA:" + "\n" + "a: {a}" + "\n" + "b: {b}"
  {
    assert "EnumError" + "::" == "EnumError::";
    assert "EnumError::" + "Bar" == "EnumError::Bar";
    Joined3("EnumError::Bar", DebugTitle, "a: {a}", "b: {b}");
  }

  lemma BarTemplate()
    ensures VariantTemplate("EnumError", "Bar", NoArgs, None, Named([("a", []), ("b", [])]))
         == "EnumError::Bar" + "\n" + "=== DEBUG DATA:" + "\n" + "a: {a}" + "\n" + "b: {b}"
  {
    var lines := [DebugTitle, "a: {a}", "b: {b}"];
    BarLines();
    BarText();
    TemplateFromLines("EnumError", "Bar", NoArgs, None, Named([("a", []), ("b", [])]),
                      lines, "EnumError::Bar" + "\n" + "=== DEBUG DATA:" + "\n" + "a: {a}" + "\n" + "b: {b}");
  }

  lemma BazLines()
    ensures DescLines("EnumError", "Baz", None, None)
              + DataLines(Unnamed([[FmtAttribute([DebugKw])], []]), NoArgs, None)
         == [DebugTitle, "0: {0:#?}", "1: {1}"]
  {
    var attrs := [FmtAttribute([DebugKw])];
    assert LastIndex(attrs, FmtAttr) == Some(0);
    assert FieldFmt(attrs, NoArgs, None) == Debug;
    assert FieldFmt([], NoArgs, None) == Display;
    assert Decimal(0) == "0" && Decimal(1) == "1";
    assert FieldLine("0", true, Debug) == "0: {0:#?}";
    assert FieldLine("1", true, Display) == "1: {1}";
  }

  lemma BazText()
    ensures Title("EnumError", Some("Baz")) + Block([DebugTitle, "0: {0:#?}", "1: {1}"])
         == "EnumError::Baz" + "\n" + "=== DEBUG DATA:" + "\n" + "0: {0:#?}" + "\n" + "1: {1}"
  {
    assert "EnumError" + "::" == "EnumError::";
    assert "EnumError::" + "Baz" == "EnumError::Baz";
    Joined3("EnumError::Baz", DebugTitle, "0: {0:#?}", "1: {1}");
  }

  lemma BazTemplate()
    ensures VariantTemplate("EnumError", "Baz", NoArgs, None, Unnamed([[FmtAttribute([DebugKw])], []]))
         == "EnumError::Baz" + "\n" + "=== DEBUG DATA:" + "\n" + "0: {0:#?}" + "\n" + "1: {1}"
  {
    var lines := [DebugTitle, "0: {0:#?}", "1: {1}"];
    BazLines();
    BazText();
    TemplateFromLines("EnumError", "Baz", NoArgs, None, Unnamed([[FmtAttribute([DebugKw])], []]), lines,
                      "EnumError::Baz" + "\n" + "=== DEBUG DATA:" + "\n" + "0: {0:#?}" + "\n" + "1: {1}");
  }

  /** The field's `#[fmt(debug)]` is removed; nothing else changes. */
  lemma BazFields()
    ensures FieldsParse(Unnamed([[FmtAttribute([DebugKw])], []]))
    ensures ConsumeFields(Unnamed([[FmtAttribute([DebugKw])], []])) == Unnamed([[], []])
  {
    var attrs := [FmtAttribute([DebugKw])];
    assert LastIndex(attrs, FmtAttr) == Some(0);
    assert ParseFieldFmt(attrs[0].meta) == Ok(Debug);
    assert AllParse(attrs, FmtAttr, ParseFieldFmt);
    assert AllParse([], FmtAttr, ParseFieldFmt);
    ConsumeSingle(attrs[0], FmtAttr);
    assert [attrs[0]] == attrs;
  }

  lemma EnumErrorBaz()
    ensures ExpandVariant("EnumError", NoArgs, EnumError.data.variants[2])
         == Ok(Variant("Baz", [TemplateAttr("EnumError::Baz" + "\n" + "=== DEBUG DATA:" + "\n" + "0: {0:#?}" + "\n" + "1: {1}")],
                       Unnamed([[], []])))
  {
    var fields := Unnamed([[FmtAttribute([DebugKw])], []]);
    assert EnumError.data.variants[2] == Variant("Baz", [], fields);
    BazFields();
    ExpandBare("EnumError", NoArgs, "Baz", fields);
    BazTemplate();
  }

  /** `#[Error] enum EnumError`: each variant gets its template; the enum's
      own attributes are left alone. */
  lemma EnumErrorExpansion()
    ensures Expand([], EnumError) == Ok(Decl("EnumError", [], Enum([
      Variant("Foo", [TemplateAttr("EnumError::Foo")], Unit),
      Variant("Bar", [TemplateAttr("EnumError::Bar" + "\n" + "=== DEBUG DATA:" + "\n" + "a: {a}" + "\n" + "b: {b}")], Named([("a", []), ("b", [])])),
      Variant("Baz", [TemplateAttr("EnumError::Baz" + "\n" + "=== DEBUG DATA:" + "\n" + "0: {0:#?}" + "\n" + "1: {1}")], Unnamed([[], []]))
    ])))
  {
    EnumErrorFoo();
    EnumErrorBar();
    EnumErrorBaz();
    assert RootArgs([]) == Ok(NoArgs);
    ExpandThree([], "EnumError", Variant("Foo", [], Unit), Variant("Bar", [], Named([("a", []), ("b", [])])),
                Variant("Baz", [], Unnamed([[FmtAttribute([DebugKw])], []])),
      Variant("Foo", [TemplateAttr("EnumError::Foo")], Unit),
      Variant("Bar", [TemplateAttr("EnumError::Bar" + "\n" + "=== DEBUG DATA:" + "\n" + "a: {a}" + "\n" + "b: {b}")], Named([("a", []), ("b", [])])),
      Variant("Baz", [TemplateAttr("EnumError::Baz" + "\n" + "=== DEBUG DATA:" + "\n" + "0: {0:#?}" + "\n" + "1: {1}")], Unnamed([[], []])));
  }

  // ----- #[Error(desc = "My enum error", fmt = debug)] enum EnumErrorWithArgs -----

  const WithArgsRoot: seq<Token> := [DescKw, Eq, StrLit("My enum error"), Comma, FmtKw, Eq, DebugKw]
  const FooArgs: seq<Token> := [DescKw, Eq, StrLit("Foo error")]
  const BarArgs: seq<Token> := [DescKw, Eq, StrLit("Bar error"), Comma, FmtKw, Eq, DisplayKw]
  const BarFields := Named([("a", []), ("b", [FmtAttribute([StrLit("05")])])])

  const EnumErrorWithArgs :=
    Decl("EnumErrorWithArgs", [], Enum([
      Variant("Foo", [ErrorAttribute(FooArgs)], Unit),
      Variant("Bar", [ErrorAttribute(BarArgs)], BarFields),
      Variant("Baz", [], Unnamed([[], []]))
    ]))

  const RootWithArgs := ErrorArgs(Some("My enum error"), Some(Debug))

  lemma WithArgsParsed()
    ensures RootArgs(WithArgsRoot) == Ok(RootWithArgs)
    ensures Spells(FooArgs, ErrorArgs(Some("Foo error"), None))
    ensures Spells(BarArgs, ErrorArgs(Some("Bar error"), Some(Display)))
  {
    RootWithArgsSpelled();
    ArgsFacts.ParseArgsComplete(WithArgsRoot, RootWithArgs);
    BarArgsSpelled();
  }

  lemma RootWithArgsSpelled()
    ensures Spells(WithArgsRoot, RootWithArgs)
  {
    assert WithArgsRoot == DescTokens("My enum error") + [Comma] + FmtArgTokens(Debug);
  }

  lemma BarArgsSpelled()
    ensures Spells(BarArgs, ErrorArgs(Some("Bar error"), Some(Display)))
  {
    assert BarArgs == DescTokens("Bar error") + [Comma] + FmtArgTokens(Display);
  }

  lemma WithArgsFooLines()
    ensures DescLines("EnumErrorWithArgs", "Foo", RootWithArgs.desc, Some("Foo error"))
              + DataLines(Unit, RootWithArgs, Some(ErrorArgs(Some("Foo error"), None)))
         == ["EnumErrorWithArgs: My enum error", "Foo: Foo error"]
  {
    assert "EnumErrorWithArgs" + ": " + "My enum error" == "EnumErrorWithArgs: My enum error";
    assert "Foo" + ": " + "Foo error" == "Foo: Foo error";
  }

  lemma WithArgsFooText()
    ensures Title("EnumErrorWithArgs", Some("Foo")) + Block(["EnumErrorWithArgs: My enum error", "Foo: Foo error"])
         == "EnumErrorWithArgs::Foo" + "\n" + "EnumErrorWithArgs: My enum error" + "\n" + "Foo: Foo error"
  {
    assert "EnumErrorWithArgs" + "::" == "EnumErrorWithArgs::";
    assert "EnumErrorWithArgs::" + "Foo" == "EnumErrorWithArgs::Foo";
    Joined2("EnumErrorWithArgs::Foo", "EnumErrorWithArgs: My enum error", "Foo: Foo error");
  }

  lemma WithArgsFooTemplate()
    ensures VariantTemplate("EnumErrorWithArgs", "Foo", RootWithArgs, Some(ErrorArgs(Some("Foo error"), None)), Unit)
         == "EnumErrorWithArgs::Foo" + "\n" + "EnumErrorWithArgs: My enum error" + "\n" + "Foo: Foo error"
  {
    var lines := ["EnumErrorWithArgs: My enum error", "Foo: Foo error"];
    WithArgsFooLines();
    WithArgsFooText();
    TemplateFromLines("EnumErrorWithArgs", "Foo", RootWithArgs, Some(ErrorArgs(Some("Foo error"), None)), Unit,
                      lines, "EnumErrorWithArgs::Foo" + "\n" + "EnumErrorWithArgs: My enum error" + "\n" + "Foo: Foo error");
  }

  /** Both descriptions, each prefixed. */
  lemma WithArgsFoo()
    ensures ExpandVariant("EnumErrorWithArgs", RootWithArgs, EnumErrorWithArgs.data.variants[0])
         == Ok(Variant("Foo", [TemplateAttr("EnumErrorWithArgs::Foo" + "\n" + "EnumErrorWithArgs: My enum error" + "\n" + "Foo: Foo error")], Unit))
  {
    assert EnumErrorWithArgs.data.variants[0] == Variant("Foo", [ErrorAttribute(FooArgs)], Unit);
    assert FooArgs == DescTokens("Foo error");
    assert FieldsParse(Unit);
    ExpandConfigured("EnumErrorWithArgs", RootWithArgs, "Foo", FooArgs, ErrorArgs(Some("Foo error"), None), Unit);
    WithArgsFooTemplate();
  }

  lemma WithArgsBarLines()
    ensures DescLines("EnumErrorWithArgs", "Bar", RootWithArgs.desc, Some("Bar error"))
              + DataLines(BarFields, RootWithArgs, Some(ErrorArgs(Some("Bar error"), Some(Display))))
         == ["EnumErrorWithArgs: My enum error", "Bar: Bar error", DebugTitle, "a: {a}", "b: {b:05}"]
  {
    var vargs := Some(ErrorArgs(Some("Bar error"), Some(Display)));
    var attrs := [FmtAttribute([StrLit("05")])];
    assert "EnumErrorWithArgs" + ": " + "My enum error" == "EnumErrorWithArgs: My enum error";
    assert "Bar" + ": " + "Bar error" == "Bar: Bar error";
    assert LastIndex(attrs, FmtAttr) == Some(0);
    assert FieldFmt(attrs, RootWithArgs, vargs) == Custom("05");
    assert FieldFmt([], RootWithArgs, vargs) == Display;
    assert FieldLine("a", true, Display) == "a: {a}";
    assert FieldLine("b", true, Custom("05")) == "b: {b:05}";
  }

  lemma WithArgsBarText()
    ensures Title("EnumErrorWithArgs", Some("Bar")) + Block(["EnumErrorWithArgs: My enum error", "Bar: Bar error", DebugTitle, "a: {a}", "b: {b:05}"])
         == "EnumErrorWithArgs::Bar" + "\n" + "EnumErrorWithArgs: My enum error" + "\n" + "Bar: Bar error" + "\n" + "=== DEBUG DATA:" + "\n" + "a: {a}" + "\n" + "b: {b:05}"
  {
    assert "EnumErrorWithArgs" + "::" == "EnumErrorWithArgs::";
    assert "EnumErrorWithArgs::" + "Bar" == "EnumErrorWithArgs::Bar";
    Joined5("EnumErrorWithArgs::Bar", "EnumErrorWithArgs: My enum error", "Bar: Bar error", DebugTitle, "a: {a}", "b: {b:05}");
  }

  lemma WithArgsBarTemplate()
    ensures VariantTemplate("EnumErrorWithArgs", "Bar", RootWithArgs, Some(ErrorArgs(Some("Bar error"), Some(Display))), BarFields)
         == "EnumErrorWithArgs::Bar" + "\n" + "EnumErrorWithArgs: My enum error" + "\n" + "Bar: Bar error" + "\n" + "=== DEBUG DATA:" + "\n" + "a: {a}" + "\n" + "b: {b:05}"
  {
    var lines := ["EnumErrorWithArgs: My enum error", "Bar: Bar error", DebugTitle, "a: {a}", "b: {b:05}"];
    WithArgsBarLines();
    WithArgsBarText();
    TemplateFromLines("EnumErrorWithArgs", "Bar", RootWithArgs, Some(ErrorArgs(Some("Bar error"), Some(Display))), BarFields,
                      lines, "EnumErrorWithArgs::Bar" + "\n" + "EnumErrorWithArgs: My enum error" + "\n" + "Bar: Bar error" + "\n" + "=== DEBUG DATA:" + "\n" + "a: {a}" + "\n" + "b: {b:05}");
  }

  /** The field's `#[fmt("05")]` is removed. */
  lemma BarFieldsConsumed()
    ensures FieldsParse(BarFields)
    ensures ConsumeFields(BarFields) == Named([("a", []), ("b", [])])
  {
    var attrs := [FmtAttribute([StrLit("05")])];
    assert LastIndex(attrs, FmtAttr) == Some(0);
    assert ParseFieldFmt(attrs[0].meta) == Ok(Custom("05"));
    assert AllParse(attrs, FmtAttr, ParseFieldFmt);
    assert AllParse([], FmtAttr, ParseFieldFmt);
    assert FieldAttrs(BarFields) == [[], attrs];
    ConsumeSingle(attrs[0], FmtAttr);
    assert [attrs[0]] == attrs;
  }

  /** The variant's `fmt = display` overrides the root `fmt = debug`; the
      field's own pattern overrides both. */
  lemma WithArgsBar()
    ensures ExpandVariant("EnumErrorWithArgs", RootWithArgs, EnumErrorWithArgs.data.variants[1])
         == Ok(Variant("Bar", [TemplateAttr("EnumErrorWithArgs::Bar" + "\n" + "EnumErrorWithArgs: My enum error" + "\n" + "Bar: Bar error" + "\n" + "=== DEBUG DATA:" + "\n" + "a: {a}" + "\n" + "b: {b:05}")],
                       Named([("a", []), ("b", [])])))
  {
    assert EnumErrorWithArgs.data.variants[1] == Variant("Bar", [ErrorAttribute(BarArgs)], BarFields);
    WithArgsParsed();
    BarFieldsConsumed();
    ExpandConfigured("EnumErrorWithArgs", RootWithArgs, "Bar", BarArgs, ErrorArgs(Some("Bar error"), Some(Display)), BarFields);
    WithArgsBarTemplate();
  }

  lemma WithArgsBazLines()
    ensures DescLines("EnumErrorWithArgs", "Baz", RootWithArgs.desc, None)
              + DataLines(Unnamed([[], []]), RootWithArgs, None)
         == ["My enum error", DebugTitle, "0: {0:#?}", "1: {1:#?}"]
  {
    assert FieldFmt([], RootWithArgs, None) == Debug;
    assert Decimal(0) == "0" && Decimal(1) == "1";
    assert FieldLine("0", true, Debug) == "0: {0:#?}";
    assert FieldLine("1", true, Debug) == "1: {1:#?}";
  }

  lemma WithArgsBazText()
    ensures Title("EnumErrorWithArgs", Some("Baz")) + Block(["My enum error", DebugTitle, "0: {0:#?}", "1: {1:#?}"])
         == "EnumErrorWithArgs::Baz" + "\n" + "My enum error" + "\n" + "=== DEBUG DATA:" + "\n" + "0: {0:#?}" + "\n" + "1: {1:#?}"
  {
    assert "EnumErrorWithArgs" + "::" == "EnumErrorWithArgs::";
    assert "EnumErrorWithArgs::" + "Baz" == "EnumErrorWithArgs::Baz";
    Joined4("EnumErrorWithArgs::Baz", "My enum error", DebugTitle, "0: {0:#?}", "1: {1:#?}");
  }

  lemma WithArgsBazTemplate()
    ensures VariantTemplate("EnumErrorWithArgs", "Baz", RootWithArgs, None, Unnamed([[], []]))
         == "EnumErrorWithArgs::Baz" + "\n" + "My enum error" + "\n" + "=== DEBUG DATA:" + "\n" + "0: {0:#?}" + "\n" + "1: {1:#?}"
  {
    var lines := ["My enum error", DebugTitle, "0: {0:#?}", "1: {1:#?}"];
    WithArgsBazLines();
    WithArgsBazText();
    TemplateFromLines("EnumErrorWithArgs", "Baz", RootWithArgs, None, Unnamed([[], []]),
                      lines, "EnumErrorWithArgs::Baz" + "\n" + "My enum error" + "\n" + "=== DEBUG DATA:" + "\n" + "0: {0:#?}" + "\n" + "1: {1:#?}");
  }

  /** Without a variant argument list, the root description stands alone
      and unprefixed, and the root `fmt = debug` applies to every field. */
  lemma WithArgsBaz()
    ensures ExpandVariant("EnumErrorWithArgs", RootWithArgs, EnumErrorWithArgs.data.variants[2])
         == Ok(Variant("Baz", [TemplateAttr("EnumErrorWithArgs::Baz" + "\n" + "My enum error" + "\n" + "=== DEBUG DATA:" + "\n" + "0: {0:#?}" + "\n" + "1: {1:#?}")],
                       Unnamed([[], []])))
  {
    var fields := Unnamed([[], []]);
    assert EnumErrorWithArgs.data.variants[2] == Variant("Baz", [], fields);
    assert AllParse([], FmtAttr, ParseFieldFmt);
    assert FieldsParse(fields) && ConsumeFields(fields) == fields;
    ExpandBare("EnumErrorWithArgs", RootWithArgs, "Baz", fields);
    WithArgsBazTemplate();
  }

  lemma EnumErrorWithArgsExpansion()
    ensures Expand(WithArgsRoot, EnumErrorWithArgs) == Ok(Decl("EnumErrorWithArgs", [], Enum([
      Variant("Foo", [TemplateAttr("EnumErrorWithArgs::Foo" + "\n" + "EnumErrorWithArgs: My enum error" + "\n" + "Foo: Foo error")], Unit),
      Variant("Bar", [TemplateAttr("EnumErrorWithArgs::Bar" + "\n" + "EnumErrorWithArgs: My enum error" + "\n" + "Bar: Bar error" + "\n" + "=== DEBUG DATA:" + "\n" + "a: {a}" + "\n" + "b: {b:05}")],
              Named([("a", []), ("b", [])])),
      Variant("Baz", [TemplateAttr("EnumErrorWithArgs::Baz" + "\n" + "My enum error" + "\n" + "=== DEBUG DATA:" + "\n" + "0: {0:#?}" + "\n" + "1: {1:#?}")],
              Unnamed([[], []]))
    ])))
  {
    WithArgsParsed();
    WithArgsFoo();
    WithArgsBar();
    WithArgsBaz();
    ExpandThree(WithArgsRoot, "EnumErrorWithArgs", Variant("Foo", [ErrorAttribute(FooArgs)], Unit),
                Variant("Bar", [ErrorAttribute(BarArgs)], BarFields), Variant("Baz", [], Unnamed([[], []])),
      Variant("Foo", [TemplateAttr("EnumErrorWithArgs::Foo" + "\n" + "EnumErrorWithArgs: My enum error" + "\n" + "Foo: Foo error")], Unit),
      Variant("Bar", [TemplateAttr("EnumErrorWithArgs::Bar" + "\n" + "EnumErrorWithArgs: My enum error" + "\n" + "Bar: Bar error" + "\n" + "=== DEBUG DATA:" + "\n" + "a: {a}" + "\n" + "b: {b:05}")],
              Named([("a", []), ("b", [])])),
      Variant("Baz", [TemplateAttr("EnumErrorWithArgs::Baz" + "\n" + "My enum error" + "\n" + "=== DEBUG DATA:" + "\n" + "0: {0:#?}" + "\n" + "1: {1:#?}")],
              Unnamed([[], []])));
  }

  // ----- #[Error(desc = "My struct error")] struct StructError -----

  const StructRoot: seq<Token> := [DescKw, Eq, StrLit("My struct error")]
  const StructFields := Named([("a", []), ("b", [FmtAttribute([StrLit(">5")])])])
  const StructError := Decl("StructError", [], Struct(StructFields))

  lemma StructErrorLines()
    ensures StructDescLines(Some("My struct error")) + DataLines(StructFields, ErrorArgs(Some("My struct error"), None), None)
         == ["My struct error", DebugTitle, "a: {a}", "b: {b:>5}"]
  {
    var root := ErrorArgs(Some("My struct error"), None);
    var attrs := [FmtAttribute([StrLit(">5")])];
    assert LastIndex(attrs, FmtAttr) == Some(0);
    assert FieldFmt(attrs, root, None) == Custom(">5");
    assert FieldFmt([], root, None) == Display;
    assert FieldLine("a", true, Display) == "a: {a}";
    assert FieldLine("b", true, Custom(">5")) == "b: {b:>5}";
  }

  lemma StructErrorText()
    ensures Title("StructError", None) + Block(["My struct error", DebugTitle, "a: {a}", "b: {b:>5}"])
         == "StructError" + "\n" + "My struct error" + "\n" + "=== DEBUG DATA:" + "\n" + "a: {a}" + "\n" + "b: {b:>5}"
  {
    Joined4("StructError", "My struct error", DebugTitle, "a: {a}", "b: {b:>5}");
  }

  lemma StructErrorTemplate()
    ensures StructTemplate("StructError", ErrorArgs(Some("My struct error"), None), StructFields)
         == "StructError" + "\n" + "My struct error" + "\n" + "=== DEBUG DATA:" + "\n" + "a: {a}" + "\n" + "b: {b:>5}"
  {
    var lines := ["My struct error", DebugTitle, "a: {a}", "b: {b:>5}"];
    StructErrorLines();
    StructErrorText();
    StructTemplateFromLines("StructError", ErrorArgs(Some("My struct error"), None), StructFields,
                            lines, "StructError" + "\n" + "My struct error" + "\n" + "=== DEBUG DATA:" + "\n" + "a: {a}" + "\n" + "b: {b:>5}");
  }

  /** A struct's template goes on the struct itself. */
  lemma StructErrorExpansion()
    ensures Expand(StructRoot, StructError)
         == Ok(Decl("StructError", [TemplateAttr("StructError" + "\n" + "My struct error" + "\n" + "=== DEBUG DATA:" + "\n" + "a: {a}" + "\n" + "b: {b:>5}")],
                    Struct(Named([("a", []), ("b", [])]))))
  {
    var root := ErrorArgs(Some("My struct error"), None);
    ArgsFacts.ParseArgsComplete(StructRoot, root);
    StructFieldsParsed();
    StructErrorTemplate();
    ExpandStructParsed(StructRoot, root, "StructError", StructFields, Named([("a", []), ("b", [])]),
                       "StructError" + "\n" + "My struct error" + "\n" + "=== DEBUG DATA:" + "\n" + "a: {a}" + "\n" + "b: {b:>5}");
  }

  /** The struct's fields parse, and lose their `#[fmt(...)]`. */
  lemma StructFieldsParsed()
    ensures FieldsParse(StructFields)
    ensures ConsumeFields(StructFields) == Named([("a", []), ("b", [])])
  {
    var attrs := [FmtAttribute([StrLit(">5")])];
    assert LastIndex(attrs, FmtAttr) == Some(0);
    assert ParseFieldFmt(attrs[0].meta) == Ok(Custom(">5"));
    assert AllParse(attrs, FmtAttr, ParseFieldFmt);
    assert AllParse([], FmtAttr, ParseFieldFmt);
    assert FieldAttrs(StructFields) == [[], attrs];
    ConsumeSingle(attrs[0], FmtAttr);
    assert [attrs[0]] == attrs;
  }

  // ----- repeated and empty attributes -----

  /** An empty `#[error()]` on a variant is an error: unlike the root
      attribute, a variant's argument list is always parsed. */
  lemma EmptyVariantArgs(typeId: string, root: ErrorArgs, ident: string, fields: Fields)
    ensures ExpandVariant(typeId, root, Variant(ident, [ErrorAttribute([])], fields)) == Err(ExpectedKey)
  {
    var attrs := [ErrorAttribute([])];
    assert ParseVariantArgs(attrs[0].meta) == Err(ExpectedKey);
    assert !AllParse(attrs, ErrorAttr, ParseVariantArgs);
  }

  /** Of two `#[fmt(...)]` on one field, the later one sets the mode and is
      the only one removed. */
  lemma LastFmtWins(root: ErrorArgs, vargs: Option<ErrorArgs>)
    ensures FieldFmt([FmtAttribute([DebugKw]), FmtAttribute([StrLit("x")])], root, vargs) == Custom("x")
    ensures Consume([FmtAttribute([DebugKw]), FmtAttribute([StrLit("x")])], FmtAttr) == [FmtAttribute([DebugKw])]
  {
    var attrs := [FmtAttribute([DebugKw]), FmtAttribute([StrLit("x")])];
    assert LastIndex(attrs, FmtAttr) == Some(1);
    assert ParseFieldFmt(attrs[1].meta) == Ok(Custom("x"));
    assert attrs[..1] + attrs[2..] == [FmtAttribute([DebugKw])];
  }

  /** Of two `#[error(...)]` on one variant, the later one configures the
      variant and is the only one removed; the earlier one stays on the
      variant in front of the template attribute. */
  lemma LastErrorWins(typeId: string, root: ErrorArgs, ident: string,
                       first: seq<Token>, a: ErrorArgs, second: seq<Token>, b: ErrorArgs)
    requires Spells(first, a) && Spells(second, b)
    ensures ExpandVariant(typeId, root, Variant(ident, [ErrorAttribute(first), ErrorAttribute(second)], Unit))
         == Ok(Variant(ident, [ErrorAttribute(first), TemplateAttr(VariantTemplate(typeId, ident, root, Some(b), Unit))], Unit))
  {
    var attrs := [ErrorAttribute(first), ErrorAttribute(second)];
    LaterErrorSelected(first, a, second, b);
    ExpandParsed(typeId, root, Variant(ident, attrs, Unit), Some(b), [ErrorAttribute(first)]);
    var t := TemplateAttr(VariantTemplate(typeId, ident, root, Some(b), Unit));
    assert [ErrorAttribute(first)] + [t] == [ErrorAttribute(first), t];
  }

  /** The selection among two `#[error(...)]`: both parse, the later one is
      chosen and removed. */
  lemma LaterErrorSelected(first: seq<Token>, a: ErrorArgs, second: seq<Token>, b: ErrorArgs)
    requires Spells(first, a) && Spells(second, b)
    ensures AllParse([ErrorAttribute(first), ErrorAttribute(second)], ErrorAttr, ParseVariantArgs)
    ensures VariantConfig([ErrorAttribute(first), ErrorAttribute(second)]) == Some(b)
    ensures Consume([ErrorAttribute(first), ErrorAttribute(second)], ErrorAttr) == [ErrorAttribute(first)]
  {
    var attrs := [ErrorAttribute(first), ErrorAttribute(second)];
    ArgsFacts.ParseArgsComplete(first, a);
    ArgsFacts.ParseArgsComplete(second, b);
    assert ParseVariantArgs(attrs[1].meta) == Ok(b);
    assert LastIndex(attrs, ErrorAttr) == Some(1);
    assert AllParse(attrs, ErrorAttr, ParseVariantArgs);
    assert attrs[..1] + attrs[2..] == [ErrorAttribute(first)];
  }
}
