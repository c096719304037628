/**
 Properties of the templates the macro attaches, read back as lines.

 A description or a custom pattern is a string literal and may itself hold a
 newline; identifiers never do. When no description and no pattern holds one,
 the template's lines are exactly the title, the description lines and the
 data section, and each line can be named.
 */
module TemplateFacts {
  import opened Syntax
  import opened Args
  import opened Resolve
  import opened Attrs
  import opened Text
  import opened Items
  import opened Layout
  import opened Macro
  import ArgsFacts

  /** A mode whose placeholder suffix stays on one line. */
  predicate PlainMode(f: Fmt)
  {
    NoNewline(Suffix(f))
  }

  /** An argument list whose description and mode stay on one line. */
  predicate PlainArgs(a: ErrorArgs)
  {
    && (a.desc.Some? ==> NoNewline(a.desc.value))
    && (a.fmt.Some? ==> PlainMode(a.fmt.value))
  }

  predicate PlainVariantArgs(vargs: Option<ErrorArgs>)
  {
    vargs.Some? ==> PlainArgs(vargs.value)
  }

  /** Field names and the fields' own modes stay on one line. */
  predicate PlainFields(fields: Fields)
  {
    && (forall i :: 0 <= i < |FieldAttrs(fields)| ==>
          FieldOverride(FieldAttrs(fields)[i]).Some? ==> PlainMode(FieldOverride(FieldAttrs(fields)[i]).value))
    && (fields.Named? ==> forall i :: 0 <= i < |fields.named| ==> NoNewline(fields.named[i].0))
  }

  lemma NoNewlineConcat(a: string, b: string)
    requires NoNewline(a) && NoNewline(b)
    ensures NoNewline(a + b)
  {
    assert forall i :: |a| <= i < |a + b| ==> (a + b)[i] == b[i - |a|];
  }

  lemma AllNoNewlineAppend(a: seq<string>, b: seq<string>)
    requires AllNoNewline(a) && AllNoNewline(b)
    ensures AllNoNewline(a + b)
  {
    assert forall i :: |a| <= i < |a + b| ==> (a + b)[i] == b[i - |a|];
  }

  /** The resolved mode of a field stays on one line when every level it
      may come from does. */
  lemma PlainFieldFmt(attrs: seq<Attr>, root: ErrorArgs, vargs: Option<ErrorArgs>)
    requires PlainArgs(root) && PlainVariantArgs(vargs)
    requires FieldOverride(attrs).Some? ==> PlainMode(FieldOverride(attrs).value)
    ensures PlainMode(FieldFmt(attrs, root, vargs))
  {
  }

  /** A field line is a single line. */
  lemma PlainFieldLine(ident: string, prefixed: bool, f: Fmt)
    requires NoNewline(ident) && PlainMode(f)
    ensures NoNewline(FieldLine(ident, prefixed, f))
  {
    var head := if prefixed then ident + ": " else "";
    if prefixed {
      NoNewlineConcat(ident, ": ");
    }
    NoNewlineConcat(head, "{");
    NoNewlineConcat(head + "{", ident);
    NoNewlineConcat(head + "{" + ident, Suffix(f));
    NoNewlineConcat(head + "{" + ident + Suffix(f), "}");
  }

  /** Each line of the data section after the marker is a single line. */
  lemma PlainDataLine(fields: Fields, root: ErrorArgs, vargs: Option<ErrorArgs>, k: nat)
    requires PlainArgs(root) && PlainVariantArgs(vargs) && PlainFields(fields)
    requires k < |FieldAttrs(fields)|
    ensures 1 + k < |DataLines(fields, root, vargs)|
    ensures NoNewline(DataLines(fields, root, vargs)[1 + k])
  {
    PlainFieldFmt(FieldAttrs(fields)[k], root, vargs);
    if fields.Named? {
      assert FieldAttrs(fields)[k] == fields.named[k].1;
      NamedDataLine(fields, root, vargs, k);
      PlainFieldLine(fields.named[k].0, true, FieldFmt(fields.named[k].1, root, vargs));
    } else {
      assert fields.Unnamed?;
      UnnamedDataLine(fields.unnamed, root, vargs, k);
      PlainFieldLine(Decimal(k), |fields.unnamed| > 1, FieldFmt(fields.unnamed[k], root, vargs));
    }
  }

  /** The data section is made of single lines. */
  lemma PlainDataLines(fields: Fields, root: ErrorArgs, vargs: Option<ErrorArgs>)
    requires PlainArgs(root) && PlainVariantArgs(vargs) && PlainFields(fields)
    ensures AllNoNewline(DataLines(fields, root, vargs))
  {
    var lines := DataLines(fields, root, vargs);
    DataLinesShape(fields, root, vargs);
    assert NoNewline(DebugTitle);
    forall i | 0 <= i < |lines|
      ensures NoNewline(lines[i])
    {
      if i > 0 {
        PlainDataLine(fields, root, vargs, i - 1);
      }
    }
  }

  /** The data section has no line for a unit field list, and otherwise the
      marker and one line per field. */
  lemma DataLinesShape(fields: Fields, root: ErrorArgs, vargs: Option<ErrorArgs>)
    ensures |DataLines(fields, root, vargs)| == if fields.Unit? then 0 else 1 + |FieldAttrs(fields)|
    ensures !fields.Unit? ==> DataLines(fields, root, vargs)[0] == DebugTitle
  {
  }

  /** The description lines of a variant are single lines. */
  lemma PlainDescLines(typeId: string, variantId: string, rootDesc: Option<string>, variantDesc: Option<string>)
    requires NoNewline(typeId) && NoNewline(variantId)
    requires rootDesc.Some? ==> NoNewline(rootDesc.value)
    requires variantDesc.Some? ==> NoNewline(variantDesc.value)
    ensures AllNoNewline(DescLines(typeId, variantId, rootDesc, variantDesc))
  {
    if rootDesc.Some? && variantDesc.Some? {
      NoNewlineConcat(typeId, ": ");
      NoNewlineConcat(typeId + ": ", rootDesc.value);
      NoNewlineConcat(variantId, ": ");
      NoNewlineConcat(variantId + ": ", variantDesc.value);
    }
  }

  /** A title followed by the block of description and data lines reads
      back as exactly those lines, when none holds a newline. */
  lemma TitledLines(title: string, descs: seq<string>, data: seq<string>)
    requires NoNewline(title) && AllNoNewline(descs) && AllNoNewline(data)
    ensures Split(title + Block(descs + data)) == [title] + descs + data
  {
    AllNoNewlineAppend(descs, data);
    SplitBlock(title, descs + data);
  }

  /** The title of a variant is a single line. */
  lemma PlainTitle(typeId: string, variantId: string)
    requires NoNewline(typeId) && NoNewline(variantId)
    ensures NoNewline(Title(typeId, Some(variantId)))
    ensures Title(typeId, Some(variantId)) == typeId + "::" + variantId
  {
    NoNewlineConcat(typeId, "::");
    NoNewlineConcat(typeId + "::", variantId);
  }

  /** Read as lines, a variant's template is its title, its description
      lines and its data section, in that order. */
  lemma VariantTemplateLines(typeId: string, variantId: string, root: ErrorArgs,
                             vargs: Option<ErrorArgs>, fields: Fields)
    requires NoNewline(typeId) && NoNewline(variantId)
    requires PlainArgs(root) && PlainVariantArgs(vargs) && PlainFields(fields)
    ensures Split(VariantTemplate(typeId, variantId, root, vargs, fields))
         == [typeId + "::" + variantId]
            + DescLines(typeId, variantId, root.desc, VariantDesc(vargs))
            + DataLines(fields, root, vargs)
  {
    var descs := DescLines(typeId, variantId, root.desc, VariantDesc(vargs));
    var data := DataLines(fields, root, vargs);
    PlainDescLines(typeId, variantId, root.desc, VariantDesc(vargs));
    PlainDataLines(fields, root, vargs);
    PlainTitle(typeId, variantId);
    TitledLines(Title(typeId, Some(variantId)), descs, data);
  }

  /** The pieces of a line list made of a title, description lines and data
      lines. */
  lemma Pieces(lines: seq<string>, title: string, descs: seq<string>, data: seq<string>)
    requires lines == [title] + descs + data
    ensures |lines| == 1 + |descs| + |data| && lines[0] == title
    ensures forall i :: 0 <= i < |descs| ==> lines[1 + i] == descs[i]
    ensures forall i :: 0 <= i < |data| ==> lines[1 + |descs| + i] == data[i]
    ensures lines[1..] == descs + data
  {
  }

  /** Read as lines, a struct's template is its name, the root description
      if any, and its data section. */
  lemma StructTemplateLines(typeId: string, root: ErrorArgs, fields: Fields)
    requires NoNewline(typeId) && PlainArgs(root) && PlainFields(fields)
    ensures Split(StructTemplate(typeId, root, fields))
         == [typeId] + StructDescLines(root.desc) + DataLines(fields, root, None)
  {
    var descs := StructDescLines(root.desc);
    var data := DataLines(fields, root, None);
    assert AllNoNewline(descs);
    PlainDataLines(fields, root, None);
    TitledLines(Title(typeId, None), descs, data);
  }

  /** A struct is templated as an enum variant without argument list of its
      own would be: after the title, the lines agree. */
  lemma StructIsBareVariant(typeId: string, variantId: string, root: ErrorArgs, fields: Fields)
    requires NoNewline(typeId) && NoNewline(variantId) && PlainArgs(root) && PlainFields(fields)
    ensures Split(StructTemplate(typeId, root, fields))[0] == typeId
    ensures Split(StructTemplate(typeId, root, fields))[1..]
         == Split(VariantTemplate(typeId, variantId, root, None, fields))[1..]
  {
    var descs := StructDescLines(root.desc);
    var data := DataLines(fields, root, None);
    StructTemplateLines(typeId, root, fields);
    VariantTemplateLines(typeId, variantId, root, None, fields);
    assert descs == DescLines(typeId, variantId, root.desc, None);
    Pieces(Split(StructTemplate(typeId, root, fields)), typeId, descs, data);
    Pieces(Split(VariantTemplate(typeId, variantId, root, None, fields)), typeId + "::" + variantId, descs, data);
  }

  /** A variant's template, read back as lines. */
  function TemplateLines(typeId: string, variantId: string, root: ErrorArgs,
                         vargs: Option<ErrorArgs>, fields: Fields): seq<string>
  {
    Split(VariantTemplate(typeId, variantId, root, vargs, fields))
  }

  /** The description policy, read off the template: both descriptions are
      prefixed by the type and variant names; one alone is unprefixed; with
      none, the data section (if any) follows the title directly. */
  lemma DescriptionPolicy(typeId: string, variantId: string, root: ErrorArgs,
                          vargs: Option<ErrorArgs>, fields: Fields)
    requires NoNewline(typeId) && NoNewline(variantId)
    requires PlainArgs(root) && PlainVariantArgs(vargs) && PlainFields(fields)
    ensures |TemplateLines(typeId, variantId, root, vargs, fields)|
         >= 1 + |DescLines(typeId, variantId, root.desc, VariantDesc(vargs))|
    ensures var lines := TemplateLines(typeId, variantId, root, vargs, fields);
            var rd, vd := root.desc, VariantDesc(vargs);
            && lines[0] == typeId + "::" + variantId
            && (rd.Some? && vd.Some? ==> lines[1] == typeId + ": " + rd.value && lines[2] == variantId + ": " + vd.value)
            && (rd.Some? && vd.None? ==> lines[1] == rd.value)
            && (rd.None? && vd.Some? ==> lines[1] == vd.value)
            && (rd.None? && vd.None? ==> lines[1..] == DataLines(fields, root, vargs))
  {
    var descs := DescLines(typeId, variantId, root.desc, VariantDesc(vargs));
    VariantTemplateLines(typeId, variantId, root, vargs, fields);
    Pieces(TemplateLines(typeId, variantId, root, vargs, fields), typeId + "::" + variantId,
           descs, DataLines(fields, root, vargs));
  }

  /** The template has a line for the title, each description and each
      line of the data section. */
  lemma TemplateLength(typeId: string, variantId: string, root: ErrorArgs,
                       vargs: Option<ErrorArgs>, fields: Fields)
    requires NoNewline(typeId) && NoNewline(variantId)
    requires PlainArgs(root) && PlainVariantArgs(vargs) && PlainFields(fields)
    ensures |TemplateLines(typeId, variantId, root, vargs, fields)|
         == 1 + |DescLines(typeId, variantId, root.desc, VariantDesc(vargs))| + |DataLines(fields, root, vargs)|
  {
    VariantTemplateLines(typeId, variantId, root, vargs, fields);
  }

  /** Line `j` of the data section is the template's line `j` after the
      descriptions. */
  lemma DataLineAt(typeId: string, variantId: string, root: ErrorArgs,
                   vargs: Option<ErrorArgs>, fields: Fields, j: nat)
    requires NoNewline(typeId) && NoNewline(variantId)
    requires PlainArgs(root) && PlainVariantArgs(vargs) && PlainFields(fields)
    requires j < |DataLines(fields, root, vargs)|
    ensures var n := |DescLines(typeId, variantId, root.desc, VariantDesc(vargs))|;
            && 1 + n + j < |TemplateLines(typeId, variantId, root, vargs, fields)|
            && TemplateLines(typeId, variantId, root, vargs, fields)[1 + n + j] == DataLines(fields, root, vargs)[j]
  {
    VariantTemplateLines(typeId, variantId, root, vargs, fields);
    PieceAt(TemplateLines(typeId, variantId, root, vargs, fields), typeId + "::" + variantId,
            DescLines(typeId, variantId, root.desc, VariantDesc(vargs)), DataLines(fields, root, vargs), j);
  }

  /** One data line of a line list made of a title, descriptions and data. */
  lemma PieceAt(lines: seq<string>, title: string, descs: seq<string>, data: seq<string>, j: nat)
    requires lines == [title] + descs + data && j < |data|
    ensures 1 + |descs| + j < |lines| && lines[1 + |descs| + j] == data[j]
  {
  }

  /** The data section, read off the template: none at all for a unit
      variant; otherwise the marker line and then one line per field. */
  lemma DataSection(typeId: string, variantId: string, root: ErrorArgs,
                    vargs: Option<ErrorArgs>, fields: Fields)
    requires NoNewline(typeId) && NoNewline(variantId)
    requires PlainArgs(root) && PlainVariantArgs(vargs) && PlainFields(fields)
    ensures var lines := TemplateLines(typeId, variantId, root, vargs, fields);
            var k := 1 + |DescLines(typeId, variantId, root.desc, VariantDesc(vargs))|;
            && k <= |lines|
            && (fields.Unit? <==> |lines| == k)
            && (!fields.Unit? ==> |lines| == k + 1 + |FieldAttrs(fields)| && lines[k] == DebugTitle)
  {
    TemplateLength(typeId, variantId, root, vargs, fields);
    if !fields.Unit? {
      DataLineAt(typeId, variantId, root, vargs, fields, 0);
    }
  }

  /** A named field's line in the data section: `name: {name<suffix>}`.
      With `DataLineAt` this is the template's line of the field. */
  lemma NamedDataLine(fields: Fields, root: ErrorArgs, vargs: Option<ErrorArgs>, i: nat)
    requires fields.Named? && i < |fields.named|
    ensures |DataLines(fields, root, vargs)| == 1 + |fields.named|
    ensures DataLines(fields, root, vargs)[1 + i]
         == fields.named[i].0 + ": " + "{" + fields.named[i].0 + Suffix(FieldFmt(fields.named[i].1, root, vargs)) + "}"
  {
    var fs := fields.named;
    var rest := seq(|fs|, j requires 0 <= j < |fs| => FieldLine(fs[j].0, true, FieldFmt(fs[j].1, root, vargs)));
    assert DataLines(fields, root, vargs) == [DebugTitle] + rest;
    assert rest[i] == FieldLine(fs[i].0, true, FieldFmt(fs[i].1, root, vargs));
  }

  /** An unnamed field's line in the data section: `{0<suffix>}` for a
      single field; `i: {i<suffix>}` for field `i` of two or more. */
  lemma UnnamedDataLine(fs: seq<seq<Attr>>, root: ErrorArgs, vargs: Option<ErrorArgs>, i: nat)
    requires i < |fs|
    ensures |DataLines(Unnamed(fs), root, vargs)| == 1 + |fs|
    ensures |fs| == 1 ==> DataLines(Unnamed(fs), root, vargs)[1] == "{" + "0" + Suffix(FieldFmt(fs[0], root, vargs)) + "}"
    ensures |fs| > 1 ==> DataLines(Unnamed(fs), root, vargs)[1 + i]
                         == Decimal(i) + ": " + "{" + Decimal(i) + Suffix(FieldFmt(fs[i], root, vargs)) + "}"
  {
    UnnamedLineAt(fs, root, vargs, i);
    FieldLineSpelled(Decimal(i), FieldFmt(fs[i], root, vargs));
    if |fs| == 1 {
      UnnamedLineAt(fs, root, vargs, 0);
      FieldLineSpelled(Decimal(0), FieldFmt(fs[0], root, vargs));
      assert Decimal(0) == "0";
    }
  }

  /** A field line spelled out, with and without its prefix. */
  lemma FieldLineSpelled(ident: string, fmt: Fmt)
    ensures FieldLine(ident, true, fmt) == ident + ": " + "{" + ident + Suffix(fmt) + "}"
    ensures FieldLine(ident, false, fmt) == "{" + ident + Suffix(fmt) + "}"
  {
  }

  // ----- attributes -----

  /** The field's own `#[fmt(...)]` wins over every inherited mode: when the
      last one spells `f`, the field is rendered with `f`. */
  lemma FieldOverrideWins(attrs: seq<Attr>, k: nat, f: Fmt, root: ErrorArgs, vargs: Option<ErrorArgs>)
    requires LastIndex(attrs, FmtAttr) == Some(k) && attrs[k].meta == Delimited(FmtTokens(f))
    ensures FieldFmt(attrs, root, vargs) == f
  {
    ArgsFacts.FieldFmtExact(FmtTokens(f), f);
  }

  /** After a variant is expanded its last attribute is the template, and
      the count of `error` attributes is the same as before (the last one
      was replaced), or one when there was none. So a variant with at most
      one `#[error(...)]` ends up with exactly one: the template. */
  lemma VariantErrorAttrs(typeId: string, root: ErrorArgs, v: Variant)
    requires ExpandVariant(typeId, root, v).Ok?
    ensures var out := ExpandVariant(typeId, root, v).value;
            var before := Count(v.attrs, ErrorAttr);
            && |out.attrs| > 0
            && out.attrs[|out.attrs| - 1]
                 == TemplateAttr(VariantTemplate(typeId, v.ident, root, VariantConfig(v.attrs), v.fields))
            && Count(out.attrs, ErrorAttr) == (if before == 0 then 1 else before)
  {
    var kept := Consume(v.attrs, ErrorAttr);
    var template := TemplateAttr(VariantTemplate(typeId, v.ident, root, VariantConfig(v.attrs), v.fields));
    ConsumeCount(v.attrs, ErrorAttr);
    CountAppend(kept, [template], ErrorAttr);
    assert [template][..0] == [];
  }

  /** After expansion each field has one `#[fmt(...)]` fewer, or none when
      it had none: a single one is removed completely. */
  lemma FieldFmtAttrsConsumed(fields: Fields, i: nat)
    requires i < |FieldAttrs(fields)|
    ensures |FieldAttrs(ConsumeFields(fields))| == |FieldAttrs(fields)|
    ensures var before := Count(FieldAttrs(fields)[i], FmtAttr);
            Count(FieldAttrs(ConsumeFields(fields))[i], FmtAttr) == (if before == 0 then 0 else before - 1)
  {
    assert FieldAttrs(ConsumeFields(fields))[i] == Consume(FieldAttrs(fields)[i], FmtAttr);
    ConsumeCount(FieldAttrs(fields)[i], FmtAttr);
  }
}
