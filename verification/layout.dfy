/**
 The template a variant or struct receives, stated as a list of lines.

 A template is a title line, then the description lines, then the data
 section: the marker line `=== DEBUG DATA:` and one line per field in
 declared order. Unit variants and unit structs have no data section; any
 braced or parenthesised field list has one, even when it is empty.

 This module is the reference the push-based builder of `Output` and the
 expansion of `Macro` are proved against.
 */
module Layout {
  import opened Syntax
  import opened Args
  import opened Resolve
  import opened Attrs
  import opened Text
  import opened Items

  /** The marker line opening the data section. */
  const DebugTitle := "=== DEBUG DATA:"

  /** `Type::Variant` for an enum variant, `Type` for a struct. */
  function Title(typeId: string, variantId: Option<string>): string
  {
    if variantId.Some? then typeId + "::" + variantId.value else typeId
  }

  /** The description a variant's argument list sets, if any. */
  function VariantDesc(vargs: Option<ErrorArgs>): Option<string>
  {
    if vargs.Some? then vargs.value.desc else None
  }

  /** Description lines of an enum variant: with both descriptions, each on
      its own line prefixed by the type and the variant name; with one, that
      one alone and unprefixed; with none, no line. */
  function DescLines(typeId: string, variantId: string,
                     rootDesc: Option<string>, variantDesc: Option<string>): seq<string>
  {
    match (rootDesc, variantDesc)
    case (Some(r), Some(v)) => [typeId + ": " + r, variantId + ": " + v]
    case (Some(r), None) => [r]
    case (None, Some(v)) => [v]
    case (None, None) => []
  }

  /** The line of one field: `ident: {ident<suffix>}` when prefixed,
      `{ident<suffix>}` otherwise. */
  function FieldLine(ident: string, prefixed: bool, fmt: Fmt): string
  {
    (if prefixed then ident + ": " else "") + "{" + ident + Suffix(fmt) + "}"
  }

  /** The formatting mode a field's own `#[fmt(...)]` sets: the last one. */
  function FieldOverride(attrs: seq<Attr>): Option<Fmt>
  {
    LastValue(attrs, FmtAttr, ParseFieldFmt)
  }

  /** The resolved formatting mode of a field. */
  function FieldFmt(attrs: seq<Attr>, root: ErrorArgs, vargs: Option<ErrorArgs>): Fmt
  {
    Derive(root, vargs, FieldOverride(attrs))
  }

  /** The data section: named fields prefixed by their names; unnamed
      fields prefixed by their position when there are two or more. */
  function DataLines(fields: Fields, root: ErrorArgs, vargs: Option<ErrorArgs>): seq<string>
  {
    match fields
    case Unit => []
    case Named(fs) =>
      [DebugTitle] + seq(|fs|, i requires 0 <= i < |fs| =>
                           FieldLine(fs[i].0, true, FieldFmt(fs[i].1, root, vargs)))
    case Unnamed(fs) =>
      [DebugTitle] + seq(|fs|, i requires 0 <= i < |fs| =>
                           FieldLine(Decimal(i), |fs| > 1, FieldFmt(fs[i], root, vargs)))
  }

  /** Line `1 + i` of an unnamed data section is field `i`'s line. */
  lemma UnnamedLineAt(fs: seq<seq<Attr>>, root: ErrorArgs, vargs: Option<ErrorArgs>, i: nat)
    requires i < |fs|
    ensures |DataLines(Unnamed(fs), root, vargs)| == 1 + |fs|
    ensures DataLines(Unnamed(fs), root, vargs)[1 + i] == FieldLine(Decimal(i), |fs| > 1, FieldFmt(fs[i], root, vargs))
  {
    var rest := seq(|fs|, j requires 0 <= j < |fs| => FieldLine(Decimal(j), |fs| > 1, FieldFmt(fs[j], root, vargs)));
    assert DataLines(Unnamed(fs), root, vargs) == [DebugTitle] + rest;
    assert rest[i] == FieldLine(Decimal(i), |fs| > 1, FieldFmt(fs[i], root, vargs));
  }

  /** The template of an enum variant. */
  function VariantTemplate(typeId: string, variantId: string, root: ErrorArgs,
                           vargs: Option<ErrorArgs>, fields: Fields): string
  {
    Title(typeId, Some(variantId))
      + Block(DescLines(typeId, variantId, root.desc, VariantDesc(vargs)) + DataLines(fields, root, vargs))
  }

  /** The description lines of a struct: the root description alone. */
  function StructDescLines(rootDesc: Option<string>): seq<string>
  {
    if rootDesc.Some? then [rootDesc.value] else []
  }

  /** The template of a struct. */
  function StructTemplate(typeId: string, root: ErrorArgs, fields: Fields): string
  {
    Title(typeId, None) + Block(StructDescLines(root.desc) + DataLines(fields, root, None))
  }

  /** The attribute lists of (identifier, attributes) entries. */
  function AttrLists(entries: seq<(string, seq<Attr>)>): (r: seq<seq<Attr>>)
    ensures |r| == |entries| && forall i :: 0 <= i < |entries| ==> r[i] == entries[i].1
  {
    seq(|entries|, i requires 0 <= i < |entries| => entries[i].1)
  }

  /** The attribute lists of the fields, in declared order. */
  function FieldAttrs(fields: Fields): seq<seq<Attr>>
  {
    match fields
    case Unit => []
    case Named(fs) => AttrLists(fs)
    case Unnamed(fs) => fs
  }

  /** Every `#[fmt(...)]` attribute of every field parses. */
  predicate FieldsParse(fields: Fields)
  {
    ListsParse(FieldAttrs(fields), FmtAttr, ParseFieldFmt)
  }

  /** `e` is the error of the first failing `#[fmt(...)]` attribute of the
      first field that has one. */
  predicate FieldsFailure(fields: Fields, e: ErrKind)
  {
    ListsFailure(FieldAttrs(fields), FmtAttr, ParseFieldFmt, e)
  }

  /** The fields after the macro consumed each field's `#[fmt(...)]`. */
  function ConsumeFields(fields: Fields): Fields
  {
    match fields
    case Unit => Unit
    case Named(fs) => Named(seq(|fs|, i requires 0 <= i < |fs| => (fs[i].0, Consume(fs[i].1, FmtAttr))))
    case Unnamed(fs) => Unnamed(seq(|fs|, i requires 0 <= i < |fs| => Consume(fs[i], FmtAttr)))
  }
}
