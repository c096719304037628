/**
 The expansion of `#[Error]` (src/lib.rs, `pub fn Error`), without the token
 plumbing around it.

 The root argument list is parsed first. For an enum, every variant in turn
 gets its last `#[error(...)]` parsed and removed, its template built, and a
 new `#[error("<template>")]` attribute appended. For a struct, the one
 template goes on the struct itself. A union is rejected. The first error
 anywhere aborts the whole expansion.
 */
module Macro {
  import opened Syntax
  import opened Args
  import opened Resolve
  import opened Attrs
  import opened Text
  import opened Items
  import opened Layout
  import opened Output

  /** The attribute `#[error("<template>")]` the macro attaches. */
  function TemplateAttr(template: string): Attr
  {
    Attr(ErrorAttr, Delimited([StrLit(template)]))
  }

  /** The root argument list: an empty list stands for no arguments and is
      not parsed; any other list must parse. */
  function RootArgs(args: seq<Token>): (r: Result<ErrorArgs>)
    ensures |args| == 0 ==> r == Ok(NoArgs)
    ensures r.Ok? && |args| > 0 ==> Spells(args, r.value)
  {
    if |args| == 0 then Ok(NoArgs) else ParseArgs(args)
  }

  /** The argument list a variant's attributes give it: that of its last
      `#[error(...)]`, if any. */
  function VariantConfig(attrs: seq<Attr>): Option<ErrorArgs>
  {
    LastValue(attrs, ErrorAttr, ParseVariantArgs)
  }

  /** A title followed by a block of description lines, followed by a block
      of data lines, is the title followed by one block of all those lines. */
  lemma Assemble(title: string, descs: seq<string>, data: seq<string>, described: string, full: string)
    requires described == title + Block(descs)
    requires full == described + Block(data)
    ensures full == title + Block(descs + data)
  {
    BlockAppend(descs, data);
  }

  /** The description block of an enum variant: both descriptions prefixed
      by the type and variant names, else the one present unprefixed, else
      nothing. */
  function PushVariantDesc(buf: string, typeId: string, variantId: string,
                           rootDesc: Option<string>, vargs: Option<ErrorArgs>): (r: string)
    ensures r == buf + Block(DescLines(typeId, variantId, rootDesc, VariantDesc(vargs)))
  {
    match (rootDesc, vargs)
    case (Some(errorDesc), Some(ErrorArgs(Some(variantDesc), _))) =>
      var once := PushDesc(buf, Some(typeId), errorDesc);
      BlockAppend([typeId + ": " + errorDesc], [variantId + ": " + variantDesc]);
      PushDesc(once, Some(variantId), variantDesc)
    case (Some(errorDesc), Some(ErrorArgs(None, _))) => PushDesc(buf, None, errorDesc)
    case (Some(errorDesc), None) => PushDesc(buf, None, errorDesc)
    case (None, Some(ErrorArgs(Some(variantDesc), _))) => PushDesc(buf, None, variantDesc)
    case (None, _) => buf
  }

  /** The title and description block of a variant's template. */
  function VariantHead(typeId: string, variantId: string, rootDesc: Option<string>,
                       vargs: Option<ErrorArgs>): (r: string)
    ensures r == Title(typeId, Some(variantId)) + Block(DescLines(typeId, variantId, rootDesc, VariantDesc(vargs)))
  {
    PushVariantDesc(PushTitle("", typeId, Some(variantId)), typeId, variantId, rootDesc, vargs)
  }

  /** The template of one variant, built as the source builds it: title,
      description block, then the data section. */
  function BuildVariant(typeId: string, root: ErrorArgs, variantId: string,
                        vargs: Option<ErrorArgs>, fields: Fields): (r: Result<(string, Fields)>)
    ensures r.Ok? <==> FieldsParse(fields)
    ensures r.Ok? ==> r.value == (VariantTemplate(typeId, variantId, root, vargs, fields), ConsumeFields(fields))
    ensures r.Err? ==> FieldsFailure(fields, r.error)
  {
    var head := VariantHead(typeId, variantId, root.desc, vargs);
    var pushed :- PushFields(head, fields, root, vargs);
    Assemble(Title(typeId, Some(variantId)), DescLines(typeId, variantId, root.desc, VariantDesc(vargs)),
             DataLines(fields, root, vargs), head, pushed.0);
    Ok(pushed)
  }

  /** One iteration of the variant loop: select and remove the variant's
      last `#[error(...)]`, build its template, and append the template
      attribute. */
  function ExpandVariant(typeId: string, root: ErrorArgs, v: Variant): (r: Result<Variant>)
    ensures r.Ok? <==> AllParse(v.attrs, ErrorAttr, ParseVariantArgs) && FieldsParse(v.fields)
    ensures r.Ok? ==>
              r.value == Variant(v.ident,
                                 Consume(v.attrs, ErrorAttr)
                                   + [TemplateAttr(VariantTemplate(typeId, v.ident, root, VariantConfig(v.attrs), v.fields))],
                                 ConsumeFields(v.fields))
    ensures r.Err? ==> || FirstFailure(v.attrs, ErrorAttr, ParseVariantArgs, r.error)
                       || (AllParse(v.attrs, ErrorAttr, ParseVariantArgs) && FieldsFailure(v.fields, r.error))
  {
    var found :- LastAttr(v.attrs, ErrorAttr, ParseVariantArgs);
    var attrs := if found.Some? then RemoveAt(v.attrs, found.value.0) else v.attrs;
    var vargs := if found.Some? then Some(found.value.1) else None;
    assert attrs == Consume(v.attrs, ErrorAttr);
    assert vargs == VariantConfig(v.attrs);
    var built :- BuildVariant(typeId, root, v.ident, vargs, v.fields);
    Ok(Variant(v.ident, attrs + [TemplateAttr(built.0)], built.1))
  }

  /** The variant loop: every variant in declared order, stopping at the
      first error. Each variant is expanded on its own. */
  function ExpandVariants(typeId: string, root: ErrorArgs, vs: seq<Variant>): (r: Result<seq<Variant>>)
    ensures r.Ok? <==> forall i :: 0 <= i < |vs| ==> ExpandVariant(typeId, root, vs[i]).Ok?
    ensures r.Ok? ==> && |r.value| == |vs|
                      && forall i :: 0 <= i < |vs| ==> ExpandVariant(typeId, root, vs[i]) == Ok(r.value[i])
    ensures r.Err? ==> exists i :: && 0 <= i < |vs|
                                   && ExpandVariant(typeId, root, vs[i]) == Err(r.error)
                                   && forall k :: 0 <= k < i ==> ExpandVariant(typeId, root, vs[k]).Ok?
  {
    EachInTurn((v: Variant) => ExpandVariant(typeId, root, v), vs)
  }

  /** A fallible step applied to every element in order, stopping at the
      first error. */
  function EachInTurn<V, W>(step: V -> Result<W>, vs: seq<V>): (r: Result<seq<W>>)
    ensures r.Ok? <==> forall i :: 0 <= i < |vs| ==> step(vs[i]).Ok?
    ensures r.Ok? ==> && |r.value| == |vs|
                      && forall i :: 0 <= i < |vs| ==> step(vs[i]) == Ok(r.value[i])
    ensures r.Err? ==> exists i :: && 0 <= i < |vs|
                                   && step(vs[i]) == Err(r.error)
                                   && forall k :: 0 <= k < i ==> step(vs[k]).Ok?
    decreases |vs|
  {
    if |vs| == 0 then Ok([])
    else
      var first :- step(vs[0]);
      var rest :- EachInTurn(step, vs[1..]);
      assert forall i :: 1 <= i < |vs| ==> vs[i] == vs[1..][i - 1];
      Ok([first] + rest)
  }

  /** The struct branch: one template, with the root description alone, on
      the struct itself. */
  function ExpandStruct(typeId: string, attrs: seq<Attr>, root: ErrorArgs, fields: Fields): (r: Result<Decl>)
    ensures r.Ok? <==> FieldsParse(fields)
    ensures r.Ok? ==> r.value == Decl(typeId, attrs + [TemplateAttr(StructTemplate(typeId, root, fields))],
                                      Struct(ConsumeFields(fields)))
    ensures r.Err? ==> FieldsFailure(fields, r.error)
  {
    var titled := PushTitle("", typeId, None);
    var described := if root.desc.Some? then PushDesc(titled, None, root.desc.value) else titled;
    assert described == Title(typeId, None) + Block(StructDescLines(root.desc));
    var pushed :- PushFields(described, fields, root, None);
    Assemble(Title(typeId, None), StructDescLines(root.desc), DataLines(fields, root, None), described, pushed.0);
    Ok(Decl(typeId, attrs + [TemplateAttr(pushed.0)], Struct(pushed.1)))
  }

  /** `Error`: parse the root arguments, then dispatch on the shape of the
      declaration. */
  function Expand(args: seq<Token>, decl: Decl): (r: Result<Decl>)
    ensures RootArgs(args).Err? ==> r == Err(RootArgs(args).error)
    ensures RootArgs(args).Ok? && decl.data.Union? ==> r == Err(UnionUnsupported)
    ensures r.Ok? ==> && RootArgs(args).Ok?
                      && r.value.ident == decl.ident
                      && (decl.data.Enum? <==> r.value.data.Enum?)
                      && (decl.data.Struct? <==> r.value.data.Struct?)
    ensures r.Ok? && decl.data.Enum? ==>
              && r.value.attrs == decl.attrs
              && |r.value.data.variants| == |decl.data.variants|
              && forall i :: 0 <= i < |decl.data.variants| ==>
                   ExpandVariant(decl.ident, RootArgs(args).value, decl.data.variants[i])
                     == Ok(r.value.data.variants[i])
    ensures RootArgs(args).Ok? && decl.data.Enum? ==>
              && (r.Ok? <==> forall i :: 0 <= i < |decl.data.variants| ==>
                               ExpandVariant(decl.ident, RootArgs(args).value, decl.data.variants[i]).Ok?)
              && (r.Err? ==> exists i :: && 0 <= i < |decl.data.variants|
                                         && ExpandVariant(decl.ident, RootArgs(args).value, decl.data.variants[i]) == Err(r.error)
                                         && forall k :: 0 <= k < i ==>
                                              ExpandVariant(decl.ident, RootArgs(args).value, decl.data.variants[k]).Ok?)
    ensures RootArgs(args).Ok? && decl.data.Struct? ==>
              && (r.Ok? <==> FieldsParse(decl.data.fields))
              && (r.Err? ==> FieldsFailure(decl.data.fields, r.error))
    ensures r.Ok? && decl.data.Struct? ==>
              r.value == Decl(decl.ident,
                              decl.attrs + [TemplateAttr(StructTemplate(decl.ident, RootArgs(args).value, decl.data.fields))],
                              Struct(ConsumeFields(decl.data.fields)))
  {
    var root :- RootArgs(args);
    match decl.data
    case Enum(vs) =>
      var expanded :- ExpandVariants(decl.ident, root, vs);
      Ok(Decl(decl.ident, decl.attrs, Enum(expanded)))
    case Struct(fields) =>
      ExpandStruct(decl.ident, decl.attrs, root, fields)
    case Union =>
      Err(UnionUnsupported)
  }
}
