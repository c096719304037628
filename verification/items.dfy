/**
 The declaration the macro is attached to (syn's `DeriveInput` as far as the
 macro looks at it): a name, outer attributes, and an enum, a struct or a
 union body.
 */
module Items {
  import opened Syntax

  /** `ERROR_ATTR`: the path of variant argument attributes and of the
      template attribute the macro adds. */
  const ErrorAttr := "error"

  /** `FMT_ATTR`: the path of field formatting attributes. */
  const FmtAttr := "fmt"

  /** The fields of a variant or struct, in declared order: named fields with
      their name and attributes, unnamed fields with their attributes, or no
      field list at all. */
  datatype Fields =
    | Named(named: seq<(string, seq<Attr>)>)
    | Unnamed(unnamed: seq<seq<Attr>>)
    | Unit

  datatype Variant = Variant(ident: string, attrs: seq<Attr>, fields: Fields)

  datatype Data = Enum(variants: seq<Variant>) | Struct(fields: Fields) | Union

  datatype Decl = Decl(ident: string, attrs: seq<Attr>, data: Data)
}
