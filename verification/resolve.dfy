/**
 Formatting-mode resolution (src/lib.rs, `Fmt::derive` and `Fmt::default`).

 A field's formatting mode comes from the most specific level that sets one:
 the field's own `#[fmt(...)]`, else the variant's `fmt` argument, else the
 root `fmt` argument, else `Display`. Each aspect is inherited on its own: a
 variant argument list that sets only `desc` does not hide the root `fmt`.
 */
module Resolve {
  import opened Syntax
  import opened Args

  /** `impl Default for Fmt`. */
  const DefaultFmt := Display

  /** The `fmt` a variant's argument list sets, if it has one. */
  function VariantFmt(variant: Option<ErrorArgs>): Option<Fmt>
  {
    if variant.Some? then variant.value.fmt else None
  }

  /** Reference definition: the first mode set along a chain of levels,
      ordered from the most specific, or the default when none is set. */
  function FirstSet(chain: seq<Option<Fmt>>): (f: Fmt)
    ensures || (exists i :: 0 <= i < |chain| && chain[i] == Some(f)
                               && forall j :: 0 <= j < i ==> chain[j].None?)
            || (f == DefaultFmt && forall i :: 0 <= i < |chain| ==> chain[i].None?)
  {
    if |chain| == 0 then DefaultFmt
    else if chain[0].Some? then chain[0].value
    else
      var f := FirstSet(chain[1..]);
      assert forall i :: 1 <= i < |chain| ==> chain[i] == chain[1..][i - 1];
      f
  }

  /** `Fmt::derive`: the field override, else the variant's `fmt`, else the
      root's `fmt`, else the default. The result is always the mode some
      level sets, or the default when no level sets one. */
  function Derive(root: ErrorArgs, variant: Option<ErrorArgs>, field: Option<Fmt>): (f: Fmt)
    ensures field.Some? ==> f == field.value
    ensures || Some(f) == field || Some(f) == VariantFmt(variant) || Some(f) == root.fmt
            || (f == DefaultFmt && field.None? && VariantFmt(variant).None? && root.fmt.None?)
  {
    match field
    case Some(fmt) => fmt
    case None =>
      match variant
      case Some(ErrorArgs(_, Some(fmt))) => fmt
      case _ =>
        match root.fmt
        case Some(fmt) => fmt
        case None => DefaultFmt
  }

  /** `Derive` is the first-set rule over the chain field, variant, root. */
  lemma DeriveIsFirstSet(root: ErrorArgs, variant: Option<ErrorArgs>, field: Option<Fmt>)
    ensures Derive(root, variant, field) == FirstSet([field, VariantFmt(variant), root.fmt])
  {
    var chain := [field, VariantFmt(variant), root.fmt];
    assert chain[1..] == [VariantFmt(variant), root.fmt];
    assert chain[1..][1..] == [root.fmt];
    assert chain[1..][1..][1..] == [];
    if field.None? {
      assert FirstSet(chain) == FirstSet(chain[1..]);
      if VariantFmt(variant).None? {
        assert FirstSet(chain[1..]) == FirstSet(chain[1..][1..]);
        if root.fmt.None? {
          assert FirstSet(chain[1..][1..]) == FirstSet(chain[1..][1..][1..]);
        }
      }
    }
  }

  /** Descriptions never take part in resolution: changing the root's or the
      variant's `desc` leaves the resolved mode as it was. */
  lemma DeriveIgnoresDescriptions(root: ErrorArgs, variant: Option<ErrorArgs>, field: Option<Fmt>,
                                  rootDesc: Option<string>, variantDesc: Option<string>)
    ensures Derive(root.(desc := rootDesc),
                   if variant.Some? then Some(variant.value.(desc := variantDesc)) else None,
                   field)
            == Derive(root, variant, field)
  {
  }

  /** Aspects are inherited separately: a variant argument list without `fmt`
      resolves exactly as no variant argument list at all, so the root `fmt`
      still applies to its fields. */
  lemma VariantWithoutFmtFallsThrough(root: ErrorArgs, variantDesc: Option<string>, field: Option<Fmt>)
    ensures Derive(root, Some(ErrorArgs(variantDesc, None)), field) == Derive(root, None, field)
    ensures field.None? && root.fmt.Some? ==>
              Derive(root, Some(ErrorArgs(variantDesc, None)), field) == root.fmt.value
  {
  }
}
