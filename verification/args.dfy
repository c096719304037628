/**
 The argument grammar of the macro (src/lib.rs, `ErrorArgs` and `Fmt`).

 An argument list holds one or two `key = value` pairs separated by a comma:
 `desc = "text"` and `fmt = debug | display | "pattern"`, each key at most
 once. The same `fmt` value grammar is used alone inside `#[fmt(...)]` field
 attributes.

 The parsers are written in the order the source consumes tokens, and each
 returns the first error it meets. `DescTokens`, `FmtTokens`, `FmtArgTokens`
 and `Spells` are the reference grammar: the token spellings each value is
 accepted from.
 */
module Args {
  import opened Syntax

  /** How a field's value is rendered in the template placeholder. */
  datatype Fmt = Display | Debug | Custom(pattern: string)

  /** One parsed argument list: the optional description and the optional
      formatting mode. */
  datatype ErrorArgs = ErrorArgs(desc: Option<string>, fmt: Option<Fmt>)

  /** `ErrorArgs::default()`: nothing set. */
  const NoArgs := ErrorArgs(None, None)

  /** A parsed value and the tokens that follow it. */
  datatype Parsed<+T> = Parsed(value: T, rest: seq<Token>)

  /** A literal as syn's `Lit` parser classifies it. */
  datatype Lit = LitStr(value: string) | LitOther

  /** The placeholder suffix of a formatting mode (`impl Display for Fmt`):
      nothing for `Display`, `:#?` for `Debug`, `:` and the pattern for
      `Custom`. */
  function Suffix(f: Fmt): (r: string)
    ensures r == "" <==> f == Display
    ensures f != Display ==> |r| > 0 && r[0] == ':'
    ensures f.Custom? ==> r[1..] == f.pattern
  {
    match f
    case Display => ""
    case Debug => ":#?"
    case Custom(p) => ":" + p
  }

  // ----- reference grammar -----

  /** The spelling of `desc = "s"`. */
  function DescTokens(s: string): seq<Token>
  {
    [DescKw, Eq, StrLit(s)]
  }

  /** The spelling of a `fmt` value. */
  function FmtTokens(f: Fmt): seq<Token>
  {
    match f
    case Debug => [DebugKw]
    case Display => [DisplayKw]
    case Custom(p) => [StrLit(p)]
  }

  /** The spelling of `fmt = value`. */
  function FmtArgTokens(f: Fmt): seq<Token>
  {
    [FmtKw, Eq] + FmtTokens(f)
  }

  /** `ts` is an accepted spelling of `a`: one argument for each key that is
      set, in either order when both are, separated by a comma. An argument
      list with no key set has no spelling. */
  predicate Spells(ts: seq<Token>, a: ErrorArgs)
  {
    match a
    case ErrorArgs(Some(s), None) => ts == DescTokens(s)
    case ErrorArgs(None, Some(f)) => ts == FmtArgTokens(f)
    case ErrorArgs(Some(s), Some(f)) =>
      || ts == DescTokens(s) + [Comma] + FmtArgTokens(f)
      || ts == FmtArgTokens(f) + [Comma] + DescTokens(s)
    case ErrorArgs(None, None) => false
  }

  // ----- parsers -----

  /** Consume the token `t`, or fail with `e`. */
  function Expect(ts: seq<Token>, t: Token, e: ErrKind): (r: Result<seq<Token>>)
    ensures r.Ok? <==> |ts| > 0 && ts[0] == t
    ensures r.Ok? ==> ts == [t] + r.value
    ensures r.Err? ==> r.error == e
  {
    if |ts| > 0 && ts[0] == t then Ok(ts[1..]) else Err(e)
  }

  /** syn's `Lit` parser: one literal token, or "expected literal". */
  function ParseLit(ts: seq<Token>): (r: Result<Parsed<Lit>>)
    ensures r.Ok? ==> |ts| > 0 && r.value.rest == ts[1..]
    ensures r.Ok? && r.value.value.LitStr? ==> ts[0] == StrLit(r.value.value.value)
    ensures r.Ok? && r.value.value.LitOther? ==> ts[0] == OtherLit
    ensures r.Err? ==> r.error == ExpectedLiteral
  {
    if |ts| == 0 then Err(ExpectedLiteral)
    else match ts[0]
      case StrLit(s) => Ok(Parsed(LitStr(s), ts[1..]))
      case OtherLit => Ok(Parsed(LitOther, ts[1..]))
      case _ => Err(ExpectedLiteral)
  }

  /** `ErrorArgs::parse_desc`: `desc`, `=`, then a string literal. */
  function ParseDesc(ts: seq<Token>): (r: Result<Parsed<string>>)
    ensures r.Ok? ==> ts == DescTokens(r.value.value) + r.value.rest
  {
    var afterKey :- Expect(ts, DescKw, ExpectedDesc);
    var afterEq :- Expect(afterKey, Eq, ExpectedEq);
    var lit :- ParseLit(afterEq);
    match lit.value
    case LitStr(s) => Ok(Parsed(s, lit.rest))
    case LitOther => Err(DescNotString)
  }

  /** `impl Parse for Fmt`: the keyword `debug`, else the keyword
      `display`, else a literal that must be a string. */
  function ParseFmt(ts: seq<Token>): (r: Result<Parsed<Fmt>>)
    ensures r.Ok? ==> ts == FmtTokens(r.value.value) + r.value.rest
  {
    if |ts| > 0 && ts[0] == DebugKw then Ok(Parsed(Debug, ts[1..]))
    else if |ts| > 0 && ts[0] == DisplayKw then Ok(Parsed(Display, ts[1..]))
    else
      var lit :- ParseLit(ts);
      match lit.value
      case LitStr(s) => Ok(Parsed(Custom(s), lit.rest))
      case LitOther => Err(FmtNotValid)
  }

  /** `ErrorArgs::parse_fmt`: `fmt`, `=`, then a `fmt` value. */
  function ParseFmtArg(ts: seq<Token>): (r: Result<Parsed<Fmt>>)
    ensures r.Ok? ==> ts == FmtArgTokens(r.value.value) + r.value.rest
  {
    var afterKey :- Expect(ts, FmtKw, ExpectedFmt);
    var afterEq :- Expect(afterKey, Eq, ExpectedEq);
    ParseFmt(afterEq)
  }

  /** `p` is `args` with one more aspect set, that was unset before, by the
      argument spelled at the head of `ts`; `p.rest` is what follows it. */
  predicate Fills(args: ErrorArgs, ts: seq<Token>, p: Parsed<ErrorArgs>)
  {
    || (&& args.desc.None? && p.value.desc.Some? && p.value.fmt == args.fmt
        && ts == DescTokens(p.value.desc.value) + p.rest)
    || (&& args.fmt.None? && p.value.fmt.Some? && p.value.desc == args.desc
        && ts == FmtArgTokens(p.value.fmt.value) + p.rest)
  }

  /** A single filled slot spells the list it sets. */
  lemma OneSlotSpells(ts: seq<Token>, p: Parsed<ErrorArgs>)
    requires Fills(NoArgs, ts, p) && p.rest == []
    ensures Spells(ts, p.value)
  {
    if p.value.desc.Some? {
      assert ts == DescTokens(p.value.desc.value) + [];
    } else {
      assert ts == FmtArgTokens(p.value.fmt.value) + [];
    }
  }

  /** Two filled slots separated by a comma spell the list they set. */
  lemma TwoSlotsSpell(ts: seq<Token>, p: Parsed<ErrorArgs>, second: seq<Token>, q: Parsed<ErrorArgs>)
    requires Fills(NoArgs, ts, p) && p.rest == [Comma] + second
    requires Fills(p.value, second, q) && q.rest == []
    ensures Spells(ts, q.value)
  {
    assert second == second + q.rest;
    if p.value.desc.Some? {
      assert ts == DescTokens(p.value.desc.value) + [Comma] + FmtArgTokens(q.value.fmt.value);
    } else {
      assert ts == FmtArgTokens(p.value.fmt.value) + [Comma] + DescTokens(q.value.desc.value);
    }
  }

  /** One argument slot of `impl Parse for ErrorArgs`: peek at the key,
      reject a key `args` already holds, and parse the argument into `args`.
      For the first slot `args` is `NoArgs`, so the repeated-key test cannot
      fire there, exactly as the source has no test in its first slot. */
  function ParseSlot(args: ErrorArgs, ts: seq<Token>): (r: Result<Parsed<ErrorArgs>>)
    ensures r.Ok? ==> Fills(args, ts, r.value)
  {
    if |ts| > 0 && ts[0] == DescKw then
      if args.desc.Some? then Err(DescAlreadyDefined)
      else
        var d :- ParseDesc(ts);
        Ok(Parsed(args.(desc := Some(d.value)), d.rest))
    else if |ts| > 0 && ts[0] == FmtKw then
      if args.fmt.Some? then Err(FmtAlreadyDefined)
      else
        var f :- ParseFmtArg(ts);
        Ok(Parsed(args.(fmt := Some(f.value)), f.rest))
    else
      Err(ExpectedKey)
  }

  /** `impl Parse for ErrorArgs`: a first argument, then the rest of the
      list. Whatever it accepts is a spelling of the result. */
  function ParseArgs(ts: seq<Token>): (r: Result<ErrorArgs>)
    ensures r.Ok? ==> Spells(ts, r.value)
  {
    var first :- ParseSlot(NoArgs, ts);
    var r := ParseSecond(first);
    if r.Ok? && |first.rest| == 0 then
      OneSlotSpells(ts, first);
      r
    else if r.Ok? then
      TwoSlotsSpell(ts, first, first.rest[1..], Parsed(r.value, []));
      r
    else r
  }

  /** What follows the first argument: the end, or a comma and a second
      argument; then the end, or "more than 2 arguments". */
  function ParseSecond(first: Parsed<ErrorArgs>): (r: Result<ErrorArgs>)
    ensures r.Ok? && |first.rest| == 0 ==> r.value == first.value
    ensures r.Ok? && |first.rest| > 0 ==>
              first.rest[0] == Comma && Fills(first.value, first.rest[1..], Parsed(r.value, []))
  {
    if |first.rest| == 0 then Ok(first.value)
    else
      var afterComma :- Expect(first.rest, Comma, ExpectedComma);
      var second :- ParseSlot(first.value, afterComma);
      if |second.rest| == 0 then Ok(second.value) else Err(TooManyArgs)
  }

  /** `attr.parse_args::<Fmt>()` on a `#[fmt(...)]` field attribute: the
      arguments must be a delimited group holding exactly one `fmt` value. */
  function ParseFieldFmt(meta: Meta): (r: Result<Fmt>)
    ensures r.Ok? ==> meta == Delimited(FmtTokens(r.value))
  {
    match meta
    case Undelimited => Err(ExpectedGroup)
    case Delimited(ts) =>
      var p :- ParseFmt(ts);
      if |p.rest| == 0 then
        assert p.rest == [] && ts == FmtTokens(p.value) + p.rest;
        assert ts == FmtTokens(p.value);
        Ok(p.value)
      else Err(UnexpectedToken)
  }

  /** `attr.parse_args::<ErrorArgs>()` on a `#[error(...)]` variant
      attribute. `ParseArgs` never succeeds with tokens left over, so the
      trailing-input check of `parse_args` adds nothing. */
  function ParseVariantArgs(meta: Meta): (r: Result<ErrorArgs>)
    ensures r.Ok? ==> meta.Delimited? && Spells(meta.tokens, r.value)
  {
    match meta
    case Undelimited => Err(ExpectedGroup)
    case Delimited(ts) => ParseArgs(ts)
  }
}
