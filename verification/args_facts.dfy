/**
 Properties of the argument grammar: each parser accepts exactly the
 spellings of the reference grammar, and each malformed list fails with the
 diagnostic the source gives it.
 */
module ArgsFacts {
  import opened Syntax
  import opened Args

  /** A token syn's `Lit` parser accepts. */
  predicate IsLiteral(t: Token)
  {
    t.StrLit? || t == OtherLit
  }

  /** A token the argument lookahead recognises as a key. */
  predicate IsKey(t: Token)
  {
    t == DescKw || t == FmtKw
  }

  // ----- single values -----

  /** `parse_desc` reads back what `DescTokens` spells, leaving what follows. */
  lemma ParseDescSpelled(s: string, rest: seq<Token>)
    ensures ParseDesc(DescTokens(s) + rest) == Ok(Parsed(s, rest))
  {
    var ts := DescTokens(s) + rest;
    assert ts[0] == DescKw && ts[1..] == [Eq, StrLit(s)] + rest;
    assert ts[1..][1..] == [StrLit(s)] + rest;
    assert ts[1..][1..][1..] == rest;
  }

  /** `Fmt::parse` reads back what `FmtTokens` spells, leaving what follows. */
  lemma ParseFmtSpelled(f: Fmt, rest: seq<Token>)
    ensures ParseFmt(FmtTokens(f) + rest) == Ok(Parsed(f, rest))
  {
    var ts := FmtTokens(f) + rest;
    assert ts[0] == FmtTokens(f)[0] && ts[1..] == rest;
  }

  /** `parse_fmt` reads back what `FmtArgTokens` spells, leaving what follows. */
  lemma ParseFmtArgSpelled(f: Fmt, rest: seq<Token>)
    ensures ParseFmtArg(FmtArgTokens(f) + rest) == Ok(Parsed(f, rest))
  {
    var ts := FmtArgTokens(f) + rest;
    assert ts[0] == FmtKw && ts[1..] == [Eq] + FmtTokens(f) + rest;
    assert ts[1..][1..] == FmtTokens(f) + rest;
    ParseFmtSpelled(f, rest);
  }

  /** A `desc` slot fills an argument list that has no description yet. */
  lemma ParseSlotDesc(args: ErrorArgs, s: string, rest: seq<Token>)
    requires args.desc.None?
    ensures ParseSlot(args, DescTokens(s) + rest) == Ok(Parsed(args.(desc := Some(s)), rest))
  {
    ParseDescSpelled(s, rest);
  }

  /** A `fmt` slot fills an argument list that has no mode yet. */
  lemma ParseSlotFmt(args: ErrorArgs, f: Fmt, rest: seq<Token>)
    requires args.fmt.None?
    ensures ParseSlot(args, FmtArgTokens(f) + rest) == Ok(Parsed(args.(fmt := Some(f)), rest))
  {
    ParseFmtArgSpelled(f, rest);
  }

  // ----- argument lists -----

  /** The list parser after a successful first slot. */
  lemma AfterFirst(ts: seq<Token>, p: Parsed<ErrorArgs>)
    requires ParseSlot(NoArgs, ts) == Ok(p)
    ensures ParseArgs(ts) == ParseSecond(p)
  {
  }

  /** The rest of a list after a comma: the outcome of the second slot,
      and "more than 2 arguments" when anything follows it. */
  lemma AfterComma(a: ErrorArgs, rest: seq<Token>)
    ensures ParseSlot(a, rest).Err? ==> ParseSecond(Parsed(a, [Comma] + rest)) == Err(ParseSlot(a, rest).error)
    ensures ParseSlot(a, rest).Ok? ==>
              ParseSecond(Parsed(a, [Comma] + rest))
                == if |ParseSlot(a, rest).value.rest| == 0 then Ok(ParseSlot(a, rest).value.value) else Err(TooManyArgs)
  {
    assert ([Comma] + rest)[1..] == rest;
  }

  /** Every spelling of an argument list parses to that list. */
  lemma ParseArgsComplete(ts: seq<Token>, a: ErrorArgs)
    requires Spells(ts, a)
    ensures ParseArgs(ts) == Ok(a)
  {
    match a
    case ErrorArgs(Some(s), None) =>
      assert ts == DescTokens(s) + [];
      ParseSlotDesc(NoArgs, s, []);
      AfterFirst(ts, Parsed(a, []));
    case ErrorArgs(None, Some(f)) =>
      assert ts == FmtArgTokens(f) + [];
      ParseSlotFmt(NoArgs, f, []);
      AfterFirst(ts, Parsed(a, []));
    case ErrorArgs(Some(s), Some(f)) =>
      if ts == DescTokens(s) + [Comma] + FmtArgTokens(f) {
        var first := ErrorArgs(Some(s), None);
        assert ts == DescTokens(s) + ([Comma] + FmtArgTokens(f));
        ParseSlotDesc(NoArgs, s, [Comma] + FmtArgTokens(f));
        AfterFirst(ts, Parsed(first, [Comma] + FmtArgTokens(f)));
        assert FmtArgTokens(f) == FmtArgTokens(f) + [];
        ParseSlotFmt(first, f, []);
        AfterComma(first, FmtArgTokens(f));
      } else {
        var first := ErrorArgs(None, Some(f));
        assert ts == FmtArgTokens(f) + ([Comma] + DescTokens(s));
        ParseSlotFmt(NoArgs, f, [Comma] + DescTokens(s));
        AfterFirst(ts, Parsed(first, [Comma] + DescTokens(s)));
        assert DescTokens(s) == DescTokens(s) + [];
        ParseSlotDesc(first, s, []);
        AfterComma(first, DescTokens(s));
      }
  }

  /** `impl Parse for ErrorArgs` accepts exactly the spellings of the
      reference grammar, and reads each back as the list it spells. */
  lemma ParseArgsExact(ts: seq<Token>, a: ErrorArgs)
    ensures ParseArgs(ts) == Ok(a) <==> Spells(ts, a)
  {
    if Spells(ts, a) {
      ParseArgsComplete(ts, a);
    }
  }

  /** A list that holds only a description, or only a mode, parses to that
      alone; the other aspect is left unset. */
  lemma SingleArgument(s: string, f: Fmt)
    ensures ParseArgs(DescTokens(s)) == Ok(ErrorArgs(Some(s), None))
    ensures ParseArgs(FmtArgTokens(f)) == Ok(ErrorArgs(None, Some(f)))
  {
    ParseArgsComplete(DescTokens(s), ErrorArgs(Some(s), None));
    ParseArgsComplete(FmtArgTokens(f), ErrorArgs(None, Some(f)));
  }

  /** Both arguments, in either order, give the same list. */
  lemma ArgumentOrderIrrelevant(s: string, f: Fmt)
    ensures ParseArgs(DescTokens(s) + [Comma] + FmtArgTokens(f))
         == ParseArgs(FmtArgTokens(f) + [Comma] + DescTokens(s))
         == Ok(ErrorArgs(Some(s), Some(f)))
  {
    ParseArgsComplete(DescTokens(s) + [Comma] + FmtArgTokens(f), ErrorArgs(Some(s), Some(f)));
    ParseArgsComplete(FmtArgTokens(f) + [Comma] + DescTokens(s), ErrorArgs(Some(s), Some(f)));
  }

  /** How often each key occurs in the spelling of one argument. */
  lemma KeysInArgument(s: string, f: Fmt)
    ensures multiset(DescTokens(s))[DescKw] == 1 && multiset(DescTokens(s))[FmtKw] == 0
    ensures multiset(FmtArgTokens(f))[FmtKw] == 1 && multiset(FmtArgTokens(f))[DescKw] == 0
  {
    assert multiset(FmtArgTokens(f)) == multiset([FmtKw, Eq]) + multiset(FmtTokens(f));
  }

  /** Each key occurs at most once in an accepted list, and exactly once when
      the list sets it. */
  lemma KeysOnce(ts: seq<Token>, a: ErrorArgs)
    requires ParseArgs(ts) == Ok(a)
    ensures multiset(ts)[DescKw] == (if a.desc.Some? then 1 else 0)
    ensures multiset(ts)[FmtKw] == (if a.fmt.Some? then 1 else 0)
  {
    KeysInSpelling(ts, a);
  }

  /** The key counts of any spelling of an argument list. */
  lemma KeysInSpelling(ts: seq<Token>, a: ErrorArgs)
    requires Spells(ts, a)
    ensures multiset(ts)[DescKw] == (if a.desc.Some? then 1 else 0)
    ensures multiset(ts)[FmtKw] == (if a.fmt.Some? then 1 else 0)
  {
    match a
    case ErrorArgs(Some(s), None) =>
      KeysInArgument(s, Display);
    case ErrorArgs(None, Some(f)) =>
      KeysInArgument("", f);
    case ErrorArgs(Some(s), Some(f)) =>
      KeysInArgument(s, f);
      if ts == DescTokens(s) + [Comma] + FmtArgTokens(f) {
        KeysAroundComma(ts, DescTokens(s), FmtArgTokens(f));
      } else {
        KeysAroundComma(ts, FmtArgTokens(f), DescTokens(s));
      }
  }

  /** A key occurs in two lists joined by a comma as often as in the two
      lists together. */
  lemma KeysAroundComma(ts: seq<Token>, x: seq<Token>, y: seq<Token>)
    requires ts == x + [Comma] + y
    ensures multiset(ts)[DescKw] == multiset(x)[DescKw] + multiset(y)[DescKw]
    ensures multiset(ts)[FmtKw] == multiset(x)[FmtKw] + multiset(y)[FmtKw]
  {
    assert multiset(ts) == multiset(x) + multiset([Comma]) + multiset(y);
  }

  // ----- malformed lists -----

  /** The lookahead of the first slot: an empty list, or a list that does not
      start with `desc` or `fmt`, is "expected `desc` or `fmt`". The empty
      list is not read as "no arguments". */
  lemma NoKeyFirst(ts: seq<Token>)
    requires |ts| == 0 || !IsKey(ts[0])
    ensures ParseArgs(ts) == Err(ExpectedKey)
  {
  }

  /** The lookahead of the second slot: after one argument and a comma,
      anything but a key, including nothing at all, is "expected `desc` or
      `fmt`". So a trailing comma is rejected. */
  lemma NoKeySecond(ts: seq<Token>, a: ErrorArgs, more: seq<Token>)
    requires Spells(ts, a) && (a.desc.None? || a.fmt.None?)
    requires |more| == 0 || !IsKey(more[0])
    ensures ParseArgs(ts + [Comma] + more) == Err(ExpectedKey)
  {
    var t := ts + [Comma] + more;
    if a.desc.Some? {
      assert t == DescTokens(a.desc.value) + ([Comma] + more);
      ParseSlotDesc(NoArgs, a.desc.value, [Comma] + more);
    } else {
      assert t == FmtArgTokens(a.fmt.value) + ([Comma] + more);
      ParseSlotFmt(NoArgs, a.fmt.value, [Comma] + more);
    }
    AfterFirst(t, Parsed(a, [Comma] + more));
    assert ParseSlot(a, more) == Err(ExpectedKey);
    AfterComma(a, more);
  }

  /** Anything but a comma after the first argument is "expected `,`". */
  lemma MissingComma(ts: seq<Token>, a: ErrorArgs, more: seq<Token>)
    requires Spells(ts, a) && (a.desc.None? || a.fmt.None?)
    requires |more| > 0 && more[0] != Comma
    ensures ParseArgs(ts + more) == Err(ExpectedComma)
  {
    if a.desc.Some? {
      ParseSlotDesc(NoArgs, a.desc.value, more);
    } else {
      ParseSlotFmt(NoArgs, a.fmt.value, more);
    }
    AfterFirst(ts + more, Parsed(a, more));
  }

  /** A key given twice is rejected at its second occurrence, before its
      value is read. */
  lemma RepeatedKey(s: string, f: Fmt, rest: seq<Token>)
    ensures ParseArgs(DescTokens(s) + [Comma, DescKw] + rest) == Err(DescAlreadyDefined)
    ensures ParseArgs(FmtArgTokens(f) + [Comma, FmtKw] + rest) == Err(FmtAlreadyDefined)
  {
    RepeatedDesc(s, rest);
    RepeatedFmt(f, rest);
  }

  lemma RepeatedDesc(s: string, rest: seq<Token>)
    ensures ParseArgs(DescTokens(s) + [Comma, DescKw] + rest) == Err(DescAlreadyDefined)
  {
    var a := ErrorArgs(Some(s), None);
    var t := DescTokens(s) + [Comma, DescKw] + rest;
    assert t == DescTokens(s) + ([Comma] + ([DescKw] + rest));
    ParseSlotDesc(NoArgs, s, [Comma] + ([DescKw] + rest));
    AfterFirst(t, Parsed(a, [Comma] + ([DescKw] + rest)));
    assert ParseSlot(a, [DescKw] + rest) == Err(DescAlreadyDefined);
    AfterComma(a, [DescKw] + rest);
  }

  lemma RepeatedFmt(f: Fmt, rest: seq<Token>)
    ensures ParseArgs(FmtArgTokens(f) + [Comma, FmtKw] + rest) == Err(FmtAlreadyDefined)
  {
    var a := ErrorArgs(None, Some(f));
    var t := FmtArgTokens(f) + [Comma, FmtKw] + rest;
    assert t == FmtArgTokens(f) + ([Comma] + ([FmtKw] + rest));
    ParseSlotFmt(NoArgs, f, [Comma] + ([FmtKw] + rest));
    AfterFirst(t, Parsed(a, [Comma] + ([FmtKw] + rest)));
    assert ParseSlot(a, [FmtKw] + rest) == Err(FmtAlreadyDefined);
    AfterComma(a, [FmtKw] + rest);
  }

  /** Anything after two arguments is "more than 2 arguments", whatever it is. */
  lemma TooManyArguments(ts: seq<Token>, a: ErrorArgs, more: seq<Token>)
    requires Spells(ts, a) && a.desc.Some? && a.fmt.Some?
    requires |more| > 0
    ensures ParseArgs(ts + more) == Err(TooManyArgs)
  {
    var s, f := a.desc.value, a.fmt.value;
    var t := ts + more;
    if ts == DescTokens(s) + [Comma] + FmtArgTokens(f) {
      var first := ErrorArgs(Some(s), None);
      assert t == DescTokens(s) + ([Comma] + (FmtArgTokens(f) + more));
      ParseSlotDesc(NoArgs, s, [Comma] + (FmtArgTokens(f) + more));
      AfterFirst(t, Parsed(first, [Comma] + (FmtArgTokens(f) + more)));
      ParseSlotFmt(first, f, more);
      AfterComma(first, FmtArgTokens(f) + more);
    } else {
      var first := ErrorArgs(None, Some(f));
      assert t == FmtArgTokens(f) + ([Comma] + (DescTokens(s) + more));
      ParseSlotFmt(NoArgs, f, [Comma] + (DescTokens(s) + more));
      AfterFirst(t, Parsed(first, [Comma] + (DescTokens(s) + more)));
      ParseSlotDesc(first, s, more);
      AfterComma(first, DescTokens(s) + more);
    }
  }

  /** A failing first slot is the list's error. */
  lemma FirstSlotFails(ts: seq<Token>)
    ensures ParseSlot(NoArgs, ts).Err? ==> ParseArgs(ts) == Err(ParseSlot(NoArgs, ts).error)
  {
  }

  /** After one argument and a comma, a failing second slot is the list's
      error. */
  lemma SecondSlotFails(ts: seq<Token>, a: ErrorArgs, more: seq<Token>)
    requires Spells(ts, a) && (a.desc.None? || a.fmt.None?)
    requires ParseSlot(a, more).Err?
    ensures ParseArgs(ts + [Comma] + more) == Err(ParseSlot(a, more).error)
  {
    var t := ts + [Comma] + more;
    if a.desc.Some? {
      assert t == DescTokens(a.desc.value) + ([Comma] + more);
      ParseSlotDesc(NoArgs, a.desc.value, [Comma] + more);
    } else {
      assert t == FmtArgTokens(a.fmt.value) + ([Comma] + more);
      ParseSlotFmt(NoArgs, a.fmt.value, [Comma] + more);
    }
    AfterFirst(t, Parsed(a, [Comma] + more));
    AfterComma(a, more);
  }

  /** The value check of a `desc` argument, in a slot where `desc` is still
      unset: a literal other than a string is "`desc` must be a string", and
      anything but a literal, the keywords `debug` and `display` included,
      is "expected literal". */
  lemma DescValueChecks(args: ErrorArgs, rest: seq<Token>, value: seq<Token>)
    requires args.desc.None?
    requires |value| == 0 || !IsLiteral(value[0])
    ensures ParseSlot(args, [DescKw, Eq, OtherLit] + rest) == Err(DescNotString)
    ensures ParseSlot(args, [DescKw, Eq] + value) == Err(ExpectedLiteral)
  {
    var w, n := [DescKw, Eq, OtherLit] + rest, [DescKw, Eq] + value;
    assert w[1..][1..] == [OtherLit] + rest;
    assert ParseLit([OtherLit] + rest) == Ok(Parsed(LitOther, rest));
    assert ParseDesc(w) == Err(DescNotString);
    assert n[1..][1..] == value;
    assert ParseLit(value) == Err(ExpectedLiteral);
    assert ParseDesc(n) == Err(ExpectedLiteral);
  }

  /** The value check of a `fmt` argument, in a slot where `fmt` is still
      unset: a literal other than a string is "`fmt` must be either ...",
      and anything but a literal, `debug` or `display` is "expected
      literal". */
  lemma FmtValueChecks(args: ErrorArgs, rest: seq<Token>, value: seq<Token>)
    requires args.fmt.None?
    requires |value| == 0 || (!IsLiteral(value[0]) && value[0] != DebugKw && value[0] != DisplayKw)
    ensures ParseSlot(args, [FmtKw, Eq, OtherLit] + rest) == Err(FmtNotValid)
    ensures ParseSlot(args, [FmtKw, Eq] + value) == Err(ExpectedLiteral)
  {
    var w, n := [FmtKw, Eq, OtherLit] + rest, [FmtKw, Eq] + value;
    assert w[1..][1..] == [OtherLit] + rest;
    assert ParseLit([OtherLit] + rest) == Ok(Parsed(LitOther, rest));
    assert ParseFmt([OtherLit] + rest) == Err(FmtNotValid);
    assert ParseFmtArg(w) == Err(FmtNotValid);
    assert n[1..][1..] == value;
    assert ParseLit(value) == Err(ExpectedLiteral);
    assert ParseFmt(value) == Err(ExpectedLiteral);
    assert ParseFmtArg(n) == Err(ExpectedLiteral);
  }

  /** A key must be followed by `=`, in a slot where that key is still unset. */
  lemma SlotMissingEq(args: ErrorArgs, key: Token, rest: seq<Token>)
    requires (key == DescKw && args.desc.None?) || (key == FmtKw && args.fmt.None?)
    requires |rest| == 0 || rest[0] != Eq
    ensures ParseSlot(args, [key] + rest) == Err(ExpectedEq)
  {
    assert ([key] + rest)[1..] == rest;
  }

  /** The value checks of the first argument: a `desc` must be a string
      literal, a `fmt` must be `debug`, `display` or a string literal; a
      non-string literal and a non-literal fail differently. */
  lemma LiteralKinds(rest: seq<Token>, descValue: seq<Token>, fmtValue: seq<Token>)
    requires |descValue| == 0 || !IsLiteral(descValue[0])
    requires |fmtValue| == 0 || (!IsLiteral(fmtValue[0]) && fmtValue[0] != DebugKw && fmtValue[0] != DisplayKw)
    ensures ParseArgs([DescKw, Eq, OtherLit] + rest) == Err(DescNotString)
    ensures ParseArgs([FmtKw, Eq, OtherLit] + rest) == Err(FmtNotValid)
    ensures ParseArgs([DescKw, Eq] + descValue) == Err(ExpectedLiteral)
    ensures ParseArgs([FmtKw, Eq] + fmtValue) == Err(ExpectedLiteral)
  {
    DescValueChecks(NoArgs, rest, descValue);
    FmtValueChecks(NoArgs, rest, fmtValue);
    FirstSlotFails([DescKw, Eq, OtherLit] + rest);
    FirstSlotFails([FmtKw, Eq, OtherLit] + rest);
    FirstSlotFails([DescKw, Eq] + descValue);
    FirstSlotFails([FmtKw, Eq] + fmtValue);
  }

  /** The same value checks in the second argument, after the other key's
      argument and a comma. */
  lemma SecondLiteralKinds(s: string, f: Fmt, rest: seq<Token>, descValue: seq<Token>, fmtValue: seq<Token>)
    requires |descValue| == 0 || !IsLiteral(descValue[0])
    requires |fmtValue| == 0 || (!IsLiteral(fmtValue[0]) && fmtValue[0] != DebugKw && fmtValue[0] != DisplayKw)
    ensures ParseArgs(FmtArgTokens(f) + [Comma] + ([DescKw, Eq, OtherLit] + rest)) == Err(DescNotString)
    ensures ParseArgs(DescTokens(s) + [Comma] + ([FmtKw, Eq, OtherLit] + rest)) == Err(FmtNotValid)
    ensures ParseArgs(FmtArgTokens(f) + [Comma] + ([DescKw, Eq] + descValue)) == Err(ExpectedLiteral)
    ensures ParseArgs(DescTokens(s) + [Comma] + ([FmtKw, Eq] + fmtValue)) == Err(ExpectedLiteral)
  {
    SecondDescLiteral(f, rest, descValue);
    SecondFmtLiteral(s, rest, fmtValue);
  }

  lemma SecondDescLiteral(f: Fmt, rest: seq<Token>, descValue: seq<Token>)
    requires |descValue| == 0 || !IsLiteral(descValue[0])
    ensures ParseArgs(FmtArgTokens(f) + [Comma] + ([DescKw, Eq, OtherLit] + rest)) == Err(DescNotString)
    ensures ParseArgs(FmtArgTokens(f) + [Comma] + ([DescKw, Eq] + descValue)) == Err(ExpectedLiteral)
  {
    var a := ErrorArgs(None, Some(f));
    DescValueChecks(a, rest, descValue);
    SecondSlotFails(FmtArgTokens(f), a, [DescKw, Eq, OtherLit] + rest);
    SecondSlotFails(FmtArgTokens(f), a, [DescKw, Eq] + descValue);
  }

  lemma SecondFmtLiteral(s: string, rest: seq<Token>, fmtValue: seq<Token>)
    requires |fmtValue| == 0 || (!IsLiteral(fmtValue[0]) && fmtValue[0] != DebugKw && fmtValue[0] != DisplayKw)
    ensures ParseArgs(DescTokens(s) + [Comma] + ([FmtKw, Eq, OtherLit] + rest)) == Err(FmtNotValid)
    ensures ParseArgs(DescTokens(s) + [Comma] + ([FmtKw, Eq] + fmtValue)) == Err(ExpectedLiteral)
  {
    var a := ErrorArgs(Some(s), None);
    FmtValueChecks(a, rest, fmtValue);
    SecondSlotFails(DescTokens(s), a, [FmtKw, Eq, OtherLit] + rest);
    SecondSlotFails(DescTokens(s), a, [FmtKw, Eq] + fmtValue);
  }

  /** A key must be followed by `=`, in the first argument. */
  lemma MissingEq(key: Token, rest: seq<Token>)
    requires IsKey(key)
    requires |rest| == 0 || rest[0] != Eq
    ensures ParseArgs([key] + rest) == Err(ExpectedEq)
  {
    SlotMissingEq(NoArgs, key, rest);
    FirstSlotFails([key] + rest);
  }

  /** A key must be followed by `=`, in the second argument too. */
  lemma SecondMissingEq(s: string, f: Fmt, rest: seq<Token>)
    requires |rest| == 0 || rest[0] != Eq
    ensures ParseArgs(FmtArgTokens(f) + [Comma] + ([DescKw] + rest)) == Err(ExpectedEq)
    ensures ParseArgs(DescTokens(s) + [Comma] + ([FmtKw] + rest)) == Err(ExpectedEq)
  {
    var d, m := ErrorArgs(Some(s), None), ErrorArgs(None, Some(f));
    SlotMissingEq(m, DescKw, rest);
    SlotMissingEq(d, FmtKw, rest);
    SecondSlotFails(FmtArgTokens(f), m, [DescKw] + rest);
    SecondSlotFails(DescTokens(s), d, [FmtKw] + rest);
  }

  // ----- field attributes -----

  /** `#[fmt(...)]` accepts exactly one `fmt` value: it parses to `f` if and
      only if its arguments spell `f`. */
  lemma FieldFmtExact(ts: seq<Token>, f: Fmt)
    ensures ParseFieldFmt(Delimited(ts)) == Ok(f) <==> ts == FmtTokens(f)
  {
    if ts == FmtTokens(f) {
      ParseFmtSpelled(f, []);
      assert ts == FmtTokens(f) + [];
    }
  }

  /** Tokens after the value of `#[fmt(...)]` are "unexpected token", and an
      argument form other than a delimited group is rejected outright. */
  lemma FieldFmtTrailing(f: Fmt, more: seq<Token>)
    requires |more| > 0
    ensures ParseFieldFmt(Delimited(FmtTokens(f) + more)) == Err(UnexpectedToken)
    ensures ParseFieldFmt(Undelimited) == Err(ExpectedGroup)
  {
    ParseFmtSpelled(f, more);
  }

  // ----- placeholder suffixes -----

  /** Reference reading of a placeholder suffix back as a mode. `:#?` is read
      as `Debug`. */
  function ModeOfSuffix(s: string): Option<Fmt>
  {
    if s == "" then Some(Display)
    else if s == ":#?" then Some(Debug)
    else if s[0] == ':' then Some(Custom(s[1..]))
    else None
  }

  /** The suffix determines the mode, except that a custom pattern `#?` is
      spelled exactly as `Debug` is. */
  lemma SuffixRoundTrip(f: Fmt)
    ensures f != Custom("#?") ==> ModeOfSuffix(Suffix(f)) == Some(f)
    ensures Suffix(Custom("#?")) == Suffix(Debug)
  {
    if f.Custom? {
      assert Suffix(f)[1..] == f.pattern;
    }
  }

  /** Two modes share a suffix exactly when they are equal or are `Debug`
      and the custom pattern `#?`. */
  lemma SuffixCollision(f: Fmt, g: Fmt)
    ensures Suffix(f) == Suffix(g) <==> f == g || {f, g} == {Debug, Custom("#?")}
  {
    if Suffix(f) == Suffix(g) && f != g {
      SuffixRoundTrip(f);
      SuffixRoundTrip(g);
    }
  }
}
