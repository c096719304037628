/**
 Tokens, attributes and the error vocabulary shared by every stage of the
 `#[Error]` attribute macro model.

 The macro reads three kinds of input: the argument list of the root
 attribute, the arguments of `#[error(...)]` attributes on enum variants, and
 the arguments of `#[fmt(...)]` attributes on fields. All three are modelled
 as flat sequences of the tokens the argument grammar distinguishes.
 */
module Syntax {

  /** The tokens the argument grammar tells apart.
      `DescKw`, `FmtKw`, `DebugKw` and `DisplayKw` are the custom keywords
      `desc`, `fmt`, `debug` and `display`; `StrLit` is a string literal
      carrying its unescaped value; `OtherLit` is any other literal (integer,
      float, char, byte, byte string, `true`, `false`); `Other` is every
      remaining token tree. */
  datatype Token =
    | DescKw
    | FmtKw
    | Eq
    | Comma
    | DebugKw
    | DisplayKw
    | StrLit(value: string)
    | OtherLit
    | Other

  /** The argument part of an outer attribute `#[path ...]`: either a
      delimited token list, whether in parentheses, brackets or braces (syn's
      `Attribute::parse_args` accepts all three alike), or any other form (no
      arguments at all, or `= value`). */
  datatype Meta = Delimited(tokens: seq<Token>) | Undelimited

  /** An outer attribute. `path` is the attribute path as written; a single
      identifier such as `fmt` or `error` is a one-segment path. */
  datatype Attr = Attr(path: string, meta: Meta)

  datatype Option<+T> = None | Some(value: T)

  /** The diagnostics the engine can produce. Messages and spans are not
      modelled; each kind stands for one diagnostic message, which the
      source may raise at several places. */
  datatype ErrKind =
    | ExpectedKey          // lookahead error: neither `desc` nor `fmt` next
    | ExpectedDesc         // `desc` keyword missing where parse_desc starts
    | ExpectedFmt          // `fmt` keyword missing where parse_fmt starts
    | ExpectedEq           // `=` missing after a key
    | ExpectedComma        // `,` missing between two arguments
    | ExpectedLiteral      // a value that is not a literal (nor a fmt keyword)
    | DescNotString        // "`desc` must be a string"
    | FmtNotValid          // "`fmt` must be either `debug`, `display` or a custom string"
    | DescAlreadyDefined   // "`desc` is already defined"
    | FmtAlreadyDefined    // "`fmt` is already defined"
    | TooManyArgs          // "`error` can't have more than 2 arguments"
    | UnexpectedToken      // tokens left over after a `#[fmt(...)]` value
    | ExpectedGroup       // attribute arguments are not a delimited group
    | UnionUnsupported     // "Untagged unions are not supported by the Error macro."

  /** Success with a value, or the first diagnostic met. Usable with `:-`. */
  datatype Result<+T> = Ok(value: T) | Err(error: ErrKind) {

    predicate IsFailure() {
      Err?
    }

    function PropagateFailure<U>(): Result<U>
      requires Err?
    {
      Err(error)
    }

    function Extract(): T
      requires Ok?
    {
      value
    }
  }
}
