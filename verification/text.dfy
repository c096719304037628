/**
 Text helpers for the template: lines joined by newlines, and the decimal
 spelling of a position (`usize`'s `Display`, used for unnamed fields).

 A template is built as a first line followed by a `Block` of further lines,
 each of them preceded by a newline. `Split` reads a text back as its lines;
 the two are inverse to each other.
 */
module Text {

  predicate NoNewline(s: string)
  {
    forall i :: 0 <= i < |s| ==> s[i] != '\n'
  }

  predicate AllNoNewline(lines: seq<string>)
  {
    forall i :: 0 <= i < |lines| ==> NoNewline(lines[i])
  }

  /** Lines that follow a first line: each one preceded by a newline. */
  function Block(lines: seq<string>): string
  {
    if |lines| == 0 then "" else "\n" + lines[0] + Block(lines[1..])
  }

  /** Position of the first newline of `s`, or `|s|` when there is none. */
  function FirstNewline(s: string): (i: nat)
    ensures i <= |s|
    ensures forall j :: 0 <= j < i ==> s[j] != '\n'
    ensures i < |s| ==> s[i] == '\n'
  {
    if |s| == 0 || s[0] == '\n' then 0 else 1 + FirstNewline(s[1..])
  }

  /** The lines of a text: the maximal newline-free pieces between newlines. */
  function Split(s: string): (lines: seq<string>)
    ensures |lines| > 0 && AllNoNewline(lines)
    decreases |s|
  {
    var i := FirstNewline(s);
    if i == |s| then [s] else [s[..i]] + Split(s[i + 1..])
  }

  /** The first newline of `a + "\n" + b` is the one after `a`, when `a`
      itself has none; and a newline-free text has no newline at all. */
  lemma {:induction false} FirstNewlineAfter(a: string, b: string)
    requires NoNewline(a)
    ensures FirstNewline(a + "\n" + b) == |a|
    ensures FirstNewline(a) == |a|
    decreases |a|
  {
    if |a| > 0 {
      assert (a + "\n" + b)[1..] == a[1..] + "\n" + b;
      FirstNewlineAfter(a[1..], b);
    }
  }

  /** A newline-free text is one line. */
  lemma SplitOne(a: string)
    requires NoNewline(a)
    ensures Split(a) == [a]
  {
    FirstNewlineAfter(a, "");
  }

  /** A newline-free line, a newline and a text: that line, then the text's
      lines. */
  lemma SplitAt(a: string, b: string)
    requires NoNewline(a)
    ensures Split(a + "\n" + b) == [a] + Split(b)
  {
    var s := a + "\n" + b;
    FirstNewlineAfter(a, b);
    assert s[..|a|] == a;
    assert s[|a| + 1..] == b;
  }

  /** Reading a first line and a block back as lines gives exactly those
      lines, when none of them holds a newline. */
  lemma {:induction false} SplitBlock(first: string, lines: seq<string>)
    requires NoNewline(first) && AllNoNewline(lines)
    ensures Split(first + Block(lines)) == [first] + lines
    decreases |lines|
  {
    if |lines| == 0 {
      assert first + Block(lines) == first;
      SplitOne(first);
    } else {
      var rest := lines[0] + Block(lines[1..]);
      assert first + Block(lines) == first + "\n" + rest;
      SplitAt(first, rest);
      SplitBlock(lines[0], lines[1..]);
      assert [lines[0]] + lines[1..] == lines;
    }
  }

  /** Every text is its first line followed by the block of its other lines. */
  lemma {:induction false} SplitJoins(s: string)
    ensures s == Split(s)[0] + Block(Split(s)[1..])
    decreases |s|
  {
    var i := FirstNewline(s);
    if i == |s| {
      assert Split(s) == [s];
      assert Block(Split(s)[1..]) == "";
    } else {
      var head, tail := s[..i], s[i + 1..];
      forall j | 0 <= j < |head|
        ensures head[j] != '\n'
      {
        assert head[j] == s[j];
      }
      assert s == head + "\n" + tail;
      SplitAt(head, tail);
      SplitJoins(tail);
      JoinLine(head, tail, Split(tail));
    }
  }

  /** A line, a newline and a text that is a first line followed by a
      block, is that line followed by one more line of block. */
  lemma JoinLine(head: string, tail: string, t: seq<string>)
    requires |t| > 0 && tail == t[0] + Block(t[1..])
    ensures head + "\n" + tail == ([head] + t)[0] + Block(([head] + t)[1..])
  {
    assert ([head] + t)[1..] == t;
  }

  /** Blocks concatenate. */
  lemma {:induction false} BlockAppend(a: seq<string>, b: seq<string>)
    ensures Block(a + b) == Block(a) + Block(b)
    decreases |a|
  {
    if |a| == 0 {
      assert a + b == b;
    } else {
      assert (a + b)[1..] == a[1..] + b;
      BlockAppend(a[1..], b);
    }
  }

  /** The lines of a list of items: one line per item, in order. */
  function MapLines<T>(items: seq<T>, line: T -> string): (r: seq<string>)
    ensures |r| == |items|
    ensures forall i :: 0 <= i < |items| ==> r[i] == line(items[i])
  {
    seq(|items|, i requires 0 <= i < |items| => line(items[i]))
  }

  /** The lines of a non-empty list: the first item's line, then the lines
      of the others. */
  lemma MapLinesCons<T>(items: seq<T>, line: T -> string)
    requires |items| > 0
    ensures MapLines(items, line) == [line(items[0])] + MapLines(items[1..], line)
  {
    var lines, rest := MapLines(items, line), MapLines(items[1..], line);
    forall i | 0 <= i < |rest|
      ensures lines[i + 1] == rest[i]
    {
      assert items[1..][i] == items[i + 1];
    }
  }

  // ----- decimal positions -----

  predicate IsDigit(c: char)
  {
    '0' <= c <= '9'
  }

  predicate AllDigits(s: string)
  {
    forall i :: 0 <= i < |s| ==> IsDigit(s[i])
  }

  function Digit(d: nat): (c: char)
    requires d < 10
    ensures IsDigit(c)
  {
    ('0' as int + d) as char
  }

  /** `usize`'s `Display`: the decimal digits of `n`, without leading zeros. */
  function Decimal(n: nat): (s: string)
    ensures |s| > 0 && AllDigits(s)
    ensures NoNewline(s)
    ensures |s| > 1 ==> s[0] != '0'
  {
    if n < 10 then [Digit(n)] else Decimal(n / 10) + [Digit(n % 10)]
  }

  /** Reference reading of a digit string as a number. */
  function DecimalValue(s: string): nat
    requires AllDigits(s)
  {
    if |s| == 0 then 0
    else DecimalValue(s[..|s| - 1]) * 10 + (s[|s| - 1] as int - '0' as int)
  }

  /** Reading the decimal spelling of a position gives the position back. */
  lemma {:induction false} DecimalRoundTrip(n: nat)
    ensures DecimalValue(Decimal(n)) == n
  {
    if n >= 10 {
      DecimalRoundTrip(n / 10);
      var s := Decimal(n);
      assert s[..|s| - 1] == Decimal(n / 10);
    }
  }

  /** Distinct positions are spelled differently. */
  lemma DecimalInjective(m: nat, n: nat)
    ensures Decimal(m) == Decimal(n) <==> m == n
  {
    if Decimal(m) == Decimal(n) {
      DecimalRoundTrip(m);
      DecimalRoundTrip(n);
    }
  }
}
