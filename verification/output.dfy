/**
 The template builder (src/lib.rs, `Output` and `impl Display for Fmt`).

 The source grows one string buffer: the title, then a newline and a text for
 each description, the data marker and each field. Here every `push_*`
 method is a function from the old buffer to the new one, and the fallible
 ones return the first error met. Each is proved to append exactly the lines
 `Layout` prescribes.
 */
module Output {
  import opened Syntax
  import opened Args
  import opened Resolve
  import opened Attrs
  import opened Text
  import opened Items
  import opened Layout

  /** `FieldIdentStyle`: whether a field line starts with `ident: `. */
  datatype IdentStyle = Prefixed | Unprefixed

  /** `Output::push_title`: the type name, and `::variant` when given. */
  function PushTitle(buf: string, head: string, tail: Option<string>): (r: string)
    ensures r == buf + Title(head, tail)
  {
    buf + head + (if tail.Some? then "::" + tail.value else "")
  }

  /** `Output::push_desc`: a new line holding the description, after
      `prefix: ` when a prefix is given. */
  function PushDesc(buf: string, prefix: Option<string>, desc: string): (r: string)
    ensures prefix.Some? ==> r == buf + Block([prefix.value + ": " + desc])
    ensures prefix.None? ==> r == buf + Block([desc])
  {
    buf + "\n" + (if prefix.Some? then prefix.value + ": " else "") + desc
  }

  /** `Output::push_debug_title`: a new line holding the data marker. */
  function PushDebugTitle(buf: string): (r: string)
    ensures r == buf + Block([DebugTitle])
  {
    buf + "\n" + "=== DEBUG DATA:"
  }

  /** `Output::push_field`: select the field's last `#[fmt(...)]` (failing on
      the first one that does not parse), remove it from the field, resolve
      the field's mode, and append the field's line. */
  function PushField(buf: string, ident: string, attrs: seq<Attr>, style: IdentStyle,
                     root: ErrorArgs, vargs: Option<ErrorArgs>): (r: Result<(string, seq<Attr>)>)
    ensures r.Ok? <==> AllParse(attrs, FmtAttr, ParseFieldFmt)
    ensures r.Ok? ==> r.value.0 == buf + Block([FieldLine(ident, style == Prefixed, FieldFmt(attrs, root, vargs))])
    ensures r.Ok? ==> r.value.1 == Consume(attrs, FmtAttr)
    ensures r.Err? ==> FirstFailure(attrs, FmtAttr, ParseFieldFmt, r.error)
  {
    var found :- LastAttr(attrs, FmtAttr, ParseFieldFmt);
    var fieldFmt := if found.Some? then Some(found.value.1) else None;
    var rest := if found.Some? then RemoveAt(attrs, found.value.0) else attrs;
    var fmt := Derive(root, vargs, fieldFmt);
    var text := (if style == Prefixed then ident + ": " else "") + "{" + ident + Suffix(fmt) + "}";
    assert fieldFmt == FieldOverride(attrs);
    assert text == FieldLine(ident, style == Prefixed, FieldFmt(attrs, root, vargs));
    assert Block([text]) == "\n" + text;
    Ok((buf + "\n" + text, rest))
  }

  /** The line one (identifier, attributes) entry should produce. */
  function EntryLine(style: IdentStyle, root: ErrorArgs, vargs: Option<ErrorArgs>): ((string, seq<Attr>)) -> string
  {
    (e: (string, seq<Attr>)) => FieldLine(e.0, style == Prefixed, FieldFmt(e.1, root, vargs))
  }

  /** The lines a list of (identifier, attributes) entries should produce. */
  function EntryLines(entries: seq<(string, seq<Attr>)>, style: IdentStyle,
                      root: ErrorArgs, vargs: Option<ErrorArgs>): seq<string>
  {
    MapLines(entries, EntryLine(style, root, vargs))
  }

  /** The `for` loops of `Output::push_fields`: push every field in order,
      stopping at the first error; collect each field's remaining attributes. */
  function PushEach(buf: string, entries: seq<(string, seq<Attr>)>, style: IdentStyle,
                    root: ErrorArgs, vargs: Option<ErrorArgs>): (r: Result<(string, seq<seq<Attr>>)>)
    ensures r.Ok? <==> ListsParse(AttrLists(entries), FmtAttr, ParseFieldFmt)
    ensures r.Ok? ==> r.value.0 == buf + Block(EntryLines(entries, style, root, vargs))
    ensures r.Ok? ==> && |r.value.1| == |entries|
                      && forall i :: 0 <= i < |entries| ==> r.value.1[i] == Consume(entries[i].1, FmtAttr)
    ensures r.Err? ==> ListsFailure(AttrLists(entries), FmtAttr, ParseFieldFmt, r.error)
    decreases |entries|
  {
    if |entries| == 0 then Ok((buf, []))
    else
      AttrListsCons(entries);
      ListsConsParse(entries[0].1, AttrLists(entries[1..]), FmtAttr, ParseFieldFmt);
      match PushField(buf, entries[0].0, entries[0].1, style, root, vargs)
      case Err(e) =>
        HeadFailure(entries[0].1, AttrLists(entries[1..]), FmtAttr, ParseFieldFmt, e);
        Err(e)
      case Ok(first) =>
        match PushEach(first.0, entries[1..], style, root, vargs)
        case Err(e) =>
          TailFailure(entries[0].1, AttrLists(entries[1..]), FmtAttr, ParseFieldFmt, e);
          Err(e)
        case Ok(rest) =>
          PushEachJoin(buf, entries, style, root, vargs, first, rest);
          Ok((rest.0, [first.1] + rest.1))
  }

  /** The first entry's push followed by the others' is the push of them all. */
  lemma PushEachJoin(buf: string, entries: seq<(string, seq<Attr>)>, style: IdentStyle,
                     root: ErrorArgs, vargs: Option<ErrorArgs>,
                     first: (string, seq<Attr>), rest: (string, seq<seq<Attr>>))
    requires |entries| > 0
    requires first.0 == buf + Block([FieldLine(entries[0].0, style == Prefixed, FieldFmt(entries[0].1, root, vargs))])
    requires first.1 == Consume(entries[0].1, FmtAttr)
    requires rest.0 == first.0 + Block(EntryLines(entries[1..], style, root, vargs))
    requires |rest.1| == |entries| - 1
    requires forall i :: 0 <= i < |rest.1| ==> rest.1[i] == Consume(entries[1..][i].1, FmtAttr)
    ensures rest.0 == buf + Block(EntryLines(entries, style, root, vargs))
    ensures forall i :: 0 <= i < |entries| ==> ([first.1] + rest.1)[i] == Consume(entries[i].1, FmtAttr)
  {
    var line := EntryLine(style, root, vargs)(entries[0]);
    var tail := EntryLines(entries[1..], style, root, vargs);
    assert line == FieldLine(entries[0].0, style == Prefixed, FieldFmt(entries[0].1, root, vargs));
    BlockCons(buf, line, tail, first.0, rest.0);
    MapLinesCons(entries, EntryLine(style, root, vargs));
    ConsumedCons(entries, first.1, rest.1);
  }

  /** A buffer extended by the block of a first line, then by the block of
      the others, is extended by the block of all of them. */
  lemma BlockCons(buf: string, line: string, tail: seq<string>, mid: string, end: string)
    requires mid == buf + Block([line]) && end == mid + Block(tail)
    ensures end == buf + Block([line] + tail)
  {
    assert ([line] + tail)[1..] == tail;
    assert [line][1..] == [];
    assert Block([line]) == "\n" + line;
  }

  /** The remaining attributes of the first entry, then the others'. */
  lemma ConsumedCons(entries: seq<(string, seq<Attr>)>, head: seq<Attr>, tail: seq<seq<Attr>>)
    requires |entries| > 0 && head == Consume(entries[0].1, FmtAttr)
    requires |tail| == |entries| - 1
    requires forall i :: 0 <= i < |tail| ==> tail[i] == Consume(entries[1..][i].1, FmtAttr)
    ensures forall i :: 0 <= i < |entries| ==> ([head] + tail)[i] == Consume(entries[i].1, FmtAttr)
  {
    forall i | 0 < i < |entries|
      ensures ([head] + tail)[i] == Consume(entries[i].1, FmtAttr)
    {
      assert entries[1..][i - 1] == entries[i];
    }
  }

  /** The attribute lists of a non-empty list of entries: the first
      entry's, then the others'. */
  lemma AttrListsCons(entries: seq<(string, seq<Attr>)>)
    requires |entries| > 0
    ensures AttrLists(entries) == [entries[0].1] + AttrLists(entries[1..])
  {
    var lists, tail := AttrLists(entries), AttrLists(entries[1..]);
    forall i | 0 <= i < |tail|
      ensures lists[i + 1] == tail[i]
    {
      assert entries[1..][i] == entries[i + 1];
    }
  }

  /** `Output::push_fields`: nothing for a unit field list; otherwise the data
      marker, then every field, named fields prefixed by their name, unnamed
      ones by their position when there are two or more. */
  function PushFields(buf: string, fields: Fields, root: ErrorArgs, vargs: Option<ErrorArgs>)
    : (r: Result<(string, Fields)>)
    ensures r.Ok? <==> FieldsParse(fields)
    ensures r.Ok? ==> r.value.0 == buf + Block(DataLines(fields, root, vargs))
    ensures r.Ok? ==> r.value.1 == ConsumeFields(fields)
    ensures r.Err? ==> FieldsFailure(fields, r.error)
  {
    match fields
    case Named(fs) =>
      var pushed :- PushNamed(buf, fs, root, vargs);
      Ok((pushed.0, Named(pushed.1)))
    case Unnamed(fs) =>
      var pushed :- PushUnnamed(buf, fs, root, vargs);
      Ok((pushed.0, Unnamed(pushed.1)))
    case Unit =>
      assert Block(DataLines(fields, root, vargs)) == "";
      Ok((buf, Unit))
  }

  /** The named-field branch of `Output::push_fields`. */
  function PushNamed(buf: string, fs: seq<(string, seq<Attr>)>, root: ErrorArgs, vargs: Option<ErrorArgs>)
    : (r: Result<(string, seq<(string, seq<Attr>)>)>)
    ensures r.Ok? <==> FieldsParse(Named(fs))
    ensures r.Ok? ==> r.value.0 == buf + Block(DataLines(Named(fs), root, vargs))
    ensures r.Ok? ==> Named(r.value.1) == ConsumeFields(Named(fs))
    ensures r.Err? ==> FieldsFailure(Named(fs), r.error)
  {
    var marked := PushDebugTitle(buf);
    var pushed :- PushEach(marked, fs, Prefixed, root, vargs);
    var kept := seq(|fs|, i requires 0 <= i < |fs| => (fs[i].0, pushed.1[i]));
    assert kept == ConsumeFields(Named(fs)).named;
    NamedLines(fs, root, vargs);
    MarkedBlock(buf, EntryLines(fs, Prefixed, root, vargs));
    Ok((pushed.0, kept))
  }

  /** The unnamed-field branch of `Output::push_fields`: fields are
      identified by their position, and prefixed only when there are two or
      more. */
  function PushUnnamed(buf: string, fs: seq<seq<Attr>>, root: ErrorArgs, vargs: Option<ErrorArgs>)
    : (r: Result<(string, seq<seq<Attr>>)>)
    ensures r.Ok? <==> FieldsParse(Unnamed(fs))
    ensures r.Ok? ==> r.value.0 == buf + Block(DataLines(Unnamed(fs), root, vargs))
    ensures r.Ok? ==> Unnamed(r.value.1) == ConsumeFields(Unnamed(fs))
    ensures r.Err? ==> FieldsFailure(Unnamed(fs), r.error)
  {
    var style := if |fs| > 1 then Prefixed else Unprefixed;
    var entries := Numbered(fs);
    assert AttrLists(entries) == fs;
    var marked := PushDebugTitle(buf);
    var pushed :- PushEach(marked, entries, style, root, vargs);
    assert pushed.1 == ConsumeFields(Unnamed(fs)).unnamed;
    UnnamedLines(fs, style, root, vargs);
    MarkedBlock(buf, EntryLines(entries, style, root, vargs));
    Ok(pushed)
  }

  /** Unnamed fields paired with their positions: `.enumerate()`. */
  function Numbered(fs: seq<seq<Attr>>): (entries: seq<(string, seq<Attr>)>)
    ensures |entries| == |fs|
    ensures forall i :: 0 <= i < |fs| ==> entries[i].1 == fs[i]
  {
    seq(|fs|, i requires 0 <= i < |fs| => (Decimal(i), fs[i]))
  }

  /** The lines pushed for numbered unnamed fields, after the marker, are
      the data section of `Layout`. */
  lemma UnnamedLines(fs: seq<seq<Attr>>, style: IdentStyle, root: ErrorArgs, vargs: Option<ErrorArgs>)
    requires style == (if |fs| > 1 then Prefixed else Unprefixed)
    ensures [DebugTitle] + EntryLines(Numbered(fs), style, root, vargs) == DataLines(Unnamed(fs), root, vargs)
  {
    var lines := EntryLines(Numbered(fs), style, root, vargs);
    var data := DataLines(Unnamed(fs), root, vargs);
    assert |data| == |lines| + 1;
    forall i | 0 <= i < |lines|
      ensures data[i + 1] == lines[i]
    {
      var e := Numbered(fs)[i];
      assert e == (Decimal(i), fs[i]);
      assert lines[i] == EntryLine(style, root, vargs)(e);
      UnnamedLineAt(fs, root, vargs, i);
    }
  }

  /** The lines pushed for named fields, after the marker, are the data
      section of `Layout`. */
  lemma NamedLines(fs: seq<(string, seq<Attr>)>, root: ErrorArgs, vargs: Option<ErrorArgs>)
    ensures [DebugTitle] + EntryLines(fs, Prefixed, root, vargs) == DataLines(Named(fs), root, vargs)
  {
  }

  /** The marker followed by a block of lines is a block starting with the
      marker line. */
  lemma MarkedBlock(buf: string, lines: seq<string>)
    ensures PushDebugTitle(buf) + Block(lines) == buf + Block([DebugTitle] + lines)
  {
    BlockAppend([DebugTitle], lines);
  }
}
