/**
 Attribute selection and removal (src/lib.rs, the `for (idx, attr) in
 ...attrs.iter().enumerate()` loops in `Output::push_field` and in `Error`).

 Both loops walk a list of attributes from first to last, parse every
 attribute with a given path, stop at the first one that does not parse, and
 remember the position and value of the last one. Afterwards only that last
 attribute is removed from the list; earlier ones with the same path stay.
 */
module Attrs {
  import opened Syntax

  /** Reference: the position of the last attribute with path `name`,
      searching backwards from the end. */
  function LastIndex(attrs: seq<Attr>, name: string): (r: Option<nat>)
    ensures r.Some? ==> && r.value < |attrs| && attrs[r.value].path == name
                        && forall j :: r.value < j < |attrs| ==> attrs[j].path != name
    ensures r.None? ==> forall j :: 0 <= j < |attrs| ==> attrs[j].path != name
  {
    if |attrs| == 0 then None
    else if attrs[|attrs| - 1].path == name then Some(|attrs| - 1)
    else LastIndex(attrs[..|attrs| - 1], name)
  }

  /** `Vec::remove(k)`: drop the element at `k`, keeping the others in order. */
  function RemoveAt(attrs: seq<Attr>, k: nat): (r: seq<Attr>)
    requires k < |attrs|
    ensures |r| == |attrs| - 1
    ensures forall j :: 0 <= j < k ==> r[j] == attrs[j]
    ensures forall j :: k <= j < |r| ==> r[j] == attrs[j + 1]
  {
    attrs[..k] + attrs[k + 1..]
  }

  /** The attribute list after the macro consumed the attribute with path
      `name`: the last such attribute is gone, all others are kept. */
  function Consume(attrs: seq<Attr>, name: string): (r: seq<Attr>)
    ensures (forall j :: 0 <= j < |attrs| ==> attrs[j].path != name) ==> r == attrs
    ensures (exists j :: 0 <= j < |attrs| && attrs[j].path == name) ==>
              exists k :: && 0 <= k < |attrs| && attrs[k].path == name
                          && (forall j :: k < j < |attrs| ==> attrs[j].path != name)
                          && r == attrs[..k] + attrs[k + 1..]
  {
    match LastIndex(attrs, name)
    case Some(k) => RemoveAt(attrs, k)
    case None => attrs
  }

  /** A lone attribute with path `name` is consumed entirely. */
  lemma ConsumeSingle(x: Attr, name: string)
    requires x.path == name
    ensures Consume([x], name) == []
  {
    assert LastIndex([x], name) == Some(0);
  }

  /** Every attribute with path `name` parses. */
  predicate AllParse<T>(attrs: seq<Attr>, name: string, parse: Meta -> Result<T>)
  {
    forall j :: 0 <= j < |attrs| && attrs[j].path == name ==> parse(attrs[j].meta).Ok?
  }

  /** Reference: the value of the last attribute with path `name`, when
      there is one and it parses. */
  function LastValue<T>(attrs: seq<Attr>, name: string, parse: Meta -> Result<T>): Option<T>
  {
    match LastIndex(attrs, name)
    case Some(k) => (match parse(attrs[k].meta) case Ok(v) => Some(v) case Err(_) => None)
    case None => None
  }

  /** `e` is the error of the first attribute with path `name` that does
      not parse. */
  predicate FirstFailure<T>(attrs: seq<Attr>, name: string, parse: Meta -> Result<T>, e: ErrKind)
  {
    exists j :: && 0 <= j < |attrs| && attrs[j].path == name
                && parse(attrs[j].meta) == Err(e)
                && forall k :: 0 <= k < j && attrs[k].path == name ==> parse(attrs[k].meta).Ok?
  }

  /** In every list, every attribute with path `name` parses. */
  predicate ListsParse<T>(lists: seq<seq<Attr>>, name: string, parse: Meta -> Result<T>)
  {
    forall i :: 0 <= i < |lists| ==> AllParse(lists[i], name, parse)
  }

  /** `e` is the error of the first failing attribute with path `name` of
      the first list that has one. */
  predicate ListsFailure<T>(lists: seq<seq<Attr>>, name: string, parse: Meta -> Result<T>, e: ErrKind)
  {
    exists i :: && 0 <= i < |lists|
                && FirstFailure(lists[i], name, parse, e)
                && forall k :: 0 <= k < i ==> AllParse(lists[k], name, parse)
  }

  /** Lists headed by `x` parse exactly when `x` and then the others do. */
  lemma ListsConsParse<T>(x: seq<Attr>, tail: seq<seq<Attr>>, name: string, parse: Meta -> Result<T>)
    ensures ListsParse([x] + tail, name, parse) <==> AllParse(x, name, parse) && ListsParse(tail, name, parse)
  {
    var lists := [x] + tail;
    assert lists[0] == x;
    assert forall i :: 0 <= i < |tail| ==> lists[i + 1] == tail[i];
    if AllParse(x, name, parse) && ListsParse(tail, name, parse) {
      forall i | 0 <= i < |lists|
        ensures AllParse(lists[i], name, parse)
      {
        if i > 0 {
          assert lists[i] == tail[i - 1];
        }
      }
    }
  }

  /** The first failure of the head list is the first failure of them all. */
  lemma HeadFailure<T>(x: seq<Attr>, tail: seq<seq<Attr>>, name: string, parse: Meta -> Result<T>, e: ErrKind)
    requires FirstFailure(x, name, parse, e)
    ensures ListsFailure([x] + tail, name, parse, e)
  {
    var lists := [x] + tail;
    assert lists[0] == x;
    assert FirstFailure(lists[0], name, parse, e);
  }

  /** When the head list parses, the tail's first failure is the first
      failure of them all. */
  lemma TailFailure<T>(x: seq<Attr>, tail: seq<seq<Attr>>, name: string, parse: Meta -> Result<T>, e: ErrKind)
    requires AllParse(x, name, parse) && ListsFailure(tail, name, parse, e)
    ensures ListsFailure([x] + tail, name, parse, e)
  {
    var lists := [x] + tail;
    var i :| && 0 <= i < |tail| && FirstFailure(tail[i], name, parse, e)
             && forall k :: 0 <= k < i ==> AllParse(tail[k], name, parse);
    assert lists[i + 1] == tail[i];
    forall k | 0 <= k < i + 1
      ensures AllParse(lists[k], name, parse)
    {
      if k > 0 {
        assert lists[k] == tail[k - 1];
      }
    }
  }

  /** Number of attributes with path `name`. */
  function Count(attrs: seq<Attr>, name: string): nat
  {
    if |attrs| == 0 then 0
    else Count(attrs[..|attrs| - 1], name) + (if attrs[|attrs| - 1].path == name then 1 else 0)
  }

  /** The selection loop from position `i` on, with `found` the selection
      made before `i`: each attribute with path `name` is parsed, the first
      failure ends the loop, and a successful parse replaces `found`. */
  function Scan<T>(attrs: seq<Attr>, name: string, parse: Meta -> Result<T>,
                   i: nat, found: Option<(nat, T)>): (r: Result<Option<(nat, T)>>)
    requires i <= |attrs|
    ensures r.Ok? <==> forall j :: i <= j < |attrs| && attrs[j].path == name ==> parse(attrs[j].meta).Ok?
    ensures r.Err? ==> exists j :: && i <= j < |attrs| && attrs[j].path == name
                                   && parse(attrs[j].meta) == Err(r.error)
                                   && forall k :: i <= k < j && attrs[k].path == name ==> parse(attrs[k].meta).Ok?
    ensures r.Ok? && (forall j :: i <= j < |attrs| ==> attrs[j].path != name) ==> r.value == found
    ensures r.Ok? && (exists j :: i <= j < |attrs| && attrs[j].path == name) ==>
              && r.value.Some? && i <= r.value.value.0 < |attrs|
              && attrs[r.value.value.0].path == name
              && parse(attrs[r.value.value.0].meta) == Ok(r.value.value.1)
              && forall j :: r.value.value.0 < j < |attrs| ==> attrs[j].path != name
    decreases |attrs| - i
  {
    if i == |attrs| then Ok(found)
    else if attrs[i].path == name then
      match parse(attrs[i].meta)
      case Ok(v) => Scan(attrs, name, parse, i + 1, Some((i, v)))
      case Err(e) => Err(e)
    else
      Scan(attrs, name, parse, i + 1, found)
  }

  /** The whole selection loop: the position and parsed value of the last
      attribute with path `name` (none when there is no such attribute),
      or the error of the first such attribute that does not parse. */
  function LastAttr<T>(attrs: seq<Attr>, name: string, parse: Meta -> Result<T>): (r: Result<Option<(nat, T)>>)
    ensures r.Ok? <==> AllParse(attrs, name, parse)
    ensures r.Ok? ==> (r.value.None? <==> LastIndex(attrs, name).None?)
    ensures r.Ok? && r.value.Some? ==>
              && LastIndex(attrs, name) == Some(r.value.value.0)
              && parse(attrs[r.value.value.0].meta) == Ok(r.value.value.1)
    ensures r.Ok? ==> LastValue(attrs, name, parse) == (if r.value.Some? then Some(r.value.value.1) else None)
    ensures r.Err? ==> FirstFailure(attrs, name, parse, r.error)
  {
    Scan(attrs, name, parse, 0, None)
  }

  /** Counting distributes over concatenation. */
  lemma {:induction false} CountAppend(a: seq<Attr>, b: seq<Attr>, name: string)
    ensures Count(a + b, name) == Count(a, name) + Count(b, name)
    decreases |b|
  {
    if |b| == 0 {
      assert a + b == a;
    } else {
      var b' := b[..|b| - 1];
      assert (a + b)[..|a + b| - 1] == a + b';
      CountAppend(a, b', name);
    }
  }

  /** No attribute with path `name` means a zero count. */
  lemma {:induction false} CountNone(attrs: seq<Attr>, name: string)
    requires forall j :: 0 <= j < |attrs| ==> attrs[j].path != name
    ensures Count(attrs, name) == 0
    decreases |attrs|
  {
    if |attrs| > 0 {
      CountNone(attrs[..|attrs| - 1], name);
    }
  }

  /** Consuming removes exactly one attribute with path `name` when there is
      one, and changes nothing otherwise; so a single attribute is consumed
      completely, and of several the earlier ones remain. */
  lemma ConsumeCount(attrs: seq<Attr>, name: string)
    ensures Count(attrs, name) == 0 ==> Consume(attrs, name) == attrs
    ensures Count(attrs, name) > 0 ==> Count(Consume(attrs, name), name) == Count(attrs, name) - 1
  {
    match LastIndex(attrs, name)
    case None =>
      CountNone(attrs, name);
    case Some(k) =>
      RemoveLastCount(attrs, name, k);
  }

  /** Removing the last attribute with path `name` lowers its count by one. */
  lemma RemoveLastCount(attrs: seq<Attr>, name: string, k: nat)
    requires LastIndex(attrs, name) == Some(k)
    ensures Count(attrs, name) > 0
    ensures Count(RemoveAt(attrs, k), name) == Count(attrs, name) - 1
  {
    var before, x, after := attrs[..k], attrs[k], attrs[k + 1..];
    var upto := before + [x];
    assert attrs == upto + after;
    assert RemoveAt(attrs, k) == before + after;
    assert upto[..|upto| - 1] == before;
    assert Count(upto, name) == Count(before, name) + 1;
    assert forall j :: 0 <= j < |after| ==> after[j] == attrs[k + 1 + j];
    CountNone(after, name);
    CountAppend(upto, after, name);
    CountAppend(before, after, name);
  }
}
