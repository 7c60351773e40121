/** Page cursors and what following them yields, for any list sorted under a strict order. */
module Cursor {
  import opened Common

  /** Nanoseconds since the zero time; RFC 3339 writes years of four digits. */
  type Time = int
  const YEAR_10000: Time := 315_537_897_600_000_000_000

  predicate Representable(t: Time) {
    0 <= t < YEAR_10000
  }

  /** time.Format, time.Parse and URL-safe base64, which are not modelled. */
  datatype Codec = Codec(
    format: Time -> string, parse: string -> Option<Time>, b64: string -> string, unb64: string -> Option<string>)

  /** Both are lossless, and a formatted time holds no separator. */
  ghost predicate Faithful(c: Codec) {
    && (forall t :: Representable(t) ==> c.parse(c.format(t)) == Some(t) && c.format(t) != "" && '|' !in c.format(t))
    && (forall s :: c.unb64(c.b64(s)) == Some(s))
    && c.unb64("") == Some("")
  }

  function EncodeCursor(c: Codec, ts: Time, id: Id): string {
    c.b64(c.format(ts) + "|" + id)
  }

  function IndexOf(s: string, x: char): (r: Option<nat>)
    ensures r.Some? ==> r.value < |s| && s[r.value] == x && x !in s[..r.value]
    ensures r.None? ==> x !in s
  {
    if s == [] then None
    else if s[0] == x then Some(0)
    else match IndexOf(s[1..], x)
      case None => None
      case Some(i) =>
        assert s[..i + 1] == [s[0]] + s[1..][..i];
        Some(i + 1)
  }

  function DecodeCursor(c: Codec, s: string): Result<(Time, Id)> {
    match c.unb64(s)
    case None => Err(InvalidArgument)
    case Some(data) =>
      match IndexOf(data, '|')
      case None => Err(InvalidArgument)
      case Some(idx) =>
        if idx == 0 || idx + 1 >= |data| then Err(InvalidArgument)
        else
          match c.parse(data[..idx])
          case None => Err(InvalidArgument)
          case Some(ts) => if data[idx + 1..] == "" then Err(InvalidArgument) else Ok((ts, data[idx + 1..]))
  }

  lemma FirstSeparator(head: string, tail: string)
    requires '|' !in head
    ensures IndexOf(head + "|" + tail, '|') == Some(|head|)
  {
    var s := head + "|" + tail;
    assert s[|head|] == '|';
    assert forall i :: 0 <= i < |head| ==> s[i] == head[i];
    var r := IndexOf(s, '|');
    assert r.Some?;
    InPrefix(s, r.value, |head|);
  }

  lemma InPrefix(s: string, n: nat, i: nat)
    requires n <= |s| && i < |s|
    ensures i < n ==> s[i] in s[..n]
  {
    assert i < n ==> s[..n][i] == s[i];
  }

  /** Decoding undoes encoding exactly for the ids that are not empty, separators in them included. */
  lemma CursorRoundTripIff(c: Codec, ts: Time, id: Id)
    requires Faithful(c) && Representable(ts)
    ensures DecodeCursor(c, EncodeCursor(c, ts, id)) == Ok((ts, id)) <==> id != ""
    ensures EncodeCursor(c, ts, id) != ""
  {
    var head := c.format(ts);
    var data := head + "|" + id;
    FirstSeparator(head, id);
    assert c.unb64(c.b64(data)) == Some(data);
    assert data[..|head|] == head && data[|head| + 1..] == id;
  }

  // ----- One page -----

  const DEFAULT_LIMIT: nat := 50
  const MAX_LIMIT: nat := 200

  function ClampLimit(limit: int): (k: nat)
    ensures 1 <= k <= MAX_LIMIT
  {
    if limit <= 0 then DEFAULT_LIMIT else if limit > MAX_LIMIT then MAX_LIMIT else limit
  }

  /** Where a list continues behind the entry with that key; at its end when there is none. */
  function Behind<T>(full: seq<T>, key: T -> (Time, Id), anchor: (Time, Id)): (i: nat)
    ensures i <= |full|
  {
    if full == [] then 0
    else if key(full[0]) == anchor then 1
    else 1 + Behind(full[1..], key, anchor)
  }

  function Page<T>(c: Codec, full: seq<T>, key: T -> (Time, Id), cursor: string, limit: nat): Result<(seq<T>, string)>
    requires limit > 0
  {
    if cursor != "" && DecodeCursor(c, cursor).Err? then Err(InvalidArgument)
    else
      var start := if cursor == "" then 0 else Behind(full, key, DecodeCursor(c, cursor).value);
      var out := full[start..];
      if |out| > limit then Ok((out[..limit], EncodeCursor(c, key(out[limit - 1]).0, key(out[limit - 1]).1)))
      else Ok((out, ""))
  }

  /** The paging tail that both list calls share, over an already sorted list. */
  method TakePage<T>(c: Codec, full: seq<T>, key: T -> (Time, Id), cursor: string, limit: nat)
    returns (res: Result<(seq<T>, string)>)
    requires limit > 0
    ensures res == Page(c, full, key, cursor, limit)
  {
    var idx := 0;
    if cursor != "" {
      var decoded := DecodeCursor(c, cursor);
      if decoded.Err? {
        return Err(InvalidArgument);
      }
      while idx < |full|
        invariant idx <= |full| && Behind(full, key, decoded.value) == idx + Behind(full[idx..], key, decoded.value)
        decreases |full| - idx
      {
        assert full[idx..][1..] == full[idx + 1..];
        if key(full[idx]) == decoded.value {
          idx := idx + 1;
          break;
        }
        idx := idx + 1;
      }
      assert Behind(full, key, decoded.value) == idx;
    }
    var out := full[idx..];
    if |out| > limit {
      var last := out[limit - 1];
      return Ok((out[..limit], EncodeCursor(c, key(last).0, key(last).1)));
    }
    return Ok((out, ""));
  }

  // ----- Following the cursors -----

  /** Every entry has its own key, which a cursor can carry. */
  ghost predicate Keyed<T(!new)>(full: seq<T>, key: T -> (Time, Id)) {
    && (forall t :: t in full ==> Representable(key(t).0) && key(t).1 != "")
    && (forall i, j :: 0 <= i < j < |full| ==> key(full[i]) != key(full[j]))
  }

  lemma {:induction false} BehindFinds<T(!new)>(full: seq<T>, key: T -> (Time, Id), i: nat)
    requires i < |full| && forall j :: 0 <= j < i ==> key(full[j]) != key(full[i])
    ensures Behind(full, key, key(full[i])) == i + 1
  {
    if i > 0 {
      assert full[1..][i - 1] == full[i];
      BehindFinds(full[1..], key, i - 1);
    }
  }

  lemma {:induction false} BehindMisses<T(!new)>(full: seq<T>, key: T -> (Time, Id), anchor: (Time, Id))
    requires forall t :: t in full ==> key(t) != anchor
    ensures Behind(full, key, anchor) == |full|
  {
    if full != [] {
      BehindMisses(full[1..], key, anchor);
    }
  }

  function CursorAt<T>(c: Codec, full: seq<T>, key: T -> (Time, Id), start: nat): string
    requires start <= |full|
  {
    if start == 0 then "" else EncodeCursor(c, key(full[start - 1]).0, key(full[start - 1]).1)
  }

  /** The cursor of a position leads back to it, and the page handed out there leads to the next one. */
  lemma PageAt<T(!new)>(c: Codec, full: seq<T>, key: T -> (Time, Id), start: nat, limit: nat)
    requires Faithful(c) && Keyed(full, key) && start <= |full| && limit > 0
    ensures
      Page(c, full, key, CursorAt(c, full, key, start), limit) ==
        if start + limit < |full| then Ok((full[start..start + limit], CursorAt(c, full, key, start + limit)))
        else Ok((full[start..], ""))
  {
    hide EncodeCursor, DecodeCursor, Faithful;
    if start > 0 {
      var last := full[start - 1];
      assert last in full;
      CursorRoundTripIff(c, key(last).0, key(last).1);
      BehindFinds(full, key, start - 1);
    }
    if start + limit < |full| {
      assert full[start..][..limit] == full[start..start + limit];
    }
  }

  lemma PageWithoutAnchor<T(!new)>(c: Codec, now: seq<T>, key: T -> (Time, Id), anchor: (Time, Id), limit: nat)
    requires Faithful(c) && Representable(anchor.0) && anchor.1 != "" && limit > 0
    requires forall t :: t in now ==> key(t) != anchor
    ensures Page(c, now, key, EncodeCursor(c, anchor.0, anchor.1), limit) == Ok(([], ""))
  {
    hide EncodeCursor, DecodeCursor, Faithful;
    CursorRoundTripIff(c, anchor.0, anchor.1);
    BehindMisses(now, key, anchor);
  }

  /** Asked again after the list has changed, the call goes on right behind the anchor where that is
      now; when the anchor is no longer listed it answers with an empty last page, whatever is left. */
  lemma PageAfterChange<T(!new)>(c: Codec, now: seq<T>, key: T -> (Time, Id), anchor: (Time, Id), limit: nat)
    requires Faithful(c) && Keyed(now, key) && Representable(anchor.0) && anchor.1 != "" && limit > 0
    ensures (forall t :: t in now ==> key(t) != anchor) ==>
      Page(c, now, key, EncodeCursor(c, anchor.0, anchor.1), limit) == Ok(([], ""))
    ensures forall i :: 0 <= i < |now| && key(now[i]) == anchor ==>
      Page(c, now, key, EncodeCursor(c, anchor.0, anchor.1), limit) ==
        if i + 1 + limit < |now| then Ok((now[i + 1..i + 1 + limit], CursorAt(c, now, key, i + 1 + limit)))
        else Ok((now[i + 1..], ""))
  {
    hide EncodeCursor, DecodeCursor, Faithful, Page;
    if forall t :: t in now ==> key(t) != anchor {
      PageWithoutAnchor(c, now, key, anchor, limit);
    }
    forall i | 0 <= i < |now| && key(now[i]) == anchor
      ensures Page(c, now, key, EncodeCursor(c, anchor.0, anchor.1), limit) ==
        if i + 1 + limit < |now| then Ok((now[i + 1..i + 1 + limit], CursorAt(c, now, key, i + 1 + limit)))
        else Ok((now[i + 1..], ""))
    {
      PageAt(c, now, key, i + 1, limit);
    }
  }

  /** A client that asks again with each cursor it is handed, until it gets an empty one. */
  ghost predicate IsWalk<T(!new)>(c: Codec, full: seq<T>, key: T -> (Time, Id), limit: nat, pages: seq<seq<T>>,
                                  cursors: seq<string>)
    requires limit > 0
  {
    && |pages| > 0 && |cursors| == |pages| + 1 && cursors[0] == "" && cursors[|pages|] == ""
    && (forall i :: 0 < i < |pages| ==> cursors[i] != "")
    && forall i :: 0 <= i < |pages| ==> Page(c, full, key, cursors[i], limit) == Ok((pages[i], cursors[i + 1]))
  }

  function Flatten<T>(pages: seq<seq<T>>): seq<T> {
    if pages == [] then [] else Flatten(pages[..|pages| - 1]) + pages[|pages| - 1]
  }

  /** Before its last page, a walk has collected the list up to the position of its cursor. */
  lemma {:induction false} WalkCollects<T(!new)>(c: Codec, full: seq<T>, key: T -> (Time, Id), limit: nat,
                                                 pages: seq<seq<T>>, cursors: seq<string>, n: nat)
    returns (start: nat)
    requires Faithful(c) && Keyed(full, key) && limit > 0 && IsWalk(c, full, key, limit, pages, cursors)
    requires n < |pages|
    ensures start <= |full| && Flatten(pages[..n]) == full[..start] && cursors[n] == CursorAt(c, full, key, start)
  {
    hide EncodeCursor, Page, Keyed, Faithful, CursorAt;
    if n == 0 {
      FirstCursor(c, full, key);
      return 0;
    }
    var before := WalkCollects(c, full, key, limit, pages, cursors, n - 1);
    assert Page(c, full, key, cursors[n - 1], limit) == Ok((pages[n - 1], cursors[n]));
    PageAt(c, full, key, before, limit);
    start := before + limit;
    FlattenOne(pages, n);
    assert full[..before] + full[before..start] == full[..start];
  }

  lemma FirstCursor<T(!new)>(c: Codec, full: seq<T>, key: T -> (Time, Id))
    ensures CursorAt(c, full, key, 0) == ""
  {
  }

  lemma FlattenOne<T>(pages: seq<seq<T>>, n: nat)
    requires 0 < n <= |pages|
    ensures Flatten(pages[..n]) == Flatten(pages[..n - 1]) + pages[n - 1]
  {
    assert pages[..n][..n - 1] == pages[..n - 1];
  }

  /** The pages of a walk, put together, are the whole list, each entry once. */
  lemma WalkIsWhole<T(!new)>(c: Codec, full: seq<T>, key: T -> (Time, Id), limit: nat, pages: seq<seq<T>>,
                             cursors: seq<string>)
    requires Faithful(c) && Keyed(full, key) && limit > 0 && IsWalk(c, full, key, limit, pages, cursors)
    ensures Flatten(pages) == full
  {
    hide EncodeCursor, Page, Keyed, Faithful, CursorAt;
    var n := |pages| - 1;
    var start := WalkCollects(c, full, key, limit, pages, cursors, n);
    assert Page(c, full, key, cursors[n], limit) == Ok((pages[n], ""));
    PageAt(c, full, key, start, limit);
    EncodedIsNotEmpty(c, full, key, start + limit);
    FlattenOne(pages, |pages|);
    assert pages[..|pages|] == pages;
    assert full[..start] + full[start..] == full;
  }

  lemma EncodedIsNotEmpty<T(!new)>(c: Codec, full: seq<T>, key: T -> (Time, Id), start: nat)
    requires Faithful(c) && Keyed(full, key)
    ensures 0 < start < |full| ==> CursorAt(c, full, key, start) != ""
  {
    if 0 < start < |full| {
      var last := full[start - 1];
      assert last in full;
      CursorRoundTripIff(c, key(last).0, key(last).1);
    }
  }

  /** Asking again always comes to an end. */
  lemma WalkExists<T(!new)>(c: Codec, full: seq<T>, key: T -> (Time, Id), limit: nat)
    returns (pages: seq<seq<T>>, cursors: seq<string>)
    requires Faithful(c) && Keyed(full, key) && limit > 0
    ensures IsWalk(c, full, key, limit, pages, cursors)
  {
    pages, cursors := WalkFrom(c, full, key, limit, 0);
  }

  lemma {:induction false} WalkFrom<T(!new)>(c: Codec, full: seq<T>, key: T -> (Time, Id), limit: nat, start: nat)
    returns (pages: seq<seq<T>>, cursors: seq<string>)
    requires Faithful(c) && Keyed(full, key) && limit > 0 && start <= |full|
    ensures |pages| > 0 && |cursors| == |pages| + 1
    ensures cursors[0] == CursorAt(c, full, key, start) && cursors[|pages|] == ""
    ensures forall i :: 0 < i < |pages| ==> cursors[i] != ""
    ensures forall i :: 0 <= i < |pages| ==> Page(c, full, key, cursors[i], limit) == Ok((pages[i], cursors[i + 1]))
    decreases |full| - start
  {
    hide EncodeCursor, Page, Keyed, Faithful, CursorAt;
    PageAt(c, full, key, start, limit);
    var cursor := CursorAt(c, full, key, start);
    if start + limit < |full| {
      EncodedIsNotEmpty(c, full, key, start + limit);
      var rest, later := WalkFrom(c, full, key, limit, start + limit);
      pages, cursors := [full[start..start + limit]] + rest, [cursor] + later;
    } else {
      pages, cursors := [full[start..]], [cursor, ""];
    }
  }

  // ----- In numbers and characters -----

  lemma LimitMeans(limit: int)
    ensures ClampLimit(limit) == if limit <= 0 then 50 else if limit > 200 then 200 else limit
  {
  }

  /** A cursor is the time and the id with a bar between them. */
  lemma CursorMeans(c: Codec, ts: Time, id: Id)
    requires Faithful(c)
    ensures c.unb64(EncodeCursor(c, ts, id)) == Some(c.format(ts) + "|" + id)
  {
  }

  /** What decodes: a time and an id with a bar between them, the first one, and neither empty. */
  lemma DecodeMeans(c: Codec, s: string, ts: Time, id: Id)
    ensures DecodeCursor(c, s) == Ok((ts, id)) <==>
      exists head :: c.unb64(s) == Some(head + "|" + id) && '|' !in head && head != "" && id != ""
                     && c.parse(head) == Some(ts)
  {
    if DecodeCursor(c, s) == Ok((ts, id)) {
      var data := c.unb64(s).value;
      var i := IndexOf(data, '|').value;
      assert data == data[..i] + "|" + data[i + 1..];
    }
    if head :| c.unb64(s) == Some(head + "|" + id) && '|' !in head && head != "" && id != ""
               && c.parse(head) == Some(ts)
    {
      FirstSeparator(head, id);
      var data := head + "|" + id;
      assert data[..|head|] == head && data[|head| + 1..] == id;
    }
  }

  lemma DecodeErrs(c: Codec, s: string)
    ensures DecodeCursor(c, s).Err? ==> DecodeCursor(c, s).error == InvalidArgument
  {
  }

  /** A page is cut at the limit only, and its cursor then names its last entry. */
  lemma PageMeans<T(!new)>(c: Codec, full: seq<T>, key: T -> (Time, Id), cursor: string, limit: nat)
    requires limit > 0 && Page(c, full, key, cursor, limit).Ok?
    ensures
      var (out, next) := Page(c, full, key, cursor, limit).value;
      && |out| <= limit
      && (next != "" ==> |out| == limit && next == EncodeCursor(c, key(out[limit - 1]).0, key(out[limit - 1]).1))
      && (cursor == "" ==> out == if |full| <= limit then full else full[..limit])
  {
    hide EncodeCursor, DecodeCursor;
    assert full[0..] == full;
  }
}
