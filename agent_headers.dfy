/**
 * The custom agent headers the user edits: a list of key/value rows, turned into a
 * plain object (trimmed non-empty keys, last row wins) and into the JSON text sent as
 * `X-A2A-Agent-Headers`.
 */
module AgentHeaders {
  import opened Wrappers
  import Strings
  import JsonText

  datatype HeaderEntry = HeaderEntry(key: string, value: string)

  /** `Partial<HeaderEntry>`: either field may be missing. */
  datatype EntryUpdate = EntryUpdate(key: Option<string>, value: Option<string>)

  const PresetKeys: seq<string> := ["Authorization", "X-API-Key", "X-Tenant-ID"]

  /** The row `addHeader` appends: a missing argument or missing field becomes `''`. */
  function NewEntry(entry: Option<EntryUpdate>): (e: HeaderEntry)
    ensures entry.Some? && entry.value.key.Some? ==> e.key == entry.value.key.value
    ensures entry.Some? && entry.value.value.Some? ==> e.value == entry.value.value.value
    ensures entry.None? ==> e == HeaderEntry("", "")
    ensures entry.Some? && entry.value.key.None? ==> e.key == ""
    ensures entry.Some? && entry.value.value.None? ==> e.value == ""
  {
    match entry
    case None => HeaderEntry("", "")
    case Some(u) => HeaderEntry(u.key.GetOr(""), u.value.GetOr(""))
  }

  /** `filter((_, i) => i !== index)`, scanning from position `from`. */
  function KeepOthers(h: seq<HeaderEntry>, index: int, from: nat): (r: seq<HeaderEntry>)
    requires from <= |h|
    decreases |h| - from
  {
    if from == |h| then []
    else (if from == index then [] else [h[from]]) + KeepOthers(h, index, from + 1)
  }

  function WithoutIndex(h: seq<HeaderEntry>, index: int): seq<HeaderEntry> {
    KeepOthers(h, index, 0)
  }

  lemma {:induction false} KeepOthersSlices(h: seq<HeaderEntry>, index: int, from: nat)
    requires from <= |h|
    ensures KeepOthers(h, index, from) ==
      if from <= index < |h| then h[from..index] + h[index + 1..] else h[from..]
    decreases |h| - from
  {
    if from < |h| {
      KeepOthersSlices(h, index, from + 1);
      if from == index {
        assert h[from + 1..] == h[index + 1..];
      } else if from < index < |h| {
        assert [h[from]] + h[from + 1..index] == h[from..index];
      } else {
        assert [h[from]] + h[from + 1..] == h[from..];
      }
    }
  }

  /** `removeHeader(i)` removes exactly row i when it exists and otherwise changes nothing. */
  lemma RemoveExactlyOne(h: seq<HeaderEntry>, index: int)
    ensures 0 <= index < |h| ==> WithoutIndex(h, index) == h[..index] + h[index + 1..]
    ensures !(0 <= index < |h|) ==> WithoutIndex(h, index) == h
  {
    KeepOthersSlices(h, index, 0);
  }

  /** `updateHeader`: on an existing row, the fields given replace the row's own; otherwise nothing changes. */
  function Updated(h: seq<HeaderEntry>, index: int, u: EntryUpdate): (r: seq<HeaderEntry>)
    ensures |r| == |h|
    ensures forall j :: 0 <= j < |h| && j != index ==> r[j] == h[j]
    ensures 0 <= index < |h| ==> r[index].key == (if u.key.Some? then u.key.value else h[index].key)
    ensures 0 <= index < |h| ==> r[index].value == (if u.value.Some? then u.value.value else h[index].value)
  {
    if 0 <= index < |h| then h[index := HeaderEntry(u.key.GetOr(h[index].key), u.value.GetOr(h[index].value))]
    else h
  }

  /** An update naming no field, or one naming the row's own fields, changes nothing. */
  lemma UpdateWithOwnFields(h: seq<HeaderEntry>, index: int, u: EntryUpdate)
    requires 0 <= index < |h| ==> u.key.GetOr(h[index].key) == h[index].key && u.value.GetOr(h[index].value) == h[index].value
    ensures Updated(h, index, u) == h
  {
  }

  // The plain object: keys in insertion order, each once (integer-like keys are not moved first).

  type Obj = JsonText.Pairs

  predicate HasKey(o: Obj, k: string) {
    exists i :: 0 <= i < |o| && o[i].0 == k
  }

  predicate UniqueKeys(o: Obj) {
    forall i, j :: 0 <= i < j < |o| ==> o[i].0 != o[j].0
  }

  function Lookup(o: Obj, k: string): (r: Option<string>)
    ensures r.Some? <==> HasKey(o, k)
    ensures UniqueKeys(o) ==> forall i :: 0 <= i < |o| && o[i].0 == k ==> r == Some(o[i].1)
  {
    if o == [] then None
    else if o[0].0 == k then Some(o[0].1)
    else
      var r := Lookup(o[1..], k);
      assert forall i :: 1 <= i < |o| ==> o[1..][i - 1] == o[i];
      r
  }

  lemma HasKeyCons(x: (string, string), o: Obj, k: string)
    ensures HasKey([x] + o, k) <==> x.0 == k || HasKey(o, k)
  {
    var r := [x] + o;
    if HasKey(r, k) && x.0 != k {
      var i :| 0 <= i < |r| && r[i].0 == k;
      assert o[i - 1].0 == k;
    }
    if HasKey(o, k) {
      var i :| 0 <= i < |o| && o[i].0 == k;
      assert r[i + 1].0 == k;
    }
    if x.0 == k {
      assert r[0].0 == k;
    }
  }

  lemma UniqueKeysCons(x: (string, string), o: Obj)
    ensures UniqueKeys([x] + o) <==> !HasKey(o, x.0) && UniqueKeys(o)
  {
    var r := [x] + o;
    if UniqueKeys(r) {
      forall i | 0 <= i < |o| ensures o[i].0 != x.0 {
        assert r[0] == x && r[i + 1] == o[i];
        assert r[0].0 != r[i + 1].0;
      }
      forall i, j | 0 <= i < j < |o| ensures o[i].0 != o[j].0 {
        assert r[i + 1] == o[i] && r[j + 1] == o[j];
      }
    }
    if !HasKey(o, x.0) && UniqueKeys(o) {
      forall i, j | 0 <= i < j < |r| ensures r[i].0 != r[j].0 {
        assert r[j] == o[j - 1];
        if i > 0 {
          assert r[i] == o[i - 1];
        }
      }
    }
  }

  /** `obj[k] = v`: an existing key keeps its place and takes the new value; a new key goes last. */
  function Put(o: Obj, k: string, v: string): (r: Obj)
    ensures forall k' :: HasKey(r, k') <==> HasKey(o, k') || k' == k
    ensures UniqueKeys(o) ==> UniqueKeys(r)
    ensures UniqueKeys(o) ==> Lookup(r, k) == Some(v)
    ensures UniqueKeys(o) ==> forall k' :: k' != k ==> Lookup(r, k') == Lookup(o, k')
  {
    if o == [] then
      assert [(k, v)][0].0 == k;
      [(k, v)]
    else
      assert o == [o[0]] + o[1..];
      var r := if o[0].0 == k then [(k, v)] + o[1..] else [o[0]] + Put(o[1..], k, v);
      forall k' ensures HasKey(r, k') <==> HasKey(o, k') || k' == k {
        HasKeyCons(o[0], o[1..], k');
        HasKeyCons(r[0], r[1..], k');
        assert r == [r[0]] + r[1..];
      }
      UniqueKeysCons(o[0], o[1..]);
      UniqueKeysCons(r[0], r[1..]);
      r
  }

  /** The key a row contributes, if any: its key trimmed, when that is not empty. */
  function RowKey(e: HeaderEntry): string {
    Strings.JsTrim(e.key)
  }

  /** `getHeadersObject`, over the rows in order. */
  function HeadersObject(h: seq<HeaderEntry>): (o: Obj)
    ensures UniqueKeys(o)
  {
    if h == [] then []
    else
      var o := HeadersObject(h[..|h| - 1]);
      var k := RowKey(h[|h| - 1]);
      if k != "" then Put(o, k, h[|h| - 1].value) else o
  }

  predicate SomeRowKey(h: seq<HeaderEntry>, k: string) {
    exists i :: 0 <= i < |h| && RowKey(h[i]) == k
  }

  lemma SomeRowKeySnoc(h: seq<HeaderEntry>, k: string)
    requires h != []
    ensures SomeRowKey(h, k) <==> SomeRowKey(h[..|h| - 1], k) || RowKey(h[|h| - 1]) == k
  {
    if SomeRowKey(h, k) {
      SomeRowKeyInitOrLast(h, k);
    }
    if SomeRowKey(h[..|h| - 1], k) || RowKey(h[|h| - 1]) == k {
      SomeRowKeyFromInitOrLast(h, k);
    }
  }

  lemma SomeRowKeyInitOrLast(h: seq<HeaderEntry>, k: string)
    requires h != [] && SomeRowKey(h, k)
    ensures SomeRowKey(h[..|h| - 1], k) || RowKey(h[|h| - 1]) == k
  {
    var i :| 0 <= i < |h| && RowKey(h[i]) == k;
    if i < |h| - 1 {
      assert h[..|h| - 1][i] == h[i];
    }
  }

  lemma SomeRowKeyFromInitOrLast(h: seq<HeaderEntry>, k: string)
    requires h != [] && (SomeRowKey(h[..|h| - 1], k) || RowKey(h[|h| - 1]) == k)
    ensures SomeRowKey(h, k)
  {
    if RowKey(h[|h| - 1]) != k {
      var init := h[..|h| - 1];
      var i :| 0 <= i < |init| && RowKey(init[i]) == k;
      assert h[i] == init[i];
    }
  }

  /** The object's keys are exactly the trimmed, non-empty row keys. */
  lemma {:induction false} HeadersObjectKeys(h: seq<HeaderEntry>, k: string)
    ensures HasKey(HeadersObject(h), k) <==> k != "" && SomeRowKey(h, k)
  {
    if h != [] {
      HeadersObjectKeys(h[..|h| - 1], k);
      SomeRowKeySnoc(h, k);
    }
  }

  /** For a key several rows trim to, the last such row's value is the one kept. */
  lemma {:induction false} HeadersObjectLastWins(h: seq<HeaderEntry>, i: nat)
    requires i < |h| && RowKey(h[i]) != ""
    requires forall j :: i < j < |h| ==> RowKey(h[j]) != RowKey(h[i])
    ensures Lookup(HeadersObject(h), RowKey(h[i])) == Some(h[i].value)
  {
    var init := h[..|h| - 1];
    if i < |h| - 1 {
      assert forall j :: i < j < |init| ==> init[j] == h[j];
      HeadersObjectLastWins(init, i);
      assert init[i] == h[i];
    }
  }

  /** The object is empty exactly when no row has a non-blank key. */
  lemma HeadersObjectEmpty(h: seq<HeaderEntry>)
    ensures HeadersObject(h) == [] <==> forall i :: 0 <= i < |h| ==> RowKey(h[i]) == ""
  {
    if HeadersObject(h) != [] {
      var k := HeadersObject(h)[0].0;
      assert HasKey(HeadersObject(h), k);
      HeadersObjectKeys(h, k);
    } else {
      forall i | 0 <= i < |h| ensures RowKey(h[i]) == "" {
        HeadersObjectKeys(h, RowKey(h[i]));
      }
    }
  }

  /** `getHeadersJson`: no text for an empty object, otherwise the object's JSON text. */
  function HeadersJson(h: seq<HeaderEntry>): (j: Option<string>)
    ensures j.None? <==> HeadersObject(h) == []
    ensures j.Some? ==> JsonText.ParseObject(j.value) == Some(HeadersObject(h))
  {
    var o := HeadersObject(h);
    if o == [] then None
    else
      JsonText.ObjectRoundTrip(o);
      Some(JsonText.StringifyObject(o))
  }

  class Store {
    var headers: seq<HeaderEntry>

    constructor ()
      ensures headers == []
    {
      headers := [];
    }

    method AddHeader(entry: Option<EntryUpdate>)
      modifies this
      ensures headers == old(headers) + [NewEntry(entry)]
    {
      var key := "";
      var value := "";
      if entry.Some? && entry.value.key.Some? {
        key := entry.value.key.value;
      }
      if entry.Some? && entry.value.value.Some? {
        value := entry.value.value.value;
      }
      headers := headers + [HeaderEntry(key, value)];
    }

    method RemoveHeader(index: int)
      modifies this
      ensures headers == WithoutIndex(old(headers), index)
    {
      headers := WithoutIndex(headers, index);
    }

    method UpdateHeader(index: int, updates: EntryUpdate)
      modifies this
      ensures headers == Updated(old(headers), index, updates)
    {
      if 0 <= index < |headers| {
        var current := headers[index];
        var next := HeaderEntry(updates.key.GetOr(current.key), updates.value.GetOr(current.value));
        headers := headers[index := next];
      }
    }

    method AddPreset(key: string)
      modifies this
      ensures headers == old(headers) + [HeaderEntry(key, "")]
    {
      AddHeader(Some(EntryUpdate(Some(key), Some(""))));
    }

    /** The loop over the rows, filling the object one row at a time. */
    method GetHeadersObject() returns (obj: Obj)
      ensures obj == HeadersObject(headers)
    {
      obj := [];
      var i := 0;
      while i < |headers|
        invariant 0 <= i <= |headers|
        invariant obj == HeadersObject(headers[..i])
      {
        assert headers[..i + 1][..i] == headers[..i];
        var k := Strings.JsTrim(headers[i].key);
        if k != "" {
          obj := Put(obj, k, headers[i].value);
        }
        i := i + 1;
      }
      assert headers[..i] == headers;
    }

    method GetHeadersJson() returns (json: Option<string>)
      ensures json == HeadersJson(headers)
    {
      var obj := GetHeadersObject();
      if |obj| == 0 {
        return None;
      }
      json := Some(JsonText.StringifyObject(obj));
    }
  }
}
