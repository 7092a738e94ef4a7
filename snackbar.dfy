/**
 * The queue of snackbar notifications. An entry is a JavaScript options object; the
 * defaults are spread first and the caller's options after them, so the caller's win.
 */
module Snackbar {
  import opened Wrappers
  import opened JsValue

  type Options = map<string, Value>

  /** The defaults `show` puts under the caller's options, with `id` a fresh identifier. */
  function Defaults(freshId: string): Options {
    map["id" := Str(freshId), "timeout" := Num(5000), "location" := Str("top end"),
        "variant" := Str("flat"), "closable" := Bool(true)]
  }

  /** `{ ...defaults, ...options }`: every member of either, the caller's value where both have one. */
  function ShowEntry(options: Options, freshId: string): (e: Options)
    ensures e.Keys == Defaults(freshId).Keys + options.Keys
    ensures forall k :: k in options ==> e[k] == options[k]
    ensures "timeout" !in options ==> e["timeout"] == Num(5000)
    ensures "location" !in options ==> e["location"] == Str("top end")
    ensures "variant" !in options ==> e["variant"] == Str("flat")
    ensures "closable" !in options ==> e["closable"] == Bool(true)
    ensures "id" !in options ==> e["id"] == Str(freshId)
  {
    Defaults(freshId) + options
  }

  datatype Severity = Error | Success | Warn | Info

  function SeverityColor(s: Severity): string {
    match s
    case Error => "error"
    case Success => "success"
    case Warn => "warning"
    case Info => "info"
  }

  function SeverityIcon(s: Severity): string {
    match s
    case Error => "error"
    case Success => "check_circle"
    case Warn => "warning"
    case Info => "info"
  }

  /** The options `error`/`success`/`warn`/`info` hand to `show`: text, colour and icon, then the caller's options. */
  function SeverityOptions(s: Severity, text: string, options: Option<Options>): (o: Options)
    ensures o.Keys == {"text", "color", "icon"} + options.GetOr(map[]).Keys
    ensures options.None? ==> o == map["text" := Str(text), "color" := Str(SeverityColor(s)), "icon" := Str(SeverityIcon(s))]
    ensures options.Some? ==> forall k :: k in options.value ==> o[k] == options.value[k]
    ensures "icon" !in options.GetOr(map[]) ==> o["icon"] == Str(SeverityIcon(s))
    ensures "color" !in options.GetOr(map[]) ==> o["color"] == Str(SeverityColor(s))
    ensures "text" !in options.GetOr(map[]) ==> o["text"] == Str(text)
  {
    map["text" := Str(text), "color" := Str(SeverityColor(s)), "icon" := Str(SeverityIcon(s))] + options.GetOr(map[])
  }

  /** Each severity has its own colour, and the icon the entry ends with is the default unless overridden. */
  lemma SeverityEntry(s: Severity, text: string, options: Option<Options>, freshId: string)
    requires options.None? || forall k :: k in options.value ==> k !in {"text", "color", "icon", "timeout"}
    ensures var e := ShowEntry(SeverityOptions(s, text, options), freshId);
      e["color"] == Str(SeverityColor(s)) && e["icon"] == Str(SeverityIcon(s)) && e["text"] == Str(text)
      && e["timeout"] == Num(5000)
  {
  }

  lemma SeverityColorsDistinct(s: Severity, t: Severity)
    requires SeverityColor(s) == SeverityColor(t)
    ensures s == t
  {
  }

  /**
   * `queue.splice(index, 1)`: a negative index counts from the end (clamped at 0); the
   * entry at the resulting position is removed when there is one.
   */
  function SpliceOne(q: seq<Options>, index: int): (r: seq<Options>)
    ensures 0 <= index < |q| ==> r == q[..index] + q[index + 1..]
    ensures index >= |q| ==> r == q
    ensures |q| - 1 <= |r| <= |q|
  {
    var start := if index < 0 then (if |q| + index < 0 then 0 else |q| + index) else index;
    if start < |q| then q[..start] + q[start + 1..] else q
  }

  /** Negative positions: -1 is the last entry, and anything at or below -length is the first. */
  lemma SpliceNegative(q: seq<Options>, index: int)
    requires index < 0 && |q| > 0
    ensures var i := if |q| + index < 0 then 0 else |q| + index;
      SpliceOne(q, index) == q[..i] + q[i + 1..]
  {
  }

  /** Removing keeps the order of the remaining entries: they are a subsequence of the old queue. */
  lemma SpliceKeepsOrder(q: seq<Options>, index: int, a: nat, b: nat)
    requires 0 <= index < |q| && a < b < |q| - 1
    ensures var r := SpliceOne(q, index);
      exists a', b' :: 0 <= a' < b' < |q| && r[a] == q[a'] && r[b] == q[b']
  {
    var r := SpliceOne(q, index);
    var a' := if a < index then a else a + 1;
    var b' := if b < index then b else b + 1;
    assert r[a] == q[a'] && r[b] == q[b'];
  }

  class Store {
    var queue: seq<Options>

    constructor ()
      ensures queue == []
    {
      queue := [];
    }

    /** `show(options)`: push one entry at the end. */
    method Show(options: Options, freshId: string)
      modifies this
      ensures queue == old(queue) + [ShowEntry(options, freshId)]
    {
      queue := queue + [Defaults(freshId) + options];
    }

    /** `error`, `success`, `warn` and `info`. */
    method Notify(s: Severity, text: string, options: Option<Options>, freshId: string)
      modifies this
      ensures queue == old(queue) + [ShowEntry(SeverityOptions(s, text, options), freshId)]
    {
      var o := map["text" := Str(text), "color" := Str(SeverityColor(s)), "icon" := Str(SeverityIcon(s))];
      if options.Some? {
        o := o + options.value;
      }
      Show(o, freshId);
    }

    method Remove(index: int)
      modifies this
      ensures queue == SpliceOne(old(queue), index)
    {
      var start := index;
      if start < 0 {
        start := |queue| + start;
        if start < 0 {
          start := 0;
        }
      }
      if start < |queue| {
        queue := queue[..start] + queue[start + 1..];
      }
    }

    method Clear()
      modifies this
      ensures queue == []
    {
      queue := [];
    }
  }
}
