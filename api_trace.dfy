/**
 * The dashboard's API trace panel (`APITrace`): a list of recent backend
 * calls, newest first and capped at 100, whose entries are completed in
 * place when the response arrives; a visibility flag for the panel and a
 * badge showing how many calls are listed. The HTML rendering, the fetch
 * interception and the export download are left out; the trace records the
 * interceptor builds are modelled as dictionaries.
 */
module ApiTracing {
  import opened Wrappers
  import opened Text
  import opened Values

  /** A trace record: a JavaScript object, merged into by `Object.assign`. */
  type Trace = map<string, Json>

  const MaxTraces := 100

  /** `t.id === traceId`. */
  predicate HasId(t: Trace, traceId: string) {
    "id" in t && t["id"] == Str(traceId)
  }

  /** The list after `unshift(t)` and the cut to the first 100 entries. */
  function Newest(traces: seq<Trace>, t: Trace): (r: seq<Trace>)
    ensures |r| == if |traces| < MaxTraces then |traces| + 1 else MaxTraces
    ensures r[0] == t
    ensures forall i :: 1 <= i < |r| ==> r[i] == traces[i - 1]
  {
    var grown := [t] + traces;
    if |grown| > MaxTraces then grown[..MaxTraces] else grown
  }

  /** Adding traces one at a time never lets the list grow past 100, newest first. */
  lemma {:induction false} NewestStaysBounded(traces: seq<Trace>, added: seq<Trace>)
    requires |traces| <= MaxTraces
    ensures |AddAll(traces, added)| <= MaxTraces
    ensures added != [] ==> AddAll(traces, added)[0] == added[|added| - 1]
    decreases |added|
  {
    if added != [] {
      NewestStaysBounded(traces, added[..|added| - 1]);
    }
  }

  /** Adding the traces of `added` in order. */
  function AddAll(traces: seq<Trace>, added: seq<Trace>): seq<Trace>
    decreases |added|
  {
    if added == [] then traces else Newest(AddAll(traces, added[..|added| - 1]), added[|added| - 1])
  }

  /** `traces.find(t => t.id === traceId)`, as the index it stops at. */
  function FindTrace(traces: seq<Trace>, traceId: string): (r: Option<nat>)
    ensures r.Some? ==>
      && r.value < |traces|
      && HasId(traces[r.value], traceId)
      && forall j :: 0 <= j < r.value ==> !HasId(traces[j], traceId)
    ensures r.None? ==> forall j :: 0 <= j < |traces| ==> !HasId(traces[j], traceId)
    decreases |traces|
  {
    if traces == [] then None
    else if HasId(traces[0], traceId) then Some(0)
    else match FindTrace(traces[1..], traceId)
      case None => None
      case Some(i) => Some(i + 1)
  }

  /** The list after `updateTrace(traceId, updates)`: the first matching trace absorbs the updates. */
  function Updated(traces: seq<Trace>, traceId: string, updates: Trace): seq<Trace> {
    match FindTrace(traces, traceId)
    case None => traces
    case Some(i) => traces[i := traces[i] + updates]
  }

  /**
   * An update touches only the first trace with the id: that trace takes every
   * updated field and keeps the others; all other traces, and the whole list
   * when no trace has the id, are unchanged.
   */
  lemma UpdateOutcome(traces: seq<Trace>, traceId: string, updates: Trace)
    ensures var r := Updated(traces, traceId, updates);
      && |r| == |traces|
      && ((forall j :: 0 <= j < |traces| ==> !HasId(traces[j], traceId)) ==> r == traces)
      && (forall j :: 0 <= j < |traces| && r[j] != traces[j] ==>
        && HasId(traces[j], traceId)
        && (forall k :: 0 <= k < j ==> !HasId(traces[k], traceId))
        && (forall key :: key in updates ==> key in r[j] && r[j][key] == updates[key])
        && (forall key :: key in traces[j] && key !in updates ==> key in r[j] && r[j][key] == traces[j][key]))
  {
  }

  /**
   * The reply to a request lands on the trace that request created, even when
   * older traces are listed: the newest entry is the request's record with the
   * reply's fields merged in.
   */
  lemma ReplyLandsOnItsRequest(traces: seq<Trace>, request: Trace, traceId: string, reply: Trace)
    requires HasId(request, traceId)
    ensures Updated(Newest(traces, request), traceId, reply)[0] == request + reply
    ensures |Updated(Newest(traces, request), traceId, reply)| == |Newest(traces, request)|
  {
    assert FindTrace(Newest(traces, request), traceId) == Some(0);
  }

  // ---------------------------------------------------------------------------
  // Display helpers

  /** The call-count badge: hidden, or showing its text. */
  datatype Badge = BadgeHidden | BadgeShown(text: string)

  /** What `updateBadge` shows for `count` traces. */
  function BadgeOf(count: nat): Badge {
    if count > 0 then BadgeShown(if count > 99 then "99+" else NatToString(count)) else BadgeHidden
  }

  /**
   * The badge is hidden exactly when there are no traces; it reads "99+"
   * exactly when there are more than 99, and otherwise the count itself.
   */
  lemma BadgeMeaning(count: nat)
    ensures BadgeOf(count).BadgeHidden? <==> count == 0
    ensures BadgeOf(count).BadgeShown? ==> (BadgeOf(count).text == "99+" <==> count > 99)
    ensures 0 < count <= 99 ==> JsParseInt(BadgeOf(count).text) == Some(count)
  {
    if 0 < count <= 99 {
      NatToStringLength(count);
      JsParseIntOfNat(count);
    }
  }

  /** `getStatusClass`. */
  function StatusClass(status: string): (c: string)
    ensures c == "bg-gray-600 text-white" <==> status != "success" && status != "error" && status != "pending"
  {
    if status == "success" then "bg-green-600 text-white"
    else if status == "error" then "bg-red-600 text-white"
    else if status == "pending" then "bg-yellow-600 text-white"
    else "bg-gray-600 text-white"
  }

  /** `getMethodClass`. */
  function MethodClass(verb: string): (c: string)
    ensures c == "bg-gray-600 text-white" <==>
      verb != "GET" && verb != "POST" && verb != "PUT" && verb != "DELETE"
  {
    if verb == "GET" then "bg-blue-600 text-white"
    else if verb == "POST" then "bg-green-600 text-white"
    else if verb == "PUT" then "bg-orange-600 text-white"
    else if verb == "DELETE" then "bg-red-600 text-white"
    else "bg-gray-600 text-white"
  }

  /**
   * `formatData`: 'No data' for a falsy value; a string is re-indented when it
   * parses as JSON and shown as it is otherwise; other values are printed.
   * `reindent` stands for `JSON.stringify(JSON.parse(s), null, 2)` (`None`
   * when parsing throws) and `stringify` for `JSON.stringify(v, null, 2)`.
   */
  function FormatData(data: Json, reindent: string -> Option<string>, stringify: Json -> string): (r: string)
    ensures !JsTruthy(data) ==> r == "No data"
    ensures JsTruthy(data) && data.Str? && reindent(data.s).None? ==> r == data.s
    ensures JsTruthy(data) && data.Str? && reindent(data.s).Some? ==> r == reindent(data.s).value
    ensures data.Int? && data.i != 0 ==> r == IntToString(data.i)
    ensures data == Bool(true) ==> r == "true"
    ensures data.Obj? || data.Arr? ==> r == stringify(data)
  {
    if !JsTruthy(data) then "No data"
    else if data.Str? then
      match reindent(data.s)
      case Some(text) => text
      case None => data.s
    else if data.Obj? || data.Arr? then stringify(data)
    else JsString(data)
  }

  // ---------------------------------------------------------------------------
  // parseHeaders

  const LineBreak := "\r\n"
  const HeaderSeparator := ": "

  /** The (name, value) pairs of the lines that split on ': ' into exactly two parts, in order. */
  function HeaderPairs(lines: seq<string>): seq<(string, string)>
    decreases |lines|
  {
    if lines == [] then []
    else
      var parts := Split(lines[|lines| - 1], HeaderSeparator);
      HeaderPairs(lines[..|lines| - 1]) + (if |parts| == 2 then [(parts[0], parts[1])] else [])
  }

  /** Assigning the pairs in order to a fresh object: a later pair overwrites an earlier one. */
  function Assigned(pairs: seq<(string, string)>): map<string, string>
    decreases |pairs|
  {
    if pairs == [] then map[]
    else Assigned(pairs[..|pairs| - 1])[pairs[|pairs| - 1].0 := pairs[|pairs| - 1].1]
  }

  /**
   * A name is in the object exactly when some pair carries it, and its value
   * is the one of the last such pair.
   */
  lemma {:induction false} AssignedMeaning(pairs: seq<(string, string)>, i: nat)
    requires i < |pairs|
    requires forall j :: i < j < |pairs| ==> pairs[j].0 != pairs[i].0
    ensures pairs[i].0 in Assigned(pairs) && Assigned(pairs)[pairs[i].0] == pairs[i].1
    decreases |pairs|
  {
    if i < |pairs| - 1 {
      AssignedMeaning(pairs[..|pairs| - 1], i);
    }
  }

  lemma {:induction false} AssignedKeys(pairs: seq<(string, string)>, name: string)
    ensures name in Assigned(pairs) <==> exists j :: 0 <= j < |pairs| && pairs[j].0 == name
    decreases |pairs|
  {
    if pairs != [] {
      var init := pairs[..|pairs| - 1];
      AssignedKeys(init, name);
      if name in Assigned(init) {
        var j :| 0 <= j < |init| && init[j].0 == name;
        assert pairs[j].0 == name;
      }
      if exists j :: 0 <= j < |pairs| && pairs[j].0 == name {
        var j :| 0 <= j < |pairs| && pairs[j].0 == name;
        if j < |init| {
          assert init[j].0 == name;
        }
      }
    }
  }

  /** The object of string values as a JSON object. */
  function HeaderObject(m: map<string, string>): Json {
    Obj(map k | k in m :: Str(m[k]))
  }

  /** The headers handed to `parseHeaders`: any value, or a fetch `Headers` object with its entries. */
  datatype HeaderSource = Value(v: Json) | FetchHeaders(entries: seq<(string, string)>)

  /** The `forEach` over the lines of a raw header block. */
  method ParseHeaderText(text: string) returns (r: map<string, string>)
    ensures r == Assigned(HeaderPairs(Split(text, LineBreak)))
  {
    var lines := Split(text, LineBreak);
    r := map[];
    var i := 0;
    while i < |lines|
      invariant 0 <= i <= |lines|
      invariant r == Assigned(HeaderPairs(lines[..i]))
    {
      var parts := Split(lines[i], HeaderSeparator);
      assert lines[..i + 1][..i] == lines[..i];
      if |parts| == 2 {
        r := r[parts[0] := parts[1]];
        assert HeaderPairs(lines[..i + 1]) == HeaderPairs(lines[..i]) + [(parts[0], parts[1])];
      } else {
        assert HeaderPairs(lines[..i + 1]) == HeaderPairs(lines[..i]);
      }
      i := i + 1;
    }
    assert lines[..i] == lines;
  }

  /** The `for ... of headers.entries()` loop. */
  method CopyEntries(entries: seq<(string, string)>) returns (r: map<string, string>)
    ensures r == Assigned(entries)
  {
    r := map[];
    for i := 0 to |entries|
      invariant r == Assigned(entries[..i])
    {
      assert entries[..i + 1][..i] == entries[..i];
      r := r[entries[i].0 := entries[i].1];
    }
    assert entries[..|entries|] == entries;
  }

  /**
   * `parseHeaders`: `{}` for a falsy value, the parsed lines of a string, the
   * entries of a `Headers` object, and any other value as it is.
   */
  method ParseHeaders(headers: HeaderSource) returns (r: Json)
    ensures headers.Value? && !JsTruthy(headers.v) ==> r == Obj(map[])
    ensures headers.Value? && headers.v.Str? && headers.v.s != "" ==>
      r == HeaderObject(Assigned(HeaderPairs(Split(headers.v.s, LineBreak))))
    ensures headers.FetchHeaders? ==> r == HeaderObject(Assigned(headers.entries))
    ensures headers.Value? && JsTruthy(headers.v) && !headers.v.Str? ==> r == headers.v
  {
    match headers
    case Value(v) =>
      if !JsTruthy(v) {
        return Obj(map[]);
      }
      if v.Str? {
        var m := ParseHeaderText(v.s);
        return HeaderObject(m);
      }
      return v;
    case FetchHeaders(entries) =>
      var m := CopyEntries(entries);
      return HeaderObject(m);
  }

  // ---------------------------------------------------------------------------
  // The panel

  class ApiTrace {
    /** `traces`, newest first. */
    var traces: seq<Trace>
    /** `isVisible`. */
    var isVisible: bool
    /** The `apiCallBadge` element. */
    var badge: Badge
    /** `maxTraces`. */
    const maxTraces: nat

    /** At most `maxTraces` traces, and the badge matches their count. */
    ghost predicate Valid()
      reads this
    {
      maxTraces == MaxTraces && |traces| <= maxTraces && badge == BadgeOf(|traces|)
    }

    constructor ()
      ensures Valid() && traces == [] && !isVisible
    {
      traces := [];
      maxTraces := MaxTraces;
      isVisible := false;
      badge := BadgeHidden;
    }

    /** `addTrace`: the new trace goes first and the list is cut back to `maxTraces`. */
    method AddTrace(t: Trace)
      requires Valid()
      modifies this`traces, this`badge
      ensures Valid()
      ensures traces == Newest(old(traces), t)
    {
      traces := [t] + traces;
      if |traces| > maxTraces {
        traces := traces[..maxTraces];
      }
      UpdateBadge();
    }

    /** `updateTrace`: `Object.assign` on the first trace with the id, if any. */
    method UpdateTrace(traceId: string, updates: Trace)
      requires Valid()
      modifies this`traces
      ensures Valid()
      ensures traces == Updated(old(traces), traceId, updates)
    {
      var i := 0;
      while i < |traces|
        invariant 0 <= i <= |traces|
        invariant forall j :: 0 <= j < i ==> !HasId(traces[j], traceId)
      {
        if HasId(traces[i], traceId) {
          assert FindTrace(traces, traceId) == Some(i) by {
            FindFirst(traces, traceId, i);
          }
          traces := traces[i := traces[i] + updates];
          return;
        }
        i := i + 1;
      }
    }

    /** `updateBadge`. */
    method UpdateBadge()
      modifies this`badge
      ensures badge == BadgeOf(|traces|)
    {
      var count := |traces|;
      if count > 0 {
        badge := BadgeShown(if count > 99 then "99+" else NatToString(count));
      } else {
        badge := BadgeHidden;
      }
    }

    /** `clearTraces`. */
    method ClearTraces()
      requires Valid()
      modifies this`traces, this`badge
      ensures Valid() && traces == []
    {
      traces := [];
      UpdateBadge();
    }

    /** `toggle`. */
    method Toggle()
      modifies this`isVisible
      ensures isVisible == !old(isVisible)
    {
      isVisible := !isVisible;
    }

    /** `show`; showing twice is the same as showing once. */
    method Show()
      modifies this`isVisible
      ensures isVisible
    {
      isVisible := true;
    }

    /** `hide`. */
    method Hide()
      modifies this`isVisible
      ensures !isVisible
    {
      isVisible := false;
    }
  }

  /** The first trace with the id is the one `find` stops at. */
  lemma {:induction false} FindFirst(traces: seq<Trace>, traceId: string, i: nat)
    requires i < |traces| && HasId(traces[i], traceId)
    requires forall j :: 0 <= j < i ==> !HasId(traces[j], traceId)
    ensures FindTrace(traces, traceId) == Some(i)
    decreases i
  {
    if i > 0 {
      FindFirst(traces[1..], traceId, i - 1);
    }
  }
}
