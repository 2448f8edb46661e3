/**
 * The answer as both stream translators build it: a list of segments, the last of
 * which may still be open.  They differ only in when a tool delta opens a segment
 * and in whether a finish reason closes one (proxy.go:634-686, responses.go:423-476).
 */
module Segments {
  import opened Chunks

  datatype Kind = Thinking | Text | ToolUse

  /** A block or item: its kind, for tools the id and name, and the deltas it received. */
  datatype Segment = Segment(kind: Kind, id: string, name: string, parts: seq<string>)

  /** A finished call as a client sees it. */
  datatype Call = Call(id: string, name: string, args: string)

  datatype Scanned = Scanned(segs: seq<Segment>, open: bool, id: string, name: string, reason: string)

  type Scan = s: Scanned | s.open ==> s.segs != [] witness Scanned([], false, "", "", "")

  const EMPTY: Scan := Scanned([], false, "", "", "")

  function Concat(parts: seq<string>): string {
    if parts == [] then "" else Concat(parts[..|parts| - 1]) + parts[|parts| - 1]
  }

  lemma ConcatPush(parts: seq<string>, part: string)
    ensures Concat(parts + [part]) == Concat(parts) + part
  {
    assert (parts + [part])[..|parts|] == parts;
  }

  function Last(s: Scan): Segment
    requires s.segs != []
  {
    s.segs[|s.segs| - 1]
  }

  predicate InKind(s: Scan, kind: Kind) { s.open && Last(s).kind == kind }

  function Begin(s: Scan, seg: Segment): Scan { s.(segs := s.segs + [seg], open := true) }

  /** The delta goes to the last segment. */
  function Extend(s: Scan, part: string): Scan
    requires s.segs != []
  {
    s.(segs := s.segs[..|s.segs| - 1] + [Last(s).(parts := Last(s).parts + [part])])
  }

  function Continue(s: Scan, kind: Kind, part: string): Scan {
    Extend(if InKind(s, kind) then s else Begin(s, Segment(kind, "", "", [])), part)
  }

  /** A new call takes the given id and name, and the remembered ones in place of empty ones. */
  function OpenCall(s: Scan, id: string, name: string): Scan {
    var id := if id != "" then id else s.id;
    var name := if name != "" then name else s.name;
    Begin(s.(id := id, name := name), Segment(ToolUse, id, name, []))
  }

  /** Arguments outside a call open one with the remembered id and name. */
  function FeedCall(s: Scan, args: string): Scan {
    if args == "" then s
    else Extend(if InKind(s, ToolUse) then s else OpenCall(s, "", ""), args)
  }

  function AnthropicOpens(s: Scan, id: string, name: string): bool {
    id != "" || (name != "" && !InKind(s, ToolUse))
  }

  function AnthropicTool(s: Scan, id: string, name: string, args: string): Scan {
    FeedCall(if AnthropicOpens(s, id, name) then OpenCall(s, id, name) else s, args)
  }

  function AnthropicStep(s: Scan, x: Atom): Scan {
    match x
    case Reason(t) => Continue(s, Thinking, t)
    case Say(t) => Continue(s, Text, t)
    case Tool(id, name, args) => AnthropicTool(s, id, name, args)
    case Finish(r) => s.(reason := r, open := false)
    case Elsewhere(_) => s
  }

  function ResponsesTool(s: Scan, id: string, name: string, args: string): Scan {
    FeedCall(if id != "" || name != "" then OpenCall(s, id, name) else s, args)
  }

  function ResponsesStep(s: Scan, x: Atom): Scan {
    match x
    case Reason(t) => Continue(s, Thinking, t)
    case Say(t) => Continue(s, Text, t)
    case Tool(id, name, args) => ResponsesTool(s, id, name, args)
    case Finish(r) => s.(reason := r)
    case Elsewhere(_) => s
  }

  /** The calls among the segments. */
  function Calls(segs: seq<Segment>): seq<Call> {
    if segs == [] then []
    else
      var seg := segs[|segs| - 1];
      Calls(segs[..|segs| - 1])
      + (if seg.kind == ToolUse then [Call(seg.id, seg.name, Concat(seg.parts))] else [])
  }

  /** All that was said in segments of a kind. */
  function Said(segs: seq<Segment>, kind: Kind): string {
    if segs == [] then ""
    else
      var seg := segs[|segs| - 1];
      Said(segs[..|segs| - 1], kind) + (if seg.kind == kind then Concat(seg.parts) else "")
  }
}
