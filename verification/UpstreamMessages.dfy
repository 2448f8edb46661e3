/** Messages in the upstream form and the prompt-cache marker (convert.go:62-97, 275-300). */
module UpstreamMessages {

  datatype Part = Part(kind: string, text: string, url: string, marked: bool)

  datatype ToolCall = ToolCall(id: string, name: string, arguments: string)

  datatype Content = Absent | Words(text: string) | Structured(parts: seq<Part>)

  datatype UpMessage =
    UpMessage(role: string, content: Content, parts: seq<Part>, calls: seq<ToolCall>, toolCallId: string)

  /** All tool calls of a list of messages, in order. */
  function CallsIn(msgs: seq<UpMessage>): seq<ToolCall> {
    if msgs == [] then [] else msgs[0].calls + CallsIn(msgs[1..])
  }

  lemma {:induction false} CallsInAppend(xs: seq<UpMessage>, ys: seq<UpMessage>)
    ensures CallsIn(xs + ys) == CallsIn(xs) + CallsIn(ys)
  {
    if xs == [] {
      assert xs + ys == ys;
    } else {
      assert (xs + ys)[1..] == xs[1..] + ys;
      CallsInAppend(xs[1..], ys);
    }
  }

  // ---------- the cache marker ----------

  predicate Cacheable(p: Part) { p.kind == "text" || p.kind == "image_url" }

  predicate Carries(m: UpMessage) { exists j :: 0 <= j < |m.parts| && m.parts[j].marked }

  predicate Marked(msgs: seq<UpMessage>) { exists i :: 0 <= i < |msgs| && Carries(msgs[i]) }

  /** The place for a marker: a cacheable part of a message that is no tool result. */
  predicate Place(msgs: seq<UpMessage>, i: nat, j: nat) {
    i < |msgs| && msgs[i].role != "tool" && j < |msgs[i].parts|
    && msgs[i].parts[j].kind in {"text", "image_url"}
  }

  /** The last place: none in a later message, none further on in this one. */
  ghost predicate LastPlace(msgs: seq<UpMessage>, i: nat, j: nat) {
    && Place(msgs, i, j)
    && (forall k, l :: k > i ==> !Place(msgs, k, l))
    && (forall l :: l > j ==> !Place(msgs, i, l))
  }

  function WithMarker(msgs: seq<UpMessage>, i: nat, j: nat): seq<UpMessage>
    requires Place(msgs, i, j)
  {
    msgs[i := msgs[i].(parts := msgs[i].parts[j := msgs[i].parts[j].(marked := true)])]
  }

  /**
   * A prompt that has a marker keeps what it has; any other gets exactly one, on
   * the last cacheable part outside the tool results, if there is such a part.
   */
  ghost predicate Ensured(before: seq<UpMessage>, after: seq<UpMessage>) {
    if Marked(before) || (forall i, j :: !Place(before, i, j)) then after == before
    else exists i, j :: LastPlace(before, i, j) && after == WithMarker(before, i, j)
  }

  method EnsureCacheMarker(msgs: array<UpMessage>)
    modifies msgs
    ensures Ensured(old(msgs[..]), msgs[..])
  {
    var i := 0;
    while i < msgs.Length
      invariant 0 <= i <= msgs.Length
      invariant forall k :: 0 <= k < i ==> !Carries(msgs[k])
    {
      var j := 0;
      while j < |msgs[i].parts|
        invariant 0 <= j <= |msgs[i].parts|
        invariant forall l :: 0 <= l < j ==> !msgs[i].parts[l].marked
      {
        if msgs[i].parts[j].marked {
          assert Carries(msgs[..][i]);
          return;
        }
        j := j + 1;
      }
      i := i + 1;
    }
    assert !Marked(msgs[..]);
    i := msgs.Length;
    while i > 0
      invariant 0 <= i <= msgs.Length
      invariant msgs[..] == old(msgs[..])
      invariant forall k, l :: k >= i ==> !Place(msgs[..], k, l)
    {
      i := i - 1;
      if msgs[i].role != "tool" {
        var j := |msgs[i].parts|;
        while j > 0
          invariant 0 <= j <= |msgs[i].parts|
          invariant forall l :: l >= j ==> !Place(msgs[..], i, l)
        {
          j := j - 1;
          if Cacheable(msgs[i].parts[j]) {
            assert LastPlace(msgs[..], i, j);
            ghost var before := msgs[..];
            msgs[i] := msgs[i].(parts := msgs[i].parts[j := msgs[i].parts[j].(marked := true)]);
            assert msgs[..] == WithMarker(before, i, j);
            return;
          }
        }
      }
    }
  }

  /** The last place is unique, so the outcome is determined. */
  lemma EnsuredUnique(before: seq<UpMessage>, x: seq<UpMessage>, y: seq<UpMessage>)
    requires Ensured(before, x) && Ensured(before, y)
    ensures x == y
  {
    if !(Marked(before) || (forall i, j :: !Place(before, i, j))) {
      var i, j :| LastPlace(before, i, j) && x == WithMarker(before, i, j);
      var k, l :| LastPlace(before, k, l) && y == WithMarker(before, k, l);
      assert i == k && j == l;
    }
  }

  /** Doing it again changes nothing, and no message or call comes or goes. */
  lemma EnsuredTwice(before: seq<UpMessage>, after: seq<UpMessage>, again: seq<UpMessage>)
    requires Ensured(before, after) && Ensured(after, again)
    ensures again == after
    ensures |after| == |before| && CallsIn(after) == CallsIn(before)
  {
    hide Marked, WithMarker, CallsIn;
    if Marked(before) || (forall i, j :: !Place(before, i, j)) {
    } else {
      var i, j :| LastPlace(before, i, j) && after == WithMarker(before, i, j);
      MarkerSet(before, i, j);
    }
  }

  lemma MarkerSet(msgs: seq<UpMessage>, i: nat, j: nat)
    requires Place(msgs, i, j)
    ensures var after := WithMarker(msgs, i, j);
      Marked(after) && |after| == |msgs| && CallsIn(after) == CallsIn(msgs)
  {
    var after := WithMarker(msgs, i, j);
    assert after[i].parts[j].marked;
    assert Carries(after[i]);
    SameCalls(msgs, after);
  }

  lemma {:induction false} SameCalls(xs: seq<UpMessage>, ys: seq<UpMessage>)
    requires |xs| == |ys| && forall i :: 0 <= i < |xs| ==> xs[i].calls == ys[i].calls
    ensures CallsIn(xs) == CallsIn(ys)
  {
    if xs != [] {
      SameCalls(xs[1..], ys[1..]);
    }
  }
}
