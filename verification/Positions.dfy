/** Where in a list something stands, and lists put together. */
module Positions {

  /** The positions of the elements picked: all of them, in order. */
  function Where<T>(xs: seq<T>, pick: T -> bool): (r: seq<nat>)
    ensures forall i :: 0 <= i < |r| ==> r[i] < |xs| && pick(xs[r[i]])
    ensures forall i, j :: 0 <= i < j < |r| ==> r[i] < r[j]
    ensures forall k :: 0 <= k < |xs| && pick(xs[k]) ==> k in r
  {
    if xs == [] then []
    else
      var n := |xs| - 1;
      Where(xs[..n], pick) + (if pick(xs[n]) then [n] else [])
  }

  lemma WherePush<T>(xs: seq<T>, x: T, pick: T -> bool)
    ensures Where(xs + [x], pick) == Where(xs, pick) + (if pick(x) then [|xs|] else [])
  {
    assert (xs + [x])[..|xs|] == xs;
  }

  /** The elements picked and a list, one for one and in order, stand in a relation. */
  ghost predicate Matches<S, T>(ss: seq<S>, xs: seq<T>, pick: T -> bool, rel: (S, T) -> bool) {
    var at := Where(xs, pick);
    |ss| == |at| && forall i :: 0 <= i < |at| ==> rel(ss[i], xs[at[i]])
  }

  lemma MatchesNone<S, T>(pick: T -> bool, rel: (S, T) -> bool)
    ensures Matches([], [], pick, rel)
  {}

  lemma MatchesPush<S, T>(ss: seq<S>, s: S, xs: seq<T>, x: T, pick: T -> bool, rel: (S, T) -> bool)
    requires Matches(ss, xs, pick, rel) && (pick(x) ==> rel(s, x))
    ensures Matches(ss + (if pick(x) then [s] else []), xs + [x], pick, rel)
  {
    hide Where;
    WherePush(xs, x, pick);
    var at, longer := Where(xs, pick), Where(xs + [x], pick);
    var more := ss + (if pick(x) then [s] else []);
    forall i | 0 <= i < |longer|
      ensures rel(more[i], (xs + [x])[longer[i]])
    {
      if i < |at| {
        assert (xs + [x])[at[i]] == xs[at[i]];
      }
    }
  }

  function Flatten<T>(pieces: seq<seq<T>>): seq<T> {
    if pieces == [] then [] else Flatten(pieces[..|pieces| - 1]) + pieces[|pieces| - 1]
  }

  lemma FlattenPush<T>(pieces: seq<seq<T>>, piece: seq<T>)
    ensures Flatten(pieces + [piece]) == Flatten(pieces) + piece
  {
    assert (pieces + [piece])[..|pieces|] == pieces;
  }

  function Join(texts: seq<string>, separator: string): string {
    if texts == [] then ""
    else if |texts| == 1 then texts[0]
    else Join(texts[..|texts| - 1], separator) + separator + texts[|texts| - 1]
  }

  /** A text alone is itself; between what comes before and after stands one separator. */
  lemma {:induction false} JoinAppend(xs: seq<string>, ys: seq<string>, separator: string)
    requires xs != [] && ys != []
    ensures Join(xs + ys, separator) == Join(xs, separator) + separator + Join(ys, separator)
    ensures |ys| == 1 ==> Join(ys, separator) == ys[0]
    decreases |ys|
  {
    var n := |ys| - 1;
    assert (xs + ys)[..|xs| + n] == xs + ys[..n];
    if n == 0 {
      assert xs + ys[..n] == xs;
    } else {
      JoinAppend(xs, ys[..n], separator);
      var a, b, c := Join(xs, separator), Join(ys[..n], separator), ys[n];
      assert a + separator + b + separator + c == a + separator + (b + separator + c);
    }
  }
}
