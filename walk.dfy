/**
 * The enumerations forEachAttribute, forEachEvent and forEachTask hand every
 * item to a callback and stop as soon as the callback returns true. A walk is
 * described by the items the callback saw and by whether it asked to stop.
 */
module Walk {

  datatype WalkResult<T> = WalkResult(stopped: bool, visited: seq<T>)

  /** A short-circuiting walk over `items`. */
  function ForEach<T>(items: seq<T>, f: T -> bool): WalkResult<T>
  {
    if items == [] then WalkResult(false, [])
    else if f(items[0]) then WalkResult(true, [items[0]])
    else
      var rest := ForEach(items[1..], f);
      WalkResult(rest.stopped, [items[0]] + rest.visited)
  }

  /**
   * The walk sees a prefix of the items; it stops exactly when some item
   * satisfies the callback, and then at the first such item; without a stop
   * it sees every item.
   */
  lemma {:induction false} ForEachFacts<T>(items: seq<T>, f: T -> bool)
    ensures ForEach(items, f).visited <= items
    ensures ForEach(items, f).stopped <==> exists i :: 0 <= i < |items| && f(items[i])
    ensures ForEach(items, f).stopped ==> |ForEach(items, f).visited| > 0
                                          && f(ForEach(items, f).visited[|ForEach(items, f).visited| - 1])
    ensures forall j :: 0 <= j < |ForEach(items, f).visited| - 1 ==> !f(ForEach(items, f).visited[j])
    ensures !ForEach(items, f).stopped ==> ForEach(items, f).visited == items
  {
    if items != [] && !f(items[0]) {
      ForEachFacts(items[1..], f);
      assert forall i :: 1 <= i < |items| ==> items[i] == items[1..][i - 1];
      var rest := ForEach(items[1..], f);
      assert forall j :: 1 <= j < |rest.visited| + 1 ==> ([items[0]] + rest.visited)[j] == rest.visited[j - 1];
    }
  }

  /**
   * `first || second` on two walks: the second walk runs only when the first
   * did not stop.
   */
  function OrElse<T>(first: WalkResult<T>, second: WalkResult<T>): (r: WalkResult<T>)
    ensures first.stopped ==> r == first
    ensures !first.stopped ==> r.stopped == second.stopped && r.visited == first.visited + second.visited
  {
    if first.stopped then first else WalkResult(second.stopped, first.visited + second.visited)
  }

  /** Walking `a` and then, unless stopped, `b` is one walk over `a + b`. */
  lemma {:induction false} OrElseIsConcatenation<T>(a: seq<T>, b: seq<T>, f: T -> bool)
    ensures OrElse(ForEach(a, f), ForEach(b, f)) == ForEach(a + b, f)
  {
    if a == [] {
      assert a + b == b;
    } else {
      var tail := a[1..];
      assert (a + b)[0] == a[0];
      assert (a + b)[1..] == tail + b;
      if !f(a[0]) {
        OrElseIsConcatenation(tail, b, f);
        var rest, restA, restB := ForEach(tail + b, f), ForEach(tail, f), ForEach(b, f);
        assert ForEach(a + b, f) == WalkResult(rest.stopped, [a[0]] + rest.visited);
        assert ForEach(a, f) == WalkResult(restA.stopped, [a[0]] + restA.visited);
        if !restA.stopped {
          assert [a[0]] + (restA.visited + restB.visited) == ([a[0]] + restA.visited) + restB.visited;
        }
      }
    }
  }
}
