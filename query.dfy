/** The store's read primitives over a collection kept in insertion (natural) order:
    `findOne` is the first match, `countDocuments` the number of matches, and
    `find().sort({ createdAt: -1 })` the matches newest first. */
module Query {
  import opened Wrappers

  /** `findOne(filter)`: the first matching position. */
  function FindFirst<T>(s: seq<T>, p: T -> bool): (r: Option<nat>)
    ensures r.Some? ==> r.value < |s| && p(s[r.value])
    ensures r.Some? ==> forall j :: 0 <= j < r.value ==> !p(s[j])
    ensures r.None? <==> forall j :: 0 <= j < |s| ==> !p(s[j])
  {
    if s == [] then None
    else if p(s[0]) then Some(0)
    else match FindFirst(s[1..], p)
      case None => None
      case Some(i) => Some(i + 1)
  }

  /** `countDocuments(filter)`. */
  function Count<T>(s: seq<T>, p: T -> bool): (n: nat)
    ensures n <= |s|
    ensures n == 0 <==> forall j :: 0 <= j < |s| ==> !p(s[j])
  {
    if s == [] then 0
    else Count(s[..|s| - 1], p) + (if p(s[|s| - 1]) then 1 else 0)
  }

  /** `find(filter).sort({ createdAt: -1 })`: every matching position exactly once, newest first. */
  function NewestFirst<T>(s: seq<T>, p: T -> bool): (r: seq<nat>)
    ensures |r| == Count(s, p)
    ensures forall k :: 0 <= k < |r| ==> r[k] < |s| && p(s[r[k]])
    ensures forall k, l :: 0 <= k < l < |r| ==> r[k] > r[l]
    ensures forall i :: 0 <= i < |s| && p(s[i]) ==> i in r
  {
    if s == [] then []
    else
      var rest := NewestFirst(s[..|s| - 1], p);
      if p(s[|s| - 1]) then [|s| - 1] + rest else rest
  }

  function Min(a: nat, b: nat): nat { if a < b then a else b }

  /** `find(filter).sort({ createdAt: -1 }).limit(n)`: the `n` newest matching positions, newest
      first; any match left out is older than every one returned. */
  function Newest<T>(s: seq<T>, p: T -> bool, n: nat): (r: seq<nat>)
    ensures |r| == Min(Count(s, p), n)
    ensures forall k :: 0 <= k < |r| ==> r[k] < |s| && p(s[r[k]])
    ensures forall k, l :: 0 <= k < l < |r| ==> r[k] > r[l]
    ensures forall i :: 0 <= i < |s| && p(s[i]) && i !in r ==> |r| == n && forall k :: 0 <= k < |r| ==> i < r[k]
  {
    var all := NewestFirst(s, p);
    var page := if |all| <= n then all else all[..n];
    assert forall i :: 0 <= i < |s| && p(s[i]) && i !in page ==> |page| == n && forall k :: 0 <= k < |page| ==> i < page[k] by {
      forall i | 0 <= i < |s| && p(s[i]) && i !in page
        ensures |page| == n && forall k :: 0 <= k < |page| ==> i < page[k]
      {
        var m :| 0 <= m < |all| && all[m] == i;
        assert m >= |page|;
      }
    }
    page
  }

  /** Two collections that agree, position by position, on whether a document matches give the
      same `findOne` answer. */
  lemma FindFirstAgree<T, U>(s: seq<T>, p: T -> bool, t: seq<U>, q: U -> bool)
    requires |s| == |t|
    requires forall j :: 0 <= j < |s| ==> p(s[j]) == q(t[j])
    ensures FindFirst(s, p) == FindFirst(t, q)
  {
  }

  /** ... and the same count. */
  lemma {:induction false} CountAgree<T, U>(s: seq<T>, p: T -> bool, t: seq<U>, q: U -> bool)
    requires |s| == |t|
    requires forall j :: 0 <= j < |s| ==> p(s[j]) == q(t[j])
    ensures Count(s, p) == Count(t, q)
    decreases |s|
  {
    if s != [] {
      CountAgree(s[..|s| - 1], p, t[..|t| - 1], q);
    }
  }

  /** Inserting a document adds one to the count exactly when it matches. */
  lemma CountAppend<T>(s: seq<T>, x: T, p: T -> bool)
    ensures Count(s + [x], p) == Count(s, p) + (if p(x) then 1 else 0)
  {
    assert (s + [x])[..|s|] == s;
  }

  /** Inserting a document leaves an earlier match where it was, and otherwise finds the new
      document if it matches. */
  lemma {:induction false} FindFirstAppend<T>(s: seq<T>, x: T, p: T -> bool)
    ensures FindFirst(s + [x], p) ==
      if FindFirst(s, p).Some? then FindFirst(s, p) else if p(x) then Some(|s|) else None
  {
    if s != [] {
      assert (s + [x])[0] == s[0];
      assert (s + [x])[1..] == s[1..] + [x];
      FindFirstAppend(s[1..], x, p);
    }
  }
}
