/** Sequence operations behind the JavaScript array methods the pages call:
    `filter`, `find` and `join`. */
module Lists {
  import opened Options

  /** The elements of `a` occur in `b` in the same order (`a` is `b` with some
      elements deleted). */
  ghost predicate IsSubsequence<T>(a: seq<T>, b: seq<T>)
    decreases |b|
  {
    if a == [] then true
    else if b == [] then false
    else if a[0] == b[0] then IsSubsequence(a[1..], b[1..])
    else IsSubsequence(a, b[1..])
  }

  /** `s.filter(p)`: exactly the elements of `s` that satisfy `p`, in the order of `s`. */
  function Filter<T>(p: T -> bool, s: seq<T>): (r: seq<T>)
    ensures |r| <= |s|
    ensures forall i :: 0 <= i < |r| ==> r[i] in s && p(r[i])
    ensures forall i :: 0 <= i < |s| && p(s[i]) ==> s[i] in r
    ensures IsSubsequence(r, s)
  {
    if s == [] then []
    else if p(s[0]) then [s[0]] + Filter(p, s[1..])
    else
      var rest := Filter(p, s[1..]);
      assert rest != [] ==> rest[0] in rest;
      rest
  }

  /** The filter keeps every satisfying element as often as it occurs in `s`, and no
      other element. */
  lemma {:induction false} FilterCounts<T(!new)>(p: T -> bool, s: seq<T>)
    ensures forall x :: multiset(Filter(p, s))[x] == if p(x) then multiset(s)[x] else 0
  {
    if s != [] {
      FilterCounts(p, s[1..]);
      assert s == [s[0]] + s[1..];
    }
  }

  /** When exactly one position of `s` satisfies `p`, the filter keeps that element alone. */
  lemma {:induction false} FilterSingle<T>(p: T -> bool, s: seq<T>, k: nat)
    requires k < |s|
    requires forall i :: 0 <= i < |s| ==> (p(s[i]) <==> i == k)
    ensures Filter(p, s) == [s[k]]
  {
    if k > 0 {
      FilterSingle(p, s[1..], k - 1);
    }
  }

  /** `s.findIndex(p)`, with -1 read as `None`: the first position whose element satisfies `p`. */
  function FindIndex<T>(p: T -> bool, s: seq<T>): (r: Option<nat>)
    ensures r.Some? ==> r.value < |s| && p(s[r.value]) && forall j :: 0 <= j < r.value ==> !p(s[j])
    ensures r.None? ==> forall j :: 0 <= j < |s| ==> !p(s[j])
  {
    if s == [] then None
    else if p(s[0]) then Some(0)
    else match FindIndex(p, s[1..])
      case Some(k) => Some(k + 1)
      case None => None
  }

  /** `s.find(p)`: the first element satisfying `p`, or `None` for `undefined`. */
  function Find<T>(p: T -> bool, s: seq<T>): (r: Option<T>)
    ensures r.Some? ==> r.value in s && p(r.value)
    ensures r.None? ==> forall i :: 0 <= i < |s| ==> !p(s[i])
  {
    match FindIndex(p, s)
    case Some(k) => Some(s[k])
    case None => None
  }

  /** A found element is the first one satisfying `p`: no earlier position does. */
  lemma FindFirst<T>(p: T -> bool, s: seq<T>)
    ensures Find(p, s).Some? ==>
              exists k :: 0 <= k < |s| && s[k] == Find(p, s).value && p(s[k]) &&
                          forall j :: 0 <= j < k ==> !p(s[j])
  {
    if Find(p, s).Some? {
      var k := FindIndex(p, s).value;
      assert s[k] == Find(p, s).value;
    }
  }

  /** Where the first match lies depends only on which positions satisfy the predicate. */
  lemma {:induction false} FindIndexSamePattern<T, U>(p: T -> bool, s: seq<T>, q: U -> bool, t: seq<U>)
    requires |s| == |t|
    requires forall i :: 0 <= i < |s| ==> (p(s[i]) <==> q(t[i]))
    ensures FindIndex(p, s) == FindIndex(q, t)
  {
    if s != [] {
      FindIndexSamePattern(p, s[1..], q, t[1..]);
    }
  }

  /** `xs.join(sep)`. */
  function Join(xs: seq<string>, sep: string): (r: string)
    ensures xs != [] ==> xs[0] <= r
  {
    if xs == [] then ""
    else if |xs| == 1 then xs[0]
    else xs[0] + sep + Join(xs[1..], sep)
  }

  /** Sum of the lengths of the strings in `xs`. */
  function TotalLength(xs: seq<string>): nat
  {
    if xs == [] then 0 else |xs[0]| + TotalLength(xs[1..])
  }

  /** A join of n pieces holds every piece and n - 1 separators, and nothing else. */
  lemma {:induction false} JoinLength(xs: seq<string>, sep: string)
    requires xs != []
    ensures |Join(xs, sep)| == TotalLength(xs) + (|xs| - 1) * |sep|
  {
    if |xs| > 1 {
      JoinLength(xs[1..], sep);
    }
  }
}
