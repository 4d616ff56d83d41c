/** Small shared vocabulary: an option type, duplicate-freedom, JavaScript's
    `Array.prototype.slice(start)` and the `Math.floor(Math.random() * n)` idiom. */
module Common {

  datatype Option<T> = None | Some(value: T)

  /** No element occurs twice. */
  predicate NoDup<T(==)>(s: seq<T>) {
    forall i, j :: 0 <= i < j < |s| ==> s[i] != s[j]
  }

  /** Where `slice(start)` begins: a negative start counts from the end and
      both ends are clamped to the sequence. */
  function SliceStart(len: nat, start: int): (k: nat)
    ensures k <= len
  {
    if start < 0 then (if len + start >= 0 then len + start else 0)
    else if start <= len then start else len
  }

  /** JavaScript's `s.slice(start)`. */
  function SliceFrom<T>(s: seq<T>, start: int): seq<T> {
    s[SliceStart(|s|, start)..]
  }

  /** `s.slice(-n)` for n >= 1 is the last min(n, |s|) elements, in order;
      `s.slice(-0)` is `s.slice(0)`, the whole sequence. */
  lemma SliceFromNegative<T>(s: seq<T>, n: int)
    requires n >= 0
    ensures n >= 1 ==> |SliceFrom(s, -n)| == (if n <= |s| then n else |s|)
    ensures n >= 1 ==> SliceFrom(s, -n) == s[|s| - |SliceFrom(s, -n)|..]
    ensures n == 0 ==> SliceFrom(s, -n) == s
  {
  }

  /** `Math.floor(rand * n)` for a draw `rand` in [0, 1) is a valid index. */
  function RandomIndex(rand: real, n: nat): (i: nat)
    requires 0.0 <= rand < 1.0 && n > 0
    ensures i < n
  {
    var x := rand * (n as real);
    assert 0.0 <= x < n as real;
    x.Floor
  }

  /** `xs[Math.floor(Math.random() * xs.length)]`. */
  function Pick<T>(xs: seq<T>, rand: real): (r: T)
    requires xs != [] && 0.0 <= rand < 1.0
    ensures r in xs
  {
    xs[RandomIndex(rand, |xs|)]
  }

  /** The position of the first rule that fires, trying the rules in order. */
  function FirstMatch<R>(rules: seq<R>, fires: R -> bool): (r: Option<nat>)
    ensures r.Some? ==> r.value < |rules| && fires(rules[r.value])
    ensures r.Some? ==> forall k :: 0 <= k < r.value ==> !fires(rules[k])
    ensures r.None? <==> forall k :: 0 <= k < |rules| ==> !fires(rules[k])
    decreases |rules|
  {
    if rules == [] then None
    else if fires(rules[0]) then Some(0)
    else
      match FirstMatch(rules[1..], fires)
      case None => None
      case Some(i) => Some(i + 1)
  }

  /** `f(xs[0]) + f(xs[1]) + ...`: what a loop pushing the pieces of each
      element in turn collects. */
  function Concat<T, U>(xs: seq<T>, f: T -> seq<U>): seq<U>
    decreases |xs|
  {
    if xs == [] then [] else Concat(xs[..|xs| - 1], f) + f(xs[|xs| - 1])
  }

  /** One more element contributes its pieces at the end. */
  lemma ConcatStep<T, U>(xs: seq<T>, f: T -> seq<U>, i: nat)
    requires i < |xs|
    ensures Concat(xs[..i + 1], f) == Concat(xs[..i], f) + f(xs[i])
  {
    assert xs[..i + 1][..i] == xs[..i];
  }

  /** Something is collected exactly when it is a piece of some element. */
  lemma {:induction false} ConcatMembership<T, U>(xs: seq<T>, f: T -> seq<U>, x: U)
    ensures x in Concat(xs, f) <==> exists i | 0 <= i < |xs| :: x in f(xs[i])
    decreases |xs|
  {
    if xs != [] {
      var n := |xs| - 1;
      var pre := xs[..n];
      ConcatMembership(pre, f, x);
      if x in Concat(pre, f) {
        var i :| 0 <= i < |pre| && x in f(pre[i]);
        assert xs[i] == pre[i];
      }
      if exists i | 0 <= i < |xs| :: x in f(xs[i]) {
        var i :| 0 <= i < |xs| && x in f(xs[i]);
        if i < n {
          assert pre[i] == xs[i];
        }
      }
    }
  }
}
