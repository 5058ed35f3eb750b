/**
 * The search strategies of Python's `re` module that the invoice patterns
 * need, stated over a recogniser `at` that says whether (and how) a pattern
 * matches at one position:
 *   - `re.search` tries start positions left to right and keeps the first;
 *   - a lazy group `.+?` / `.*?` tries end positions left to right and keeps
 *     the first one after which the rest of the pattern matches;
 *   - a greedy run that the rest of the pattern may force to give characters
 *     back tries end positions right to left;
 *   - `re.finditer` repeats `re.search` from the end of the previous match.
 */
module Scan {
  import opened Options
  import opened Text

  /** A matched group `s[lo..hi]`. */
  datatype Group = Group(lo: nat, hi: nat)

  function Slice(s: string, g: Group): string
    requires g.lo <= g.hi <= |s|
  {
    s[g.lo..g.hi]
  }

  /** A greedy run `P+` at `i` whose end nothing after it can move: the end of the maximal run. */
  function RunAt(s: string, i: nat, P: char -> bool): (r: Option<nat>)
    ensures r.Some? ==> i < r.value <= |s| && AllIn(s, i, r.value, P)
    ensures r.Some? ==> r.value == |s| || !P(s[r.value])
  {
    if i > |s| then None
    else
      var j := Span(s, i, P);
      SpanRun(s, i, P);
      if i < j then Some(j) else None
  }

  /** A non-empty maximal run is the one `RunAt` finds. */
  lemma RunAtComplete(s: string, i: nat, j: nat, P: char -> bool)
    requires i < j && AllIn(s, i, j, P) && (j == |s| || !P(s[j]))
    ensures RunAt(s, i, P) == Some(j)
  {
    SpanUnique(s, i, j, P);
  }

  /** The first position `p` in `[lo, hi]` at which `at` succeeds, and what it found there. */
  function First<T>(lo: nat, hi: nat, at: nat -> Option<T>): (r: Option<(nat, T)>)
    ensures r.Some? ==> lo <= r.value.0 <= hi && at(r.value.0) == Some(r.value.1)
    ensures r.Some? ==> forall p | lo <= p < r.value.0 :: at(p).None?
    ensures r.None? ==> forall p | lo <= p <= hi :: at(p).None?
    decreases hi + 1 - lo
  {
    if lo > hi then None
    else match at(lo)
      case Some(v) => Some((lo, v))
      case None => First(lo + 1, hi, at)
  }

  /** The last position `p` in `[lo, hi]` at which `at` succeeds, and what it found there. */
  function Last<T>(lo: nat, hi: nat, at: nat -> Option<T>): (r: Option<(nat, T)>)
    ensures r.Some? ==> lo <= r.value.0 <= hi && at(r.value.0) == Some(r.value.1)
    ensures r.Some? ==> forall p | r.value.0 < p <= hi :: at(p).None?
    ensures r.None? ==> forall p | lo <= p <= hi :: at(p).None?
    decreases hi
  {
    if lo > hi then None
    else match at(hi)
      case Some(v) => Some((hi, v))
      case None => if hi == 0 then None else Last(lo, hi - 1, at)
  }

  /** Two recognisers that agree on a range are searched alike. */
  lemma {:induction false} FirstCongruent<T>(lo: nat, hi: nat, a: nat -> Option<T>, b: nat -> Option<T>)
    requires forall p | lo <= p <= hi :: a(p) == b(p)
    ensures First(lo, hi, a) == First(lo, hi, b)
    decreases hi + 1 - lo
  {
    if lo <= hi && a(lo).None? {
      FirstCongruent(lo + 1, hi, a, b);
    }
  }

  /** `re.search`: the leftmost start position in `s` (the end of `s` included) where `at` matches. */
  function Search<T>(s: string, at: nat -> Option<T>): (r: Option<(nat, T)>)
    ensures r.Some? ==> r.value.0 <= |s| && at(r.value.0) == Some(r.value.1)
    ensures r.Some? ==> forall p: nat | p < r.value.0 :: at(p).None?
    ensures r.None? ==> forall p: nat | p <= |s| :: at(p).None?
  {
    First(0, |s|, at)
  }

  /**
   * The end positions a lazy `.+?` starting at `g` may take, tried in order:
   * at least one character, none of them a newline. With `dotAll` (DOTALL)
   * the newline is allowed too.
   */
  function LazyEndMax(s: string, g: nat, dotAll: bool): (e: nat)
    requires g <= |s|
    ensures g <= e <= |s|
    ensures !dotAll ==> AllIn(s, g, e, NotNewline) && (e < |s| ==> s[e] == '\n')
    ensures dotAll ==> e == |s|
  {
    SpanRun(s, g, NotNewline);
    if dotAll then |s| else Span(s, g, NotNewline)
  }

  /**
   * Python's `re.finditer` for a pattern whose matches are never empty: the
   * leftmost match at or after `from`, then the next one from where it ended.
   * `at(p)` gives the end of the match at `p` with its captures.
   */
  function FindAll<T>(s: string, from: nat, at: nat -> Option<(nat, T)>): (r: seq<(nat, nat, T)>)
    requires forall p: nat :: at(p).Some? ==> p < at(p).value.0 <= |s|
    ensures forall k | 0 <= k < |r| :: from <= r[k].0 < r[k].1 <= |s| && at(r[k].0) == Some((r[k].1, r[k].2))
    ensures forall k | 0 <= k < |r| - 1 :: r[k].1 <= r[k + 1].0
    ensures r == [] <==> First(from, |s|, at).None?
    ensures r != [] ==> r[0].0 == First(from, |s|, at).value.0
    decreases |s| + 1 - from
  {
    match First(from, |s|, at)
    case None => []
    case Some((p, m)) =>
      var rest := FindAll(s, m.0, at);
      [(p, m.0, m.1)] + rest
  }

  /** Between two consecutive matches of `re.finditer` nothing else matches. */
  lemma {:induction false} FindAllGaps<T>(s: string, from: nat, at: nat -> Option<(nat, T)>, k: nat)
    requires forall p: nat :: at(p).Some? ==> p < at(p).value.0 <= |s|
    requires k < |FindAll(s, from, at)|
    ensures var r := FindAll(s, from, at);
      forall p | (if k == 0 then from else r[k - 1].1) <= p < r[k].0 :: at(p).None?
    decreases |s| + 1 - from
  {
    var r := FindAll(s, from, at);
    var m := First(from, |s|, at).value.1;
    if k > 0 {
      var rest := FindAll(s, m.0, at);
      FindAllGaps(s, m.0, at, k - 1);
      assert r[k] == rest[k - 1];
      assert r[0].1 == m.0;
      assert k > 1 ==> r[k - 1] == rest[k - 2];
    }
  }

  // ---------------------------------------------------------------------------
  // A row loop: one optional value per element, in order
  // ---------------------------------------------------------------------------

  /** What `f` gives the elements of `xs`, in order, skipping those it gives `None` for. */
  function Collect<T, U>(xs: seq<T>, f: T -> Option<U>): (r: seq<U>)
    ensures |r| <= |xs|
  {
    if xs == [] then []
    else
      var x := xs[|xs| - 1];
      Collect(xs[..|xs| - 1], f) + if f(x).Some? then [f(x).value] else []
  }

  /** One more element adds its value, if it has one, at the end. */
  lemma CollectSnoc<T, U>(xs: seq<T>, x: T, f: T -> Option<U>)
    ensures Collect(xs + [x], f) == Collect(xs, f) + if f(x).Some? then [f(x).value] else []
  {
    assert (xs + [x])[..|xs|] == xs;
  }

  /** `CollectSnoc` on the prefixes of one sequence, as a loop over it sees them. */
  lemma CollectStep<T, U>(xs: seq<T>, i: nat, f: T -> Option<U>)
    requires i < |xs|
    ensures Collect(xs[..i + 1], f) == Collect(xs[..i], f) + if f(xs[i]).Some? then [f(xs[i]).value] else []
  {
    assert xs[..i + 1] == xs[..i] + [xs[i]];
    CollectSnoc(xs[..i], xs[i], f);
  }

  /** A loop that appends each element's value, if it has one, to what it has so far stays `pre + Collect` of its prefix. */
  lemma CollectPush<T, U>(pre: seq<U>, acc: seq<U>, xs: seq<T>, i: nat, f: T -> Option<U>)
    requires i < |xs| && acc == pre + Collect(xs[..i], f)
    ensures (if f(xs[i]).Some? then acc + [f(xs[i]).value] else acc) == pre + Collect(xs[..i + 1], f)
  {
    CollectStep(xs, i, f);
  }

  /** When every element has a value, collecting keeps them all, one per element, in order. */
  lemma {:induction false} CollectAll<T, U>(xs: seq<T>, f: T -> Option<U>)
    requires forall k | 0 <= k < |xs| :: f(xs[k]).Some?
    ensures |Collect(xs, f)| == |xs|
    ensures forall k | 0 <= k < |xs| :: Collect(xs, f)[k] == f(xs[k]).value
  {
    if xs != [] {
      var init := xs[..|xs| - 1];
      assert forall k | 0 <= k < |init| :: init[k] == xs[k];
      CollectAll(init, f);
    }
  }

  /** Collecting keeps the order of the elements. */
  lemma {:induction false} CollectAppend<T, U>(a: seq<T>, b: seq<T>, f: T -> Option<U>)
    ensures Collect(a + b, f) == Collect(a, f) + Collect(b, f)
  {
    if b == [] {
      assert a + b == a;
    } else {
      var init, x := b[..|b| - 1], b[|b| - 1];
      assert a + b == (a + init) + [x];
      assert b == init + [x];
      CollectAppend(a, init, f);
      CollectSnoc(a + init, x, f);
      CollectSnoc(init, x, f);
    }
  }

  /** Every collected value is the value of some element. */
  lemma {:induction false} CollectFrom<T, U>(xs: seq<T>, f: T -> Option<U>, k: nat)
    requires k < |Collect(xs, f)|
    ensures exists j | 0 <= j < |xs| :: f(xs[j]) == Some(Collect(xs, f)[k])
  {
    var init, x := xs[..|xs| - 1], xs[|xs| - 1];
    if k < |Collect(init, f)| {
      CollectFrom(init, f, k);
      var j :| 0 <= j < |init| && f(init[j]) == Some(Collect(init, f)[k]);
      assert xs[j] == init[j];
    } else {
      assert f(xs[|xs| - 1]) == Some(Collect(xs, f)[k]);
    }
  }

  // ---------------------------------------------------------------------------
  // A row loop that may raise: the first exception ends it
  // ---------------------------------------------------------------------------

  /** What `f` gives the elements of `xs`, in order, or the first exception it raises. */
  function Traverse<T, U>(xs: seq<T>, f: T -> Result<U>): (r: Result<seq<U>>)
    ensures r.Ok? ==> |r.value| == |xs|
  {
    if xs == [] then Ok([])
    else
      var prev := Traverse(xs[..|xs| - 1], f);
      if prev.Err? then prev
      else
        var y := f(xs[|xs| - 1]);
        if y.Err? then Err(y.error) else Ok(prev.value + [y.value])
  }

  /** One more element: an earlier exception stays, else this element's exception or value comes next. */
  lemma TraverseSnoc<T, U>(xs: seq<T>, x: T, f: T -> Result<U>)
    ensures Traverse(xs + [x], f) ==
      if Traverse(xs, f).Err? then Traverse(xs, f)
      else if f(x).Err? then Err(f(x).error)
      else Ok(Traverse(xs, f).value + [f(x).value])
  {
    assert (xs + [x])[..|xs|] == xs;
  }

  /**
   * The loop succeeds exactly when every element does, and then gives each
   * element's value in order; otherwise it raises the exception of the first
   * element that fails.
   */
  lemma {:induction false} TraverseSpec<T, U>(xs: seq<T>, f: T -> Result<U>)
    ensures Traverse(xs, f).Ok? <==> forall k | 0 <= k < |xs| :: f(xs[k]).Ok?
    ensures Traverse(xs, f).Ok? ==> forall k | 0 <= k < |xs| :: Traverse(xs, f).value[k] == f(xs[k]).value
    ensures Traverse(xs, f).Err? ==> exists k | 0 <= k < |xs| ::
      && f(xs[k]).Err? && Traverse(xs, f).error == f(xs[k]).error
      && forall j | 0 <= j < k :: f(xs[j]).Ok?
  {
    if xs != [] {
      var init, x := xs[..|xs| - 1], xs[|xs| - 1];
      TraverseSpec(init, f);
      assert forall k | 0 <= k < |init| :: init[k] == xs[k];
      if Traverse(init, f).Err? {
        var k :| 0 <= k < |init| && f(init[k]).Err? && Traverse(init, f).error == f(init[k]).error
          && forall j | 0 <= j < k :: f(init[j]).Ok?;
        assert f(xs[k]).Err? && forall j | 0 <= j < k :: f(xs[j]).Ok?;
      } else if f(x).Err? {
        assert forall j | 0 <= j < |xs| - 1 :: f(xs[j]).Ok?;
      }
    }
  }

  /** Once a prefix raises, the whole loop raises the same exception. */
  lemma {:induction false} TraversePrefixErr<T, U>(xs: seq<T>, n: nat, f: T -> Result<U>)
    requires n <= |xs| && Traverse(xs[..n], f).Err?
    ensures Traverse(xs, f) == Traverse(xs[..n], f)
    decreases |xs| - n
  {
    if n == |xs| {
      assert xs[..n] == xs;
    } else {
      assert xs[..n + 1] == xs[..n] + [xs[n]];
      TraverseSnoc(xs[..n], xs[n], f);
      TraversePrefixErr(xs, n + 1, f);
    }
  }

  /** `TraverseSnoc` on the prefixes of one sequence, as a loop over it sees them. */
  lemma TraverseStep<T, U>(xs: seq<T>, i: nat, f: T -> Result<U>)
    requires i < |xs|
    ensures Traverse(xs[..i + 1], f) ==
      if Traverse(xs[..i], f).Err? then Traverse(xs[..i], f)
      else if f(xs[i]).Err? then Err(f(xs[i]).error)
      else Ok(Traverse(xs[..i], f).value + [f(xs[i]).value])
  {
    assert xs[..i + 1] == xs[..i] + [xs[i]];
    TraverseSnoc(xs[..i], xs[i], f);
  }
}
