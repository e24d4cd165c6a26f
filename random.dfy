/**
 * The pseudo-random generators the sampler draws from (numpy's legacy
 * `RandomState` per scene and the entropy-seeded `Generator` that draws the
 * seeds). A generator is abstracted as a deterministic stream: after seeding
 * with `seed`, its `pos`-th draw is the unit value `source(seed, pos)`. Every
 * primitive consumes exactly one unit value per element it returns.
 */
module Random {
  import opened Wrappers

  /** A double in [0, 1), as the generator's core draw yields. */
  type Unit = u: real | 0.0 <= u < 1.0

  /** The bit generator: the unit draw at a position after seeding. */
  type Source = (int, nat) -> Unit

  /** Floor of a non-negative scaled draw lies below the scale. */
  lemma ScaledBelow(n: int, u: Unit)
    requires n > 0
    ensures 0 <= (n as real * u).Floor < n
  {
    assert 0.0 <= n as real * u;
    assert n as real * u < n as real * 1.0;
  }

  /** A positive width scaled by a unit draw stays below the width. */
  function Stretch(w: real, u: Unit): (r: real)
    requires w > 0.0
    ensures 0.0 <= r < w
  {
    assert w * (1.0 - u) > 0.0;
    w * u
  }

  /** `lo + (hi - lo) * u`: the real in [lo, hi) a unit draw selects. */
  function Scale(lo: real, hi: real, u: Unit): (r: real)
    requires lo < hi
    ensures lo <= r < hi
  {
    lo + Stretch(hi - lo, u)
  }

  /** The integer in [lo, hi) a unit draw selects. */
  function ScaleInt(lo: int, hi: int, u: Unit): (r: int)
    requires lo < hi
    ensures lo <= r < hi
  {
    ScaledBelow(hi - lo, u);
    lo + ((hi - lo) as real * u).Floor
  }

  /**
   * A value view of a generator: its bit generator, its seed and how many
   * unit values have been consumed since seeding.
   */
  datatype Cursor = Cursor(source: Source, seed: int, pos: nat) {

    /** The next unit value. */
    function Peek(): Unit { source(seed, pos) }

    /** The same stream, `n` values further on. */
    function Skip(n: nat): (c: Cursor)
      ensures c.source == source && c.seed == seed && c.pos == pos + n
    {
      Cursor(source, seed, pos + n)
    }

    /** `uniform(lo, hi)`: one real in [lo, hi). */
    function Uniform(lo: real, hi: real): (r: (real, Cursor))
      requires lo < hi
      ensures lo <= r.0 < hi
      ensures r.1 == Skip(1)
    {
      (Scale(lo, hi, Peek()), Skip(1))
    }

    /** `randint(lo, hi)`: one integer in [lo, hi); the upper bound is exclusive. */
    function RandInt(lo: int, hi: int): (r: (int, Cursor))
      requires lo < hi
      ensures lo <= r.0 < hi
      ensures r.1 == Skip(1)
    {
      (ScaleInt(lo, hi, Peek()), Skip(1))
    }

    /** `choice(s)`: one element of a non-empty sequence. */
    function Choice<T>(s: seq<T>): (r: (T, Cursor))
      requires |s| > 0
      ensures r.0 in s
      ensures r.1 == Skip(1)
    {
      var (i, c) := RandInt(0, |s|);
      (s[i], c)
    }
  }

  /** `n` is at least as far along the same stream as `c`. */
  ghost predicate Extends(c: Cursor, n: Cursor)
  {
    n.source == c.source && n.seed == c.seed && n.pos >= c.pos
  }

  /** Pairwise distinct elements. */
  predicate Distinct(s: seq<int>)
  {
    forall i, j :: 0 <= i < j < |s| ==> s[i] != s[j]
  }

  /** Every element lies in [0, bound). */
  predicate Below(s: seq<int>, bound: int)
  {
    forall i :: 0 <= i < |s| ==> 0 <= s[i] < bound
  }

  /** Why a draw without replacement was refused (numpy raises ValueError). */
  datatype SampleError = NegativeSize | SampleLargerThanPopulation

  /** A stateful generator object whose draws advance it. */
  class Rng {
    const source: Source
    const seed: int
    var pos: nat

    /** `RandomState(seed)`: a generator positioned at the start of its stream. */
    constructor (source: Source, seed: int)
      ensures this.source == source && this.seed == seed && pos == 0
    {
      this.source := source;
      this.seed := seed;
      pos := 0;
    }

    /** The generator's current state as a value. */
    function View(): Cursor
      reads this
    {
      Cursor(source, seed, pos)
    }

    /** Catch up with draws a pure sampler or foreign code made from `View()`. */
    method Advance(c: Cursor)
      requires Extends(View(), c)
      modifies this
      ensures View() == c
    {
      pos := c.pos;
    }

    method Uniform(lo: real, hi: real) returns (r: real)
      requires lo < hi
      modifies this
      ensures lo <= r < hi
      ensures (r, View()) == old(View()).Uniform(lo, hi)
    {
      r := View().Uniform(lo, hi).0;
      pos := pos + 1;
    }

    method RandInt(lo: int, hi: int) returns (r: int)
      requires lo < hi
      modifies this
      ensures lo <= r < hi
      ensures (r, View()) == old(View()).RandInt(lo, hi)
    {
      r := View().RandInt(lo, hi).0;
      pos := pos + 1;
    }

    method Choice<T>(s: seq<T>) returns (r: T)
      requires |s| > 0
      modifies this
      ensures r in s
      ensures (r, View()) == old(View()).Choice(s)
    {
      r := View().Choice(s).0;
      pos := pos + 1;
    }

    /** `uniform(lo, hi, size=n)`: `n` consecutive draws in [lo, hi). */
    method UniformN(lo: real, hi: real, n: nat) returns (r: seq<real>)
      requires lo < hi
      modifies this
      ensures |r| == n
      ensures forall i :: 0 <= i < n ==> lo <= r[i] < hi
      ensures forall i :: 0 <= i < n ==> r[i] == old(View()).Skip(i).Uniform(lo, hi).0
      ensures View() == old(View()).Skip(n)
    {
      r := [];
      while |r| < n
        invariant |r| <= n
        invariant View() == old(View()).Skip(|r|)
        invariant forall i :: 0 <= i < |r| ==> r[i] == old(View()).Skip(i).Uniform(lo, hi).0
      {
        var x := Uniform(lo, hi);
        r := r + [x];
      }
    }

    /** `choice(s, size=n)`: `n` consecutive draws from `s`, with replacement. */
    method ChoiceN<T>(s: seq<T>, n: nat) returns (r: seq<T>)
      requires |s| > 0
      modifies this
      ensures |r| == n
      ensures forall i :: 0 <= i < n ==> r[i] in s
      ensures forall i :: 0 <= i < n ==> r[i] == old(View()).Skip(i).Choice(s).0
      ensures View() == old(View()).Skip(n)
    {
      r := [];
      while |r| < n
        invariant |r| <= n
        invariant View() == old(View()).Skip(|r|)
        invariant forall i :: 0 <= i < |r| ==> r[i] == old(View()).Skip(i).Choice(s).0
      {
        var x := Choice(s);
        r := r + [x];
      }
    }

    /**
     * `choice(bound, size=n, replace=False)`: `n` pairwise-distinct integers
     * in [0, bound), by Floyd's sampling followed by a Fisher-Yates shuffle.
     */
    method SampleDistinct(bound: nat, n: int) returns (r: Result<seq<int>, SampleError>)
      modifies this
      ensures n < 0 ==> r == Err(NegativeSize)
      ensures n > bound ==> r == Err(SampleLargerThanPopulation)
      ensures 0 <= n <= bound <==> r.Ok?
      ensures r.Ok? ==> |r.value| == n && Distinct(r.value) && Below(r.value, bound)
      ensures r.Err? ==> View() == old(View())
      ensures Extends(old(View()), View())
    {
      if n < 0 {
        return Err(NegativeSize);
      }
      if n > bound {
        return Err(SampleLargerThanPopulation);
      }
      var picked: seq<int> := [];
      var j := bound - n;
      while j < bound
        invariant bound - n <= j <= bound
        invariant |picked| == j - (bound - n)
        invariant Distinct(picked) && Below(picked, j)
        invariant Extends(old(View()), View())
      {
        var t := RandInt(0, j + 1);
        if t in picked {
          picked := picked + [j];
        } else {
          picked := picked + [t];
        }
        j := j + 1;
      }
      var shuffled := Shuffle(picked);
      r := Ok(shuffled);
    }

    /** Fisher-Yates: swap each position, from the last down, with an earlier-or-equal one. */
    method Shuffle(s: seq<int>) returns (r: seq<int>)
      modifies this
      ensures |r| == |s| && multiset(r) == multiset(s)
      ensures forall b :: Distinct(s) && Below(s, b) ==> Distinct(r) && Below(r, b)
      ensures Extends(old(View()), View())
    {
      r := s;
      var i := |s|;
      while i > 1
        invariant 0 <= i <= |s| && |r| == |s|
        invariant multiset(r) == multiset(s)
        invariant forall b :: Distinct(s) && Below(s, b) ==> Distinct(r) && Below(r, b)
        invariant Extends(old(View()), View())
      {
        var k := RandInt(0, i);
        var last := i - 1;
        forall b | Distinct(r) && Below(r, b)
          ensures Distinct(r[last := r[k]][k := r[last]]) && Below(r[last := r[k]][k := r[last]], b)
        {
          SwapKeeps(r, last, k, b);
        }
        r := r[last := r[k]][k := r[last]];
        i := i - 1;
      }
    }
  }

  /** Exchanging two positions keeps elements distinct and in range. */
  lemma SwapKeeps(s: seq<int>, a: nat, b: nat, bound: int)
    requires a < |s| && b < |s|
    requires Distinct(s) && Below(s, bound)
    ensures Distinct(s[a := s[b]][b := s[a]]) && Below(s[a := s[b]][b := s[a]], bound)
  {
  }
}
