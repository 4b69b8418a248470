/** Values and helpers shared by every entity of the engine: optional values,
    the first-in-first-out trim that turrets apply to their timer records, the
    number of rounds a `for (i = 0; i < n; i++)` loop makes when `n` is not a
    whole number, the index a `Math.floor(Math.random() * len)` draw selects,
    and the shared arrays entities append to. */
module Common {

  datatype Option<T> = None | Some(value: T)

  /** The handles an optional timer handle stands for: `clearTimeout(undefined)` cancels nothing. */
  function HandleSet(h: Option<nat>): set<nat>
  {
    if h.Some? then {h.value} else {}
  }

  /** The newest `n` entries of `s`, in their original order: what is left of a
      list after `while (list.length > n) list.shift()`. */
  function Keep<T>(s: seq<T>, n: nat): (r: seq<T>)
    ensures |r| == if |s| <= n then |s| else n
    ensures r == s[|s| - |r|..]
  {
    if |s| <= n then s else s[|s| - n..]
  }

  /** Trimming after every push leaves the same list as trimming once at the end. */
  lemma KeepPush<T>(s: seq<T>, x: T, n: nat)
    ensures Keep(Keep(s, n) + [x], n) == Keep(s + [x], n)
  {
    if |s| > n {
      var k := Keep(s, n);
      assert k + [x] == (s + [x])[|s| - n..];
      if n > 0 {
        assert (k + [x])[1..] == (s + [x])[|s| + 1 - n..];
      }
    }
  }

  /** When at least `n` entries were appended, the trim keeps only appended
      entries: the newest `n` of them, and every older entry is dropped. */
  lemma KeepOnlyNewest<T>(s: seq<T>, t: seq<T>, n: nat)
    requires n <= |t|
    ensures Keep(s + t, n) == t[|t| - n..]
    ensures forall x :: x in Keep(s + t, n) ==> x in t
  {
    assert (s + t)[|s| + |t| - n..] == t[|t| - n..];
  }

  /** The consecutive handles `start, start+1, ..., start+count-1`. */
  function Handles(start: nat, count: nat): (r: seq<nat>)
    ensures |r| == count
    ensures forall i | 0 <= i < count :: r[i] == start + i
  {
    seq(count, i => start + i)
  }

  /** One more consecutive handle. */
  lemma HandlesPush(start: nat, count: nat)
    ensures Handles(start, count + 1) == Handles(start, count) + [start + count]
  {
  }

  /** The handles a list holds, as a set. */
  function Members(s: seq<nat>): (r: set<nat>)
    ensures forall h :: h in r <==> h in s
  {
    set h | h in s
  }

  lemma MembersPush(s: seq<nat>, h: nat)
    ensures Members(s + [h]) == Members(s) + {h}
  {
  }

  /** A draw `r` of `Math.random()` scales a positive length `a` to a point below it. */
  lemma ScaleBelow(r: real, a: real)
    requires 0.0 <= r < 1.0 && 0.0 <= a
    ensures 0.0 <= r * a <= a
    ensures 0.0 < a ==> r * a < a
  {
    if 0.0 < a {
      assert (1.0 - r) * a > 0.0;
    }
  }

  /** `Math.random() * a` for the draw `r`: a point of `[0, a)`. */
  function Portion(r: real, a: real): (v: real)
    requires 0.0 <= r < 1.0 && 0.0 <= a
    ensures 0.0 <= v <= a
    ensures 0.0 < a ==> v < a
  {
    ScaleBelow(r, a);
    r * a
  }

  lemma MulNonneg(a: real, b: real)
    requires 0.0 <= a && 0.0 <= b
    ensures 0.0 <= a * b
    ensures 0.0 < a && 0.0 < b ==> 0.0 < a * b
  {
  }

  /** `scale * (Math.random() * span + low)` for the draw `r`: from `scale * low`
      up to, and when the scale and span are positive strictly below,
      `scale * (low + span)`. */
  function ScaledRange(scale: real, r: real, span: real, low: real): (v: real)
    requires 0.0 <= scale && 0.0 <= r < 1.0 && 0.0 <= span && 0.0 <= low
    ensures scale * low <= v <= scale * low + scale * span
    ensures 0.0 < scale && 0.0 < span ==> v < scale * low + scale * span
  {
    ScaledRangeBounds(scale, r, span, low);
    scale * (r * span + low)
  }

  lemma ScaledRangeBounds(scale: real, r: real, span: real, low: real)
    requires 0.0 <= scale && 0.0 <= r < 1.0 && 0.0 <= span && 0.0 <= low
    ensures scale * low <= scale * (r * span + low) <= scale * low + scale * span
    ensures 0.0 < scale && 0.0 < span ==> scale * (r * span + low) < scale * low + scale * span
  {
    var ss, sl := scale * span, scale * low;
    MulNonneg(scale, span);
    ScaleBelow(r, ss);
    assert scale * (r * span + low) == r * ss + sl;
  }

  /** How many rounds `for (let i = 0; i < n; i++)` makes: the least whole number
      not below `n` (none when `n` is not positive). */
  function Iterations(n: real): (k: nat)
    ensures n <= k as real
    ensures k > 0 ==> ((k - 1) as real) < n
    ensures n <= 0.0 <==> k == 0
  {
    if n <= 0.0 then 0
    else if n.Floor as real == n then n.Floor
    else n.Floor + 1
  }

  /** The trim `while (list.length > n)` stops at the whole part of `n`, so a
      series of `Iterations(n)` pushes keeps one handle fewer exactly when `n`
      is fractional. */
  lemma IterationsAgainstFloor(n: real)
    requires n > 0.0
    ensures n.Floor >= 0
    ensures Iterations(n) == n.Floor || Iterations(n) == n.Floor + 1
    ensures Iterations(n) == n.Floor + 1 <==> n.Floor as real != n
  {
  }

  /** `Math.floor(r * len)` for a draw `r` of `Math.random()`. */
  function PickIndex(r: real, len: nat): (k: nat)
    requires 0.0 <= r < 1.0
    requires len > 0
    ensures k < len
    ensures k as real <= r * len as real < (k + 1) as real
  {
    assert 0.0 <= r * len as real < len as real by {
      assert r * len as real < 1.0 * len as real;
    }
    (r * len as real).Floor
  }

  /** An array that several entities append to (the engine's shared
      projectile collections): `items` is its content. */
  class SharedList<T> {
    var items: seq<T>

    constructor ()
      ensures items == []
    {
      items := [];
    }

    method Push(x: T)
      modifies this
      ensures items == old(items) + [x]
    {
      items := items + [x];
    }

    /** Empty the array, for every entity that holds it. */
    method Clear()
      modifies this
      ensures items == []
    {
      items := [];
    }
  }
}
