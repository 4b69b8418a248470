/** The browser's `setTimeout`/`clearTimeout` facility as an abstract handle
    scheduler: every scheduled callback gets a fresh positive handle and waits
    in `pending` until it runs or is cancelled. Real time is not modelled: a
    timer records its delay, and running it is the removal of its entry. */
module Timers {
  import opened Common

  /** A scheduled callback: what it will do and after how many milliseconds. */
  datatype Timer<E> = Timer(event: E, delay: nat)

  /** Every timer of `s` is due strictly later than the one scheduled before
      it, so the callbacks run in the order they were scheduled. */
  ghost predicate InOrder<E>(s: seq<Timer<E>>)
  {
    forall i, j | 0 <= i < j < |s| :: s[i].delay < s[j].delay
  }

  /** A series whose `i`-th timer waits `i * gap` ms, for a positive gap,
      runs in order. */
  lemma {:induction false} EvenlySpaced<E>(s: seq<Timer<E>>, gap: nat)
    requires 0 < gap
    requires forall i | 0 <= i < |s| :: s[i].delay == i * gap
    ensures InOrder(s)
  {
    forall i, j | 0 <= i < j < |s|
      ensures s[i].delay < s[j].delay
    {
      LaterDelay(i, j, gap);
    }
  }

  /** A later slot of a positive gap is a later time. */
  lemma {:induction false} LaterDelay(i: nat, j: nat, gap: nat)
    requires i < j && 0 < gap
    ensures i * gap < j * gap
  {
    assert j * gap == (j - 1) * gap + gap;
    if i < j - 1 {
      LaterDelay(i, j - 1, gap);
    }
  }

  /** The entries a series of `setTimeout` calls adds when the first handle it
      receives is `start`: the i-th timer of `series` under handle `start + i`. */
  function Issue<E>(start: nat, series: seq<Timer<E>>): (m: map<nat, Timer<E>>)
    ensures forall h :: h in m <==> start <= h < start + |series|
    ensures forall i | 0 <= i < |series| :: m[start + i] == series[i]
  {
    if series == [] then map[]
    else Issue(start, series[..|series| - 1])[start + |series| - 1 := series[|series| - 1]]
  }

  /** Issuing one more timer adds exactly one entry, under the next handle. */
  lemma IssuePush<E>(start: nat, s: seq<Timer<E>>, t: Timer<E>)
    ensures Issue(start, s + [t]) == Issue(start, s)[start + |s| := t]
  {
    assert (s + [t])[..|s|] == s;
  }

  /** The same step seen from the whole pending map: issuing one more timer
      after a series is one more entry on top of everything pending before. */
  lemma PendingPush<E>(base: map<nat, Timer<E>>, start: nat, s: seq<Timer<E>>, t: Timer<E>)
    ensures (base + Issue(start, s))[start + |s| := t] == base + Issue(start, s + [t])
  {
    IssuePush(start, s, t);
    var a := (base + Issue(start, s))[start + |s| := t];
    var b := base + Issue(start, s + [t]);
    assert a.Keys == b.Keys;
    forall h | h in a
      ensures a[h] == b[h]
    {
    }
  }

  /** The step of a loop that issues `series` in order: issuing its `i`-th
      timer under the next handle extends the pending map by one prefix entry. */
  lemma PendingNext<E>(base: map<nat, Timer<E>>, start: nat, series: seq<Timer<E>>, i: nat)
    requires i < |series|
    ensures (base + Issue(start, series[..i]))[start + i := series[i]] == base + Issue(start, series[..i + 1])
  {
    assert series[..i + 1] == series[..i] + [series[i]];
    PendingPush(base, start, series[..i], series[i]);
  }

  class Scheduler<E> {
    /** The callbacks scheduled and neither run nor cancelled, by handle. */
    var pending: map<nat, Timer<E>>
    /** The handle the next `setTimeout` returns. */
    var next: nat

    ghost predicate Valid()
      reads this
    {
      0 < next && forall h | h in pending :: 0 < h < next
    }

    constructor ()
      ensures Valid()
      ensures pending == map[] && next == 1
    {
      pending := map[];
      next := 1;
    }

    /** `setTimeout(event, delay)`: the handle is positive (so truthy) and new. */
    method SetTimeout(event: E, delay: nat) returns (h: nat)
      requires Valid()
      modifies this
      ensures Valid()
      ensures h == old(next) && 0 < h && h !in old(pending)
      ensures next == old(next) + 1
      ensures pending == old(pending)[h := Timer(event, delay)]
    {
      h := next;
      pending := pending[h := Timer(event, delay)];
      next := next + 1;
    }

    /** `clearTimeout(h)`: a handle that already ran or was never issued is ignored. */
    method ClearTimeout(h: Option<nat>)
      requires Valid()
      modifies this
      ensures Valid()
      ensures next == old(next)
      ensures pending == old(pending) - HandleSet(h)
    {
      if h.Some? {
        pending := pending - {h.value};
      }
    }

    /** The timer `h` comes due: it leaves `pending` and its callback is what runs. */
    method Expire(h: nat) returns (t: Timer<E>)
      requires Valid()
      requires h in pending
      modifies this
      ensures Valid()
      ensures t == old(pending)[h]
      ensures next == old(next)
      ensures pending == old(pending) - {h}
    {
      t := pending[h];
      pending := pending - {h};
    }
  }
}
