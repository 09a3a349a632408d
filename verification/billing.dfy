/** Billed time as a step function of lifetime, its next step, the termination window before it, and the accounting of
    paid and useful time. Durations and instants are whole milliseconds. */
module Billing {
  import opened Basics

  datatype Policy = Policy(increment: int, minimum: int, buffer: int)

  const FLOOR_MS: int := 5000

  function Max(a: int, b: int): int {
    if a < b then b else a
  }

  /** The increments a lifetime is charged for: whole ones, and at least one. */
  function Units(lifetime: nat, increment: int): nat
    requires increment > 0
  {
    lifetime / increment + if lifetime == 0 || lifetime % increment != 0 then 1 else 0
  }

  function Paid(lifetime: int, p: Policy): int {
    var lived := Max(lifetime, 0);
    Max(p.minimum, if p.increment > 0 then Units(lived, p.increment) * p.increment else lived)
  }

  // ---- What is paid ----

  lemma UnitsIn(k: nat, x: nat, increment: int)
    requires increment > 0 && k * increment < x <= (k + 1) * increment
    ensures Units(x, increment) == k + 1
  {
    MulStep(k, k, increment);
    MulStep(k + 1, k + 1, increment);
    if x == (k + 1) * increment {
      Quotient(x, increment, k + 1);
    } else {
      Quotient(x, increment, k);
    }
  }

  lemma Quotient(x: nat, increment: int, q: nat)
    requires increment > 0 && q * increment <= x < (q + 1) * increment
    ensures x / increment == q && x % increment == x - q * increment
  {
    var p, r := x / increment, x % increment;
    assert x == p * increment + r;
    MulStep(p, p, increment);
    if p < q { MulStep(p + 1, q, increment); }
    if p > q { MulStep(q + 1, p, increment); }
  }

  lemma MulStep(a: int, b: int, increment: int)
    requires a <= b && increment > 0
    ensures a * increment <= b * increment
    ensures (a + 1) * increment == a * increment + increment
  {
  }

  lemma {:induction false} UnitsLeast(x: nat, increment: int, n: nat)
    requires increment > 0
    ensures Units(x, increment) >= 1 && Units(x, increment) * increment >= x
    ensures n >= 1 && n * increment >= x ==> Units(x, increment) <= n
  {
    var q, r := x / increment, x % increment;
    assert x == q * increment + r;
    MulStep(q, q, increment);
    if n >= 1 && n * increment >= x && n < Units(x, increment) {
      if r > 0 { MulStep(n, q, increment); } else if x > 0 { MulStep(n + 1, q, increment); MulStep(n, n, increment); }
    }
  }

  /** The least amount that covers the lifetime and the minimum with a positive whole number of increments. */
  lemma PaidIsLeast(lifetime: int, p: Policy, n: nat)
    ensures Paid(lifetime, p) >= p.minimum && Paid(lifetime, p) >= Max(lifetime, 0)
    ensures p.increment > 0 && n >= 1 && n * p.increment >= Max(lifetime, 0) ==> Paid(lifetime, p) <= Max(p.minimum, n * p.increment)
    ensures p.increment <= 0 ==> Paid(lifetime, p) == Max(p.minimum, Max(lifetime, 0))
    ensures p.increment > 0 && Paid(lifetime, p) > p.minimum ==> exists m: nat :: m >= 1 && Paid(lifetime, p) == m * p.increment
  {
    if p.increment > 0 {
      var lived: nat := Max(lifetime, 0);
      var units := Units(lived, p.increment);
      UnitsLeast(lived, p.increment, n);
      if n >= 1 && n * p.increment >= lived { MulStep(units, n, p.increment); }
    }
  }

  /** Living longer never costs less. */
  lemma PaidGrows(a: int, b: int, p: Policy)
    requires a <= b
    ensures Paid(a, p) <= Paid(b, p)
  {
    if p.increment > 0 {
      var x: nat, y: nat := Max(a, 0), Max(b, 0);
      UnitsLeast(y, p.increment, 1);
      UnitsLeast(x, p.increment, Units(y, p.increment));
      MulStep(Units(x, p.increment), Units(y, p.increment), p.increment);
    }
  }

  // ---- Where it rises ----

  /** The amount paid rises right after this much lifetime. */
  predicate Rises(t: nat, p: Policy) {
    Paid(t + 1, p) > Paid(t, p)
  }

  /** Under an increment it rises at the multiples of it that reach past the minimum, and nowhere else. */
  lemma RisesAtMultiples(k: nat, t: nat, p: Policy)
    requires p.increment > 0 && k * p.increment <= t < (k + 1) * p.increment
    ensures Rises(t, p) <==> k >= 1 && t == k * p.increment && (k + 1) * p.increment > p.minimum
    ensures Paid(t + 1, p) == Max(p.minimum, (k + 1) * p.increment)
  {
    UnitsIn(k, t + 1, p.increment);
    MulStep(k, k, p.increment);
    if t == k * p.increment {
      if k >= 1 {
        MulStep(k - 1, k, p.increment);
        UnitsIn(k - 1, t, p.increment);
      }
    } else {
      UnitsIn(k, t, p.increment);
    }
  }

  /** The test the search makes: it looks one millisecond to both sides. */
  lemma JumpIsRise(k: nat, p: Policy)
    requires p.increment > 0 && k >= 1
    ensures var t := k * p.increment; t >= 1 && (Paid(t + 1, p) > Paid(t - 1, p) <==> Rises(t, p))
  {
    var t := k * p.increment;
    MulStep(1, k, p.increment);
    MulStep(k, k, p.increment);
    MulStep(k - 1, k, p.increment);
    RisesAtMultiples(k, t, p);
    if p.increment == 1 {
      if k >= 2 { UnitsIn(k - 2, t - 1, 1); }
      UnitsIn(k - 1, t, 1);
    } else {
      UnitsIn(k - 1, t - 1, p.increment);
      UnitsIn(k - 1, t, p.increment);
    }
  }

  function Elapsed(created: int, now: int): nat {
    Max(now - created, 0)
  }

  /** t is the first lifetime after the elapsed one at which the amount rises. */
  ghost predicate NextRise(elapsed: nat, t: nat, p: Policy) {
    elapsed < t && Rises(t, p) && forall x: nat | elapsed < x < t :: !Rises(x, p)
  }

  /** The next instant strictly after now at which the amount paid rises. There is none exactly when there is no increment
      and the minimum is used up. */
  method NextBoundary(created: int, p: Policy, now: int) returns (boundary: int, ok: bool)
    ensures ok <==> p.increment > 0 || Elapsed(created, now) < p.minimum
    ensures ok ==> boundary > created && NextRise(Elapsed(created, now), boundary - created, p)
  {
    hide Paid, Rises, Units, Elapsed;
    var elapsed := Elapsed(created, now);
    if p.increment > 0 {
      NoRiseBefore(elapsed, p);
      var k := elapsed / p.increment + 1;
      var t := k * p.increment;
      while true
        invariant k >= 1 && t == k * p.increment && t > elapsed
        invariant forall x: nat | elapsed < x < t :: !Rises(x, p)
        decreases p.minimum + p.increment - t
      {
        JumpIsRise(k, p);
        if t > p.minimum + p.increment { FallbackComesLate(k, p); }
        if Paid(t + 1, p) > Paid(t - 1, p) || t > p.minimum + p.increment {
          return created + t, true;
        }
        StillFlat(k, p);
        k := k + 1;
        t := k * p.increment;
      }
    }
    if p.minimum > 0 && elapsed < p.minimum {
      RisesAfterMinimum(elapsed, p);
      return created + p.minimum, true;
    }
    return 0, false;
  }

  lemma RisesAfterMinimum(elapsed: nat, p: Policy)
    requires p.increment <= 0 && elapsed < p.minimum
    ensures NextRise(elapsed, p.minimum, p)
  {
  }

  lemma NoRiseBefore(elapsed: nat, p: Policy)
    requires p.increment > 0
    ensures var k := elapsed / p.increment + 1;
            k * p.increment > elapsed && forall x: nat | elapsed < x < k * p.increment :: !Rises(x, p)
  {
    var q := elapsed / p.increment;
    assert elapsed == q * p.increment + elapsed % p.increment;
    MulStep(q, q, p.increment);
    forall x: nat | elapsed < x < (q + 1) * p.increment
      ensures !Rises(x, p)
    {
      RisesAtMultiples(q, x, p);
    }
  }

  /** The bail-out of the search is never taken before a real rise. */
  lemma FallbackComesLate(k: nat, p: Policy)
    requires p.increment > 0 && k >= 1 && k * p.increment > p.minimum + p.increment
    ensures Rises(k * p.increment, p)
  {
    MulStep(k, k, p.increment);
    RisesAtMultiples(k, k * p.increment, p);
  }

  lemma StillFlat(k: nat, p: Policy)
    requires p.increment > 0 && k >= 1 && !Rises(k * p.increment, p)
    ensures (k + 1) * p.increment == k * p.increment + p.increment <= p.minimum && k * p.increment >= 0
    ensures forall x: nat | k * p.increment <= x < (k + 1) * p.increment :: !Rises(x, p)
  {
    MulStep(k, k, p.increment);
    RisesAtMultiples(k, k * p.increment, p);
    forall x: nat | k * p.increment <= x < (k + 1) * p.increment
      ensures !Rises(x, p)
    {
      RisesAtMultiples(k, x, p);
    }
  }

  /** The rises of a policy with an increment are at least an increment apart. */
  lemma RisesApart(a: nat, b: nat, p: Policy)
    requires a < b && Rises(a, p) && Rises(b, p) && (p.increment > 0 || a < p.minimum)
    ensures p.increment > 0 && b - a >= p.increment
  {
    hide Paid;
    if p.increment > 0 {
      var k := RiseIndex(a, p);
      var q := RiseIndex(b, p);
      if q <= k { MulStep(q, k, p.increment); } else { MulStep(k + 1, q, p.increment); MulStep(k, k, p.increment); }
    } else {
      FlatUnderMinimum(a, p);
    }
  }

  lemma FlatUnderMinimum(t: nat, p: Policy)
    requires p.increment <= 0 && t < p.minimum
    ensures !Rises(t, p)
  {
  }

  lemma RiseIndex(t: nat, p: Policy) returns (k: nat)
    requires p.increment > 0 && Rises(t, p)
    ensures t == k * p.increment
  {
    k := t / p.increment;
    assert t == k * p.increment + t % p.increment;
    MulStep(k, k, p.increment);
    RisesAtMultiples(k, t, p);
  }

  /** Between two lifetimes with no rise the amount stays. */
  lemma {:induction false} FlatBetween(a: nat, b: nat, p: Policy)
    requires a <= b && forall x: nat | a <= x < b :: !Rises(x, p)
    ensures Paid(a, p) == Paid(b, p)
    decreases b
  {
    if a < b {
      FlatBetween(a, b - 1, p);
      PaidGrows(b - 1, b, p);
      assert !Rises(b - 1, p);
    }
  }

  // ---- The termination window ----

  /** The kernel floor under a policy's termination buffer. */
  function EffectiveBuffer(p: Policy, interval: nat): (buffer: int)
    ensures buffer >= p.buffer && buffer >= 2 * interval + FLOOR_MS && (buffer == p.buffer || buffer == 2 * interval + FLOOR_MS)
  {
    Max(p.buffer, 2 * interval + FLOOR_MS)
  }

  datatype Decision = Keep | Terminate | Crossed

  datatype Window = Window(boundary: int, start: int, cutoff: int) {
    function Decide(now: int): Decision {
      if now < start then Keep else if now <= cutoff then Terminate else Crossed
    }
  }

  /** The window before a boundary. */
  function WindowAt(boundary: int, buffer: int, cutoff: int): Window {
    Window(boundary, boundary - buffer, boundary - if cutoff <= 0 || cutoff > buffer then buffer / 2 else cutoff)
  }

  method TerminationWindow(created: int, p: Policy, now: int, buffer: int, cutoff: int) returns (w: Window, ok: bool)
    requires buffer >= 0
    ensures ok <==> p.increment > 0 || Elapsed(created, now) < p.minimum
    ensures ok ==> w.boundary > created && NextRise(Elapsed(created, now), w.boundary - created, p)
    ensures ok ==> w == WindowAt(w.boundary, buffer, cutoff) && w.start <= w.cutoff <= w.boundary
    ensures ok ==> w.boundary - w.start == buffer
    ensures ok && 0 < cutoff <= buffer ==> w.boundary - w.cutoff == cutoff
    ensures ok && !(0 < cutoff <= buffer) ==> buffer - 1 <= 2 * (w.boundary - w.cutoff) <= buffer
  {
    var b, found := NextBoundary(created, p, now);
    if !found {
      return Window(0, 0, 0), false;
    }
    var late := cutoff;
    if late <= 0 || late > buffer {
      late := buffer / 2;
    }
    w, ok := Window(b, b - buffer, b - late), true;
  }

  lemma NextRiseUnique(elapsed: nat, t: nat, t': nat, p: Policy)
    requires NextRise(elapsed, t, p) && NextRise(elapsed, t', p)
    ensures t == t'
  {
    hide Rises;
  }

  /** A delete confirmed before the boundary of its window costs what terminating at once would have, unless the amount was
      just about to rise at the decision itself. */
  lemma ConfirmedBeforeBoundary(created: int, p: Policy, now: int, boundary: int, confirmed: int)
    requires boundary > created && NextRise(Elapsed(created, now), boundary - created, p) && now <= confirmed <= boundary
    ensures Paid(confirmed - created, p) == Paid(now - created, p)
            <==> Elapsed(created, confirmed) == Elapsed(created, now) || !Rises(Elapsed(created, now), p)
  {
    var a, b := Elapsed(created, now), Elapsed(created, confirmed);
    assert Paid(now - created, p) == Paid(a, p) && Paid(confirmed - created, p) == Paid(b, p);
    hide Paid, Elapsed;
    if a < b {
      FlatBetween(a + 1, b, p);
      RisesSays(a, p);
    }
  }

  lemma RisesSays(t: nat, p: Policy)
    ensures Rises(t, p) <==> Paid(t + 1, p) != Paid(t, p)
  {
    PaidGrows(t, t + 1, p);
  }

  lemma NoRiseAtBirth(p: Policy)
    requires p.increment > 0 || p.minimum > 0
    ensures !Rises(0, p)
  {
    if p.increment > 0 { RisesAtMultiples(0, 0, p); }
  }

  /** A terminate decision is free: with a buffer under the increment, a delete confirmed within the cutoff after the
      decision never starts another increment. */
  lemma TerminateIsFree(created: int, p: Policy, now: int, w: Window, buffer: int, cutoff: int, confirmed: int)
    requires buffer >= 0 && w == WindowAt(w.boundary, buffer, cutoff) && w.Decide(now).Terminate?
    requires w.boundary > created && NextRise(Elapsed(created, now), w.boundary - created, p)
    requires p.increment > 0 ==> buffer < p.increment
    requires p.increment > 0 || Elapsed(created, now) < p.minimum
    requires now <= confirmed <= now + (w.boundary - w.cutoff)
    ensures Paid(confirmed - created, p) == Paid(now - created, p)
  {
    var elapsed := Elapsed(created, now);
    if Rises(elapsed, p) {
      if elapsed == 0 { NoRiseAtBirth(p); }
      RisesApart(elapsed, w.boundary - created, p);
    }
    ConfirmedBeforeBoundary(created, p, now, w.boundary, confirmed);
  }

  /** Consecutive sweeps are at most an interval apart. */
  predicate Periodic(ticks: seq<int>, interval: nat) {
    forall i | 0 < i < |ticks| :: ticks[i - 1] <= ticks[i] <= ticks[i - 1] + interval
  }

  /** The sweep runs from before the end of the window until after its start. */
  predicate Spans(ticks: seq<int>, start: int, cutoff: int) {
    |ticks| > 0 && ticks[0] <= cutoff && ticks[|ticks| - 1] >= start
  }

  ghost predicate Hits(ticks: seq<int>, start: int, cutoff: int) {
    exists i :: 0 <= i < |ticks| && start <= ticks[i] <= cutoff
  }

  lemma {:induction false} WideWindowHit(ticks: seq<int>, interval: nat, start: int, cutoff: int)
    requires Periodic(ticks, interval) && Spans(ticks, start, cutoff) && start <= cutoff && cutoff - start + 1 >= interval
    ensures Hits(ticks, start, cutoff)
  {
    if ticks[0] >= start {
      assert start <= ticks[0] <= cutoff;
    } else {
      var rest := ticks[1..];
      assert ticks[1] <= ticks[0] + interval;
      WideWindowHit(rest, interval, start, cutoff);
      var i :| 0 <= i < |rest| && start <= rest[i] <= cutoff;
      assert ticks[i + 1] == rest[i];
    }
  }

  /** A window is hit by every periodic sweep exactly when it is at least an interval wide. */
  lemma WindowHitIff(interval: nat, start: int, cutoff: int)
    requires start <= cutoff
    ensures cutoff - start + 1 >= interval
            <==> forall ticks | Periodic(ticks, interval) && Spans(ticks, start, cutoff) :: Hits(ticks, start, cutoff)
  {
    if cutoff - start + 1 >= interval {
      forall ticks | Periodic(ticks, interval) && Spans(ticks, start, cutoff)
        ensures Hits(ticks, start, cutoff)
      {
        WideWindowHit(ticks, interval, start, cutoff);
      }
    } else {
      var ticks := [start - 1, start - 1 + interval];
      assert Periodic(ticks, interval) && Spans(ticks, start, cutoff);
    }
  }

  /** A buffer of at most an increment leaves no earlier rise inside the window. */
  lemma BufferUnderIncrement(p: Policy, buffer: int, b: nat)
    requires 0 <= buffer <= p.increment && Rises(b, p)
    ensures forall x: nat | b - buffer < x < b :: !Rises(x, p)
  {
    hide Rises;
    forall x: nat | b - buffer < x < b
      ensures !Rises(x, p)
    {
      if Rises(x, p) { RisesApart(x, b, p); }
    }
  }

  /** A boundary the window can be aimed at: a rise with a buffer of at most an increment before it, or the end of the
      minimum when there is no increment. Under two milliseconds of buffer the cutoff would be the boundary itself; the
      kernel floor is far above that. */
  ghost predicate Aimed(created: int, p: Policy, boundary: int, buffer: int) {
    && boundary > created && Rises(boundary - created, p) && buffer >= 2
    && (if p.increment > 0 then buffer <= p.increment else boundary - created == p.minimum)
  }

  /** Some tick falls between start and cutoff, targets this boundary and decides to terminate. */
  ghost predicate Decided(created: int, p: Policy, w: Window, ticks: seq<int>) {
    exists i :: 0 <= i < |ticks| && w.Decide(ticks[i]).Terminate?
                && w.boundary > created && NextRise(Elapsed(created, ticks[i]), w.boundary - created, p)
  }

  /** Every tick inside the window targets its boundary, so the sweep decides exactly when it hits the window. */
  lemma DecidedIsHit(created: int, p: Policy, boundary: int, buffer: int, cutoff: int, ticks: seq<int>)
    requires Aimed(created, p, boundary, buffer)
    ensures var w := WindowAt(boundary, buffer, cutoff); Decided(created, p, w, ticks) <==> Hits(ticks, w.start, w.cutoff)
  {
    var w, b := WindowAt(boundary, buffer, cutoff), boundary - created;
    if p.increment > 0 { BufferUnderIncrement(p, buffer, b); } else { FlatUntilMinimum(p); }
    hide Rises;
    if Hits(ticks, w.start, w.cutoff) {
      var i :| 0 <= i < |ticks| && w.start <= ticks[i] <= w.cutoff;
      TickTargets(created, p, w, buffer, ticks[i]);
      assert w.Decide(ticks[i]).Terminate?;
    }
  }

  lemma FlatUntilMinimum(p: Policy)
    requires p.increment <= 0
    ensures forall x: nat | x < p.minimum :: !Rises(x, p)
  {
  }

  lemma TickTargets(created: int, p: Policy, w: Window, buffer: int, tick: int)
    requires w.boundary > created && Rises(w.boundary - created, p) && w.start == w.boundary - buffer
    requires w.start <= tick <= w.cutoff < w.boundary
    requires forall x: nat | w.boundary - created - buffer < x < w.boundary - created :: !Rises(x, p)
    ensures NextRise(Elapsed(created, tick), w.boundary - created, p)
  {
    hide Rises;
  }

  predicate Wide(w: Window, interval: nat) {
    w.cutoff - w.start + 1 >= interval
  }

  /** A periodic sweep cannot miss the window exactly when the window is at least an interval wide: for any buffer and any
      cutoff, every such sweep decides to terminate for this boundary, or some such sweep never does. */
  lemma SweepCannotMissIff(created: int, p: Policy, interval: nat, boundary: int, buffer: int, cutoff: int)
    requires Aimed(created, p, boundary, buffer)
    ensures var w := WindowAt(boundary, buffer, cutoff);
            Wide(w, interval)
            <==> forall ticks | Periodic(ticks, interval) && Spans(ticks, w.start, w.cutoff) :: Decided(created, p, w, ticks)
  {
    var w := WindowAt(boundary, buffer, cutoff);
    WindowHitIff(interval, w.start, w.cutoff);
    forall ticks: seq<int>
      ensures Decided(created, p, w, ticks) <==> Hits(ticks, w.start, w.cutoff)
    {
      DecidedIsHit(created, p, boundary, buffer, cutoff, ticks);
    }
  }

  /** The kernel floor makes every window wide enough, under any learned buffer and any cutoff in the buffer's later half. */
  lemma SweepCannotMiss(created: int, p: Policy, interval: nat, boundary: int, buffer: int, cutoff: int, ticks: seq<int>)
    requires Aimed(created, p, boundary, buffer)
    requires buffer >= 2 * interval + FLOOR_MS && (cutoff <= buffer / 2 || cutoff > buffer)
    requires var w := WindowAt(boundary, buffer, cutoff); Periodic(ticks, interval) && Spans(ticks, w.start, w.cutoff)
    ensures Decided(created, p, WindowAt(boundary, buffer, cutoff), ticks)
  {
    SweepCannotMissIff(created, p, interval, boundary, buffer, cutoff);
  }

  // ---- The adaptive buffer ----

  /** The observations above x. */
  function Above(s: seq<int>, x: int): nat {
    if |s| == 0 then 0 else Above(s[..|s| - 1], x) + if s[|s| - 1] > x then 1 else 0
  }

  lemma {:induction false} AboveInsert(s: seq<int>, i: nat, v: int, x: int)
    requires i <= |s|
    ensures Above(s[..i] + [v] + s[i..], x) == Above(s, x) + if v > x then 1 else 0
  {
    var t := s[..i] + [v] + s[i..];
    if i == |s| {
      assert t[..|t| - 1] == s;
    } else {
      var u := s[..|s| - 1];
      AboveInsert(u, i, v, x);
      assert t[..|t| - 1] == u[..i] + [v] + u[i..];
    }
  }

  lemma {:induction false} AboveSorted(s: seq<int>, k: nat)
    requires k < |s| && forall i, j | 0 <= i <= j < |s| :: s[i] <= s[j]
    ensures Above(s, s[k]) <= |s| - 1 - k
  {
    var u := s[..|s| - 1];
    if k < |u| {
      assert u[k] == s[k];
      AboveSorted(u, k);
    } else {
      NoneAbove(s, s[k]);
    }
  }

  lemma {:induction false} NoneAbove(s: seq<int>, x: int)
    requires forall i | 0 <= i < |s| :: s[i] <= x
    ensures Above(s, x) == 0
  {
    if |s| > 0 { NoneAbove(s[..|s| - 1], x); }
  }

  lemma {:induction false} AboveFalls(s: seq<int>, x: int, y: int)
    requires x <= y
    ensures Above(s, y) <= Above(s, x)
  {
    if |s| > 0 { AboveFalls(s[..|s| - 1], x, y); }
  }

  method Sort(s: seq<int>) returns (out: seq<int>)
    ensures |out| == |s| && forall i, j | 0 <= i <= j < |out| :: out[i] <= out[j]
    ensures forall x :: Above(out, x) == Above(s, x)
  {
    out := [];
    for n := 0 to |s|
      invariant |out| == n && forall i, j | 0 <= i <= j < |out| :: out[i] <= out[j]
      invariant forall x :: Above(out, x) == Above(s[..n], x)
    {
      var i := n;
      while i > 0 && out[i - 1] > s[n]
        invariant i <= n && forall j | i <= j < n :: out[j] > s[n]
      {
        i := i - 1;
      }
      assert s[..n + 1][..n] == s[..n];
      forall x
        ensures Above(out[..i] + [s[n]] + out[i..], x) == Above(s[..n + 1], x)
      {
        AboveInsert(out, i, s[n], x);
      }
      out := out[..i] + [s[n]] + out[i..];
    }
    assert s[..|s|] == s;
  }

  /** The buffer learned from observed delete durations: never under its floor, never over its cap, and unless the cap
      cuts it short all but one in twenty of the observed deletes fit into it with the margin to spare. */
  method AdaptiveBuffer(observed: seq<int>, floor: int, margin: int, cap: int) returns (buffer: int)
    ensures cap > 0 ==> buffer <= cap
    ensures buffer >= floor || (cap > 0 && buffer == cap)
    ensures (cap > 0 && buffer == cap) || 20 * Above(observed, buffer - margin) <= |observed|
    ensures buffer == floor || (cap > 0 && buffer == cap) || exists x :: x + margin == buffer && x in observed
  {
    buffer := floor;
    if |observed| > 0 {
      var s := Sort(observed);
      var p95 := s[(|s| * 95) / 100];
      AboveSorted(s, (|s| * 95) / 100);
      if p95 + margin > buffer {
        buffer := p95 + margin;
      }
      AboveFalls(observed, p95, buffer - margin);
      SortedIn(s, observed, (|s| * 95) / 100);
    }
    if cap > 0 && buffer > cap {
      return cap;
    }
  }

  lemma {:induction false} AboveOne(s: seq<int>, x: int)
    ensures x in s <==> Above(s, x - 1) > Above(s, x)
  {
    if |s| > 0 {
      AboveOne(s[..|s| - 1], x);
      AboveFalls(s[..|s| - 1], x - 1, x);
      assert s == s[..|s| - 1] + [s[|s| - 1]];
    }
  }

  lemma SortedIn(sorted: seq<int>, s: seq<int>, k: nat)
    requires k < |sorted| && forall x :: Above(sorted, x) == Above(s, x)
    ensures sorted[k] in s
  {
    AboveOne(sorted, sorted[k]);
    AboveOne(s, sorted[k]);
  }

  // ---- Useful time ----

  /** A lease span; end 0 means still open. */
  datatype Interval = Interval(start: int, end: int)

  function Clipped(iv: Interval, now: int): Interval {
    if iv.end == 0 || iv.end > now then Interval(iv.start, now) else iv
  }

  function Range(a: int, b: int): set<int>
    decreases b - a
  {
    if a < b then Range(a, b - 1) + {b - 1} else {}
  }

  lemma {:induction false} RangeHas(a: int, b: int, t: int)
    ensures t in Range(a, b) <==> a <= t < b
    decreases b - a
  {
    if a < b { RangeHas(a, b - 1, t); }
  }

  lemma {:induction false} RangeSize(a: int, b: int)
    requires a <= b
    ensures |Range(a, b)| == b - a
    decreases b - a
  {
    if a < b {
      RangeSize(a, b - 1);
      RangeHas(a, b - 1, b - 1);
    }
  }

  lemma RangesJoin(a: int, b: int, c: int, d: int)
    requires a <= c <= b && c <= d
    ensures Range(a, b) + Range(c, d) == Range(a, Max(b, d))
  {
    forall t
      ensures t in Range(a, b) + Range(c, d) <==> t in Range(a, Max(b, d))
    {
      RangeHas(a, b, t);
      RangeHas(c, d, t);
      RangeHas(a, Max(b, d), t);
    }
  }

  /** Closed time before a run, counted together with it. */
  lemma RunApart(closed: set<int>, from: int, to: int)
    requires from <= to && forall t <- closed :: t < from
    ensures |closed + Range(from, to)| == |closed| + (to - from)
    ensures forall t <- closed + Range(from, to) :: t < to || t < from
  {
    RangeSize(from, to);
    forall t | t in closed + Range(from, to)
      ensures (t in closed ==> t !in Range(from, to)) && (t < to || t < from)
    {
      RangeHas(from, to, t);
    }
    assert closed !! Range(from, to);
  }

  function Union(s: seq<Interval>): set<int> {
    if |s| == 0 then {} else Union(s[..|s| - 1]) + Range(s[|s| - 1].start, s[|s| - 1].end)
  }

  function Cut(spans: seq<Interval>, now: int): seq<Interval> {
    seq(|spans|, i requires 0 <= i < |spans| => Clipped(spans[i], now))
  }

  /** The milliseconds in which some lease was held. */
  function Busy(spans: seq<Interval>, now: int): set<int> {
    Union(Cut(spans, now))
  }

  predicate Covers(iv: Interval, t: int) {
    iv.start <= t < iv.end
  }

  lemma {:induction false} UnionAt(s: seq<Interval>, t: int)
    ensures t in Union(s) <==> exists iv :: iv in s && Covers(iv, t)
  {
    if |s| > 0 {
      var rest, last := s[..|s| - 1], s[|s| - 1];
      UnionAt(rest, t);
      RangeHas(last.start, last.end, t);
      assert s == rest + [last];
      if iv :| iv in rest && Covers(iv, t) { assert iv in s && Covers(iv, t); }
      if Covers(last, t) { assert last in s && Covers(last, t); }
    }
  }

  /** Which spans there are decides, not their order. */
  lemma UnionOf(s: seq<Interval>, s': seq<Interval>)
    requires forall iv :: iv in s <==> iv in s'
    ensures Union(s) == Union(s')
  {
    forall t
      ensures t in Union(s) <==> t in Union(s')
    {
      UnionAt(s, t);
      UnionAt(s', t);
    }
  }

  /** Spans that end no earlier than they start, once the open ones are cut at now. */
  predicate Upright(spans: seq<Interval>, now: int) {
    AllUpright(Cut(spans, now))
  }

  predicate AllUpright(s: seq<Interval>) {
    forall iv <- s :: iv.start <= iv.end
  }

  ghost predicate ByStart(s: seq<Interval>) {
    forall i, j | 0 <= i <= j < |s| :: s[i].start <= s[j].start
  }

  method InsertSpan(s: seq<Interval>, iv: Interval) returns (out: seq<Interval>)
    requires ByStart(s)
    ensures |out| == |s| + 1 && ByStart(out) && forall x :: x in out <==> x in s || x == iv
  {
    var i := |s|;
    while i > 0 && s[i - 1].start > iv.start
      invariant 0 <= i <= |s| && forall j | i <= j < |s| :: s[j].start > iv.start
    {
      i := i - 1;
    }
    out := s[..i] + [iv] + s[i..];
    SpanInserted(s, i, iv);
  }

  lemma SpanInserted(s: seq<Interval>, i: nat, iv: Interval)
    requires i <= |s|
    ensures var out := s[..i] + [iv] + s[i..];
            && (forall x :: x in out <==> x in s || x == iv)
            && forall j | 0 <= j < |out| :: out[j] == if j < i then s[j] else if j == i then iv else s[j - 1]
  {
    assert s == s[..i] + s[i..];
  }

  method SortSpans(spans: seq<Interval>) returns (s: seq<Interval>)
    ensures |s| == |spans| && ByStart(s) && forall iv :: iv in s <==> iv in spans
  {
    s := [];
    for n := 0 to |spans|
      invariant |s| == n && ByStart(s) && forall iv :: iv in s <==> iv in spans[..n]
    {
      assert spans[..n + 1] == spans[..n] + [spans[n]];
      s := InsertSpan(s, spans[n]);
    }
    assert spans[..|spans|] == spans;
  }

  /** The sweep's picture after some sorted spans: closed time before the current run, and the run itself. */
  predicate Merged(s: seq<Interval>, closed: set<int>, from: int, to: int) {
    from <= to && Union(s) == closed + Range(from, to) && forall t <- closed :: t < from
  }

  lemma MergeNext(s: seq<Interval>, n: nat, closed: set<int>, from: int, to: int)
    requires n < |s| && Merged(s[..n], closed, from, to) && from <= s[n].start <= s[n].end
    ensures s[n].start > to ==> Merged(s[..n + 1], closed + Range(from, to), s[n].start, s[n].end)
                                && |closed + Range(from, to)| == |closed| + (to - from)
    ensures s[n].start <= to ==> Merged(s[..n + 1], closed, from, Max(to, s[n].end))
  {
    hide Range;
    assert s[..n + 1][..n] == s[..n];
    if s[n].start > to {
      RunApart(closed, from, to);
    } else {
      RangesJoin(from, to, s[n].start, s[n].end);
    }
  }

  lemma MergeFirst(s: seq<Interval>)
    requires |s| > 0 && s[0].start <= s[0].end
    ensures Merged(s[..1], {}, s[0].start, s[0].end)
  {
    assert s[..1] == [s[0]] && s[..1][..0] == [];
    assert Union([]) == {};
  }

  lemma MergedSize(s: seq<Interval>, closed: set<int>, from: int, to: int)
    requires Merged(s[..|s|], closed, from, to)
    ensures |Union(s)| == |closed| + (to - from)
  {
    assert s[..|s|] == s;
    RunApart(closed, from, to);
  }

  /** The sweep over spans sorted by their start. */
  method MergeSpans(s: seq<Interval>) returns (total: int)
    requires |s| > 0 && ByStart(s)
    ensures AllUpright(s) ==> total == |Union(s)|
  {
    hide Range, Union, Merged;
    var curStart, curEnd := s[0].start, s[0].end;
    ghost var upright, closed: set<int> := AllUpright(s), {};
    total := 0;
    if upright { MergeFirst(s); }
    for n := 1 to |s|
      invariant upright ==> Merged(s[..n], closed, curStart, curEnd) && total == |closed|
      invariant curStart <= s[n - 1].start
    {
      if upright { MergeNext(s, n, closed, curStart, curEnd); }
      var iv := s[n];
      if iv.start > curEnd {
        total := total + (curEnd - curStart);
        closed := closed + Range(curStart, curEnd);
        curStart, curEnd := iv.start, iv.end;
      } else if iv.end > curEnd {
        curEnd := iv.end;
      }
    }
    if upright { MergedSize(s, closed, curStart, curEnd); }
    total := total + (curEnd - curStart);
  }

  /** The time covered by the leases, overlaps counted once: exactly the busy milliseconds when no span is inverted. */
  method UsefulMillis(spans: seq<Interval>, now: int) returns (total: int)
    ensures total >= 0
    ensures Upright(spans, now) ==> total == |Busy(spans, now)|
  {
    if |spans| == 0 {
      return 0;
    }
    var s := SortSpans(Cut(spans, now));
    UnionOf(Cut(spans, now), s);
    total := MergeSpans(s);
    if total < 0 {
      total := 0;
    }
  }

  // ---- Accounting ----

  /** Every lease lies inside the machine's lifetime. */
  predicate Inside(spans: seq<Interval>, created: int, confirmed: int) {
    forall iv <- Cut(spans, confirmed) :: created <= iv.start && iv.end <= confirmed
  }

  lemma BusyInside(spans: seq<Interval>, created: int, confirmed: int)
    requires created <= confirmed && Inside(spans, created, confirmed)
    ensures |Busy(spans, confirmed)| <= confirmed - created
  {
    forall t | t in Busy(spans, confirmed)
      ensures t in Range(created, confirmed)
    {
      UnionAt(Cut(spans, confirmed), t);
      RangeHas(created, confirmed, t);
    }
    RangeSize(created, confirmed);
    SmallerSet(Busy(spans, confirmed), Range(created, confirmed));
  }

  /** What a confirmed delete reports: the paid time is the useful time plus the idle time, and neither is made up. */
  method Account(created: int, confirmed: int, p: Policy, spans: seq<Interval>) returns (paid: int, useful: int, idle: int)
    ensures paid == Paid(confirmed - created, p) && idle >= 0
    ensures created <= confirmed && Upright(spans, confirmed) && Inside(spans, created, confirmed) ==>
              useful == |Busy(spans, confirmed)| <= confirmed - created <= paid && paid == useful + idle
  {
    paid := Paid(confirmed - created, p);
    useful := UsefulMillis(spans, confirmed);
    if created <= confirmed && Inside(spans, created, confirmed) {
      BusyInside(spans, created, confirmed);
      PaidIsLeast(confirmed - created, p, 1);
    }
    idle := paid - useful;
    if idle < 0 {
      idle := 0;
    }
  }
}
