/** The fixed-window rate limit for one IP, across any number of gateway instances. Redis executes
    INCR and PEXPIRE one at a time; a PEXPIRE may land late or never. Once its time is up the key may
    vanish at any moment, and not before.

    A window is the life of the key. `windows` are their start times, `admitted` the admitted
    requests in order, both history. */
module RateLimit {
  import opened Prelude
  import opened Messages

  const WINDOW_MS := 60000
  const MAX_REQUESTS := 100

  datatype Key = Key(count: nat, expiry: Option<int>)

  /** An admitted request: when Redis counted it, in which window, and its number there. */
  datatype Admission = Admission(at: int, window: nat, n: nat)

  datatype State = State(now: int, key: Option<Key>, windows: seq<int>, admitted: seq<Admission>)

  datatype Step =
    | Tick(to: int)
    | Incr
    | PExpire
    | Vanish

  function Start(now: int): State {
    State(now, None, [], [])
  }

  predicate Can(s: State, step: Step) {
    match step
    case Tick(to) => to >= s.now
    case Incr => true
    case PExpire => s.key.Some? && s.key.value.expiry.None?
    case Vanish => s.key.Some? && s.key.value.expiry.Some? && s.key.value.expiry.value <= s.now
  }

  function CountAfter(s: State): nat {
    if s.key.Some? then s.key.value.count + 1 else 1
  }

  function Newest(windows: seq<int>): nat {
    if windows == [] then 0 else |windows| - 1
  }

  function Do(s: State, step: Step): State
    requires Can(s, step)
  {
    match step
    case Tick(to) => s.(now := to)
    case Incr =>
      var count := CountAfter(s);
      var windows := if s.key.None? then s.windows + [s.now] else s.windows;
      s.(key := Some(Key(count, if s.key.Some? then s.key.value.expiry else None)),
         windows := windows,
         admitted := if count <= MAX_REQUESTS then s.admitted + [Admission(s.now, Newest(windows), count)]
                     else s.admitted)
    case PExpire => s.(key := Some(s.key.value.(expiry := Some(s.now + WINDOW_MS))))
    case Vanish => s.(key := None)
  }

  ghost predicate Admissible(s: State, steps: seq<Step>)
    decreases |steps|
  {
    steps == [] || (Can(s, steps[0]) && Admissible(Do(s, steps[0]), steps[1..]))
  }

  ghost function Exec(s: State, steps: seq<Step>): State
    requires Admissible(s, steps)
    decreases |steps|
  {
    if steps == [] then s else Exec(Do(s, steps[0]), steps[1..])
  }

  // ----- invariants -----

  /** Windows are at least WINDOW_MS apart; the current one is no older than its expiry allows. */
  ghost predicate WindowsOk(s: State) {
    && (forall g :: 0 < g < |s.windows| ==> s.windows[g] >= s.windows[g - 1] + WINDOW_MS)
    && (s.windows != [] ==> s.windows[|s.windows| - 1] <= s.now)
    && (s.key.Some? ==> s.windows != [] && s.key.value.count >= 1)
    && (s.key.Some? && s.key.value.expiry.Some? ==> s.key.value.expiry.value >= s.windows[|s.windows| - 1] + WINDOW_MS)
    && (s.key.None? && s.windows != [] ==> s.now >= s.windows[|s.windows| - 1] + WINDOW_MS)
  }

  ghost predicate AdmissionOk(windows: seq<int>, a: Admission) {
    && a.window < |windows| && 1 <= a.n <= MAX_REQUESTS
    && a.at >= windows[a.window] && (a.n == 1 ==> a.at == windows[a.window])
  }

  /** The next admission has the next number of the same window, or opens a later window. */
  predicate Follows(a: Admission, b: Admission) {
    a.at <= b.at && ((b.window == a.window && b.n == a.n + 1) || (b.window > a.window && b.n == 1))
  }

  ghost predicate AdmittedOk(s: State) {
    && (forall k :: 0 <= k < |s.admitted| ==> AdmissionOk(s.windows, s.admitted[k]))
    && (forall k :: 0 < k < |s.admitted| ==> Follows(s.admitted[k - 1], s.admitted[k]))
  }

  /** The last admission against the key: it is the key's count, or its window is over or full. */
  ghost predicate LastOk(s: State) {
    && (s.admitted != [] ==>
          var a := s.admitted[|s.admitted| - 1];
          && a.at <= s.now
          && a.window == |s.windows| - 1
          && (s.key.Some? ==> a.n == if s.key.value.count <= MAX_REQUESTS then s.key.value.count else MAX_REQUESTS))
    && (s.admitted == [] ==> s.windows == [])
  }

  ghost predicate Inv(s: State) {
    WindowsOk(s) && AdmittedOk(s) && LastOk(s)
  }

  lemma StepKeepsInv(s: State, step: Step)
    requires Inv(s) && Can(s, step)
    ensures Inv(Do(s, step))
  {
    if step.Incr? {
      IncrKeepsAdmitted(s);
    }
  }

  lemma IncrKeepsAdmitted(s: State)
    requires Inv(s) && Can(s, Incr)
    ensures AdmittedOk(Do(s, Incr))
  {
    var s' := Do(s, Incr);
    forall k | 0 <= k < |s'.admitted| ensures AdmissionOk(s'.windows, s'.admitted[k]) {
      if k < |s.admitted| {
        assert AdmissionOk(s.windows, s.admitted[k]);
      }
    }
  }

  lemma {:induction false} RunKeepsInv(s: State, steps: seq<Step>)
    requires Inv(s) && Admissible(s, steps)
    ensures Inv(Exec(s, steps))
    decreases |steps|
  {
    if steps != [] {
      StepKeepsInv(s, steps[0]);
      RunKeepsInv(Do(s, steps[0]), steps[1..]);
    }
  }

  // ----- the bound -----

  /** Admissions with lo <= at < hi. */
  function CountIn(admitted: seq<Admission>, lo: int, hi: int): nat {
    if admitted == [] then 0 else
      CountIn(admitted[..|admitted| - 1], lo, hi) + if lo <= admitted[|admitted| - 1].at < hi then 1 else 0
  }

  lemma {:induction false} WindowsApart(windows: seq<int>, g: nat, h: nat)
    requires forall i :: 0 < i < |windows| ==> windows[i] >= windows[i - 1] + WINDOW_MS
    requires g < h < |windows|
    ensures windows[h] >= windows[g] + WINDOW_MS
    decreases h
  {
    if g + 1 < h {
      WindowsApart(windows, g, h - 1);
    }
  }

  lemma {:induction false} AdmissionsOrdered(s: State, i: nat, j: nat)
    requires Inv(s) && i <= j < |s.admitted|
    ensures s.admitted[i].at <= s.admitted[j].at && s.admitted[i].window <= s.admitted[j].window
    ensures s.admitted[i].window == s.admitted[j].window ==> s.admitted[j].n == s.admitted[i].n + (j - i)
    decreases j
  {
    if i < j {
      AdmissionsOrdered(s, i, j - 1);
      assert Follows(s.admitted[j - 1], s.admitted[j]);
    }
  }

  /** The first admission of a later window after i. */
  lemma {:induction false} Boundary(s: State, i: nat, j: nat) returns (m: nat)
    requires Inv(s) && i < j < |s.admitted| && s.admitted[i].window < s.admitted[j].window
    ensures i < m <= j && s.admitted[m].n == 1 && s.admitted[m].window > s.admitted[i].window
    ensures s.admitted[m - 1].window == s.admitted[i].window
    decreases j
  {
    assert Follows(s.admitted[j - 1], s.admitted[j]);
    AdmissionsOrdered(s, i, j - 1);
    if s.admitted[j - 1].window == s.admitted[i].window {
      m := j;
    } else {
      m := Boundary(s, i, j - 1);
    }
  }

  /** Fewer than 2 * MAX_REQUESTS consecutive admissions fit strictly within WINDOW_MS. */
  lemma Span(s: State, i: nat, j: nat)
    requires Inv(s) && i <= j < |s.admitted| && s.admitted[j].at < s.admitted[i].at + WINDOW_MS
    ensures j - i + 1 <= 2 * MAX_REQUESTS - 1
  {
    var a, b := s.admitted[i], s.admitted[j];
    assert AdmissionOk(s.windows, a) && AdmissionOk(s.windows, b);
    AdmissionsOrdered(s, i, j);
    if a.window < b.window {
      var m := Boundary(s, i, j);
      var first, prev := s.admitted[m], s.admitted[m - 1];
      assert AdmissionOk(s.windows, first) && AdmissionOk(s.windows, prev);
      AdmissionsOrdered(s, i, m - 1);
      AdmissionsOrdered(s, i, m);
      AdmissionsOrdered(s, m, j);
      WindowsApart(s.windows, a.window, first.window);
      if first.window < b.window {
        WindowsApart(s.windows, first.window, b.window);
        assert false;
      }
      // the window that opened at `first` started after all of `a`'s began, so `a` was not its first
      assert a.n >= 2;
    }
  }

  /** The first and last of the admissions counted in the interval. */
  ghost predicate Ends(admitted: seq<Admission>, i: int, j: int, lo: int, hi: int) {
    0 <= i <= j < |admitted| && lo <= admitted[i].at < hi && lo <= admitted[j].at < hi
        && CountIn(admitted, lo, hi) <= j - i + 1
  }

  lemma {:induction false} CountIsSpan(admitted: seq<Admission>, lo: int, hi: int)
    ensures CountIn(admitted, lo, hi) > 0 ==> exists i, j :: Ends(admitted, i, j, lo, hi)
  {
    if admitted != [] {
      var n := |admitted| - 1;
      CountIsSpan(admitted[..n], lo, hi);
      if CountIn(admitted[..n], lo, hi) > 0 {
        var i, j :| Ends(admitted[..n], i, j, lo, hi);
        assert Ends(admitted, i, if lo <= admitted[n].at < hi then n else j, lo, hi);
      } else if lo <= admitted[n].at < hi {
        assert Ends(admitted, n, n, lo, hi);
      }
    }
  }

  /** No half-open interval of length WINDOW_MS admits more than 2 * MAX_REQUESTS - 1 requests, in any
      run, however late a PEXPIRE lands. */
  lemma RateBound(now: int, steps: seq<Step>, lo: int)
    requires Admissible(Start(now), steps)
    ensures CountIn(Exec(Start(now), steps).admitted, lo, lo + WINDOW_MS) <= 2 * MAX_REQUESTS - 1
  {
    RunKeepsInv(Start(now), steps);
    var s := Exec(Start(now), steps);
    CountIsSpan(s.admitted, lo, lo + WINDOW_MS);
    if CountIn(s.admitted, lo, lo + WINDOW_MS) > 0 {
      var i, j :| Ends(s.admitted, i, j, lo, lo + WINDOW_MS);
      Span(s, i, j);
    }
  }

  // ----- the bound is reached -----

  function Burst(n: nat): seq<Step> {
    seq(n, _ => Incr)
  }

  /** n requests in a row that the window still has room for are all admitted, at once. */
  lemma {:induction false} BurstAdmits(s: State, n: nat)
    requires s.key.Some? && s.windows != [] && s.key.value.count + n <= MAX_REQUESTS
    ensures Admissible(s, Burst(n))
    ensures var s' := Exec(s, Burst(n));
      && s'.now == s.now && s'.windows == s.windows
      && s'.key == Some(s.key.value.(count := s.key.value.count + n))
      && |s'.admitted| == |s.admitted| + n && s'.admitted[..|s.admitted|] == s.admitted
      && forall k :: |s.admitted| <= k < |s'.admitted| ==> s'.admitted[k].at == s.now
    decreases n
  {
    if n > 0 {
      var s1 := Do(s, Incr);
      BurstAdmits(s1, n - 1);
      assert Burst(n)[0] == Incr && Burst(n)[1..] == Burst(n - 1);
      var s' := Exec(s, Burst(n));
      assert s'.admitted[..|s.admitted|] == s'.admitted[..|s1.admitted|][..|s.admitted|] == s.admitted;
      assert s'.admitted[|s.admitted|] == s'.admitted[..|s1.admitted|][|s.admitted|];
    }
  }

  lemma {:induction false} CountTail(admitted: seq<Admission>, from: nat, lo: int, hi: int)
    requires from <= |admitted|
    requires forall k :: from <= k < |admitted| ==> lo <= admitted[k].at < hi
    ensures CountIn(admitted, lo, hi) >= |admitted| - from
    decreases |admitted|
  {
    if from < |admitted| {
      CountTail(admitted[..|admitted| - 1], from, lo, hi);
    }
  }

  lemma {:induction false} ExecAppend(s: State, a: seq<Step>, b: seq<Step>)
    requires Admissible(s, a) && Admissible(Exec(s, a), b)
    ensures Admissible(s, a + b) && Exec(s, a + b) == Exec(Exec(s, a), b)
    decreases |a|
  {
    if a == [] {
      assert a + b == b;
    } else {
      ExecAppend(Do(s, a[0]), a[1..], b);
      assert (a + b)[1..] == a[1..] + b;
    }
  }

  lemma ExecOne(s: State, step: Step)
    requires Can(s, step)
    ensures Admissible(s, [step]) && Exec(s, [step]) == Do(s, step)
  {
    assert [step][1..] == [];
  }

  /** The interval of length WINDOW_MS from `lo` holds as many admissions as the bound allows. */
  ghost predicate Full(s: State, lo: int) {
    CountIn(s.admitted, lo, lo + WINDOW_MS) == 2 * MAX_REQUESTS - 1
  }

  /** One request opens the window, 99 more use it up in its last millisecond, and 100 follow in the
      first millisecond of the next window. */
  lemma RateBoundReached(now: int)
    ensures exists steps :: Admissible(Start(now), steps) && Full(Exec(Start(now), steps), now + 1)
  {
    var s0 := Start(now);
    var s1 := Do(s0, Incr);
    var s2 := Do(s1, PExpire);
    var s3 := Do(s2, Tick(now + WINDOW_MS - 1));
    var opening := [Incr] + [PExpire] + [Tick(now + WINDOW_MS - 1)];
    ExecOne(s0, Incr);
    ExecOne(s1, PExpire);
    ExecOne(s2, Tick(now + WINDOW_MS - 1));
    ExecAppend(s0, [Incr], [PExpire]);
    ExecAppend(s0, [Incr] + [PExpire], [Tick(now + WINDOW_MS - 1)]);
    BurstAdmits(s3, MAX_REQUESTS - 1);
    ExecAppend(s0, opening, Burst(MAX_REQUESTS - 1));
    SecondWindow(s0, opening + Burst(MAX_REQUESTS - 1), now);
  }

  lemma SecondWindow(s0: State, first: seq<Step>, now: int)
    requires s0 == Start(now) && Admissible(s0, first)
    requires var s := Exec(s0, first);
      && s.now == now + WINDOW_MS - 1 && s.key == Some(Key(MAX_REQUESTS, Some(now + WINDOW_MS))) && s.windows != []
      && |s.admitted| == MAX_REQUESTS && forall k :: 1 <= k < MAX_REQUESTS ==> s.admitted[k].at == now + WINDOW_MS - 1
    ensures exists steps :: Admissible(s0, steps) && Full(Exec(s0, steps), now + 1)
  {
    var s4 := Exec(s0, first);
    var s5 := Do(s4, Tick(now + WINDOW_MS));
    var s6 := Do(s5, Vanish);
    var s7 := Do(s6, Incr);
    ExecOne(s4, Tick(now + WINDOW_MS));
    ExecOne(s5, Vanish);
    ExecOne(s6, Incr);
    var second := first + [Tick(now + WINDOW_MS)] + [Vanish] + [Incr];
    ExecAppend(s0, first, [Tick(now + WINDOW_MS)]);
    ExecAppend(s0, first + [Tick(now + WINDOW_MS)], [Vanish]);
    ExecAppend(s0, first + [Tick(now + WINDOW_MS)] + [Vanish], [Incr]);
    SecondBurst(s0, second, now);
  }

  lemma SecondBurst(s0: State, second: seq<Step>, now: int)
    requires s0 == Start(now) && Admissible(s0, second)
    requires var s := Exec(s0, second);
      && s.now == now + WINDOW_MS && s.key.Some? && s.key.value.count == 1 && s.windows != []
      && |s.admitted| == MAX_REQUESTS + 1
      && forall k :: 1 <= k <= MAX_REQUESTS ==> now + 1 <= s.admitted[k].at <= now + WINDOW_MS
    ensures exists steps :: Admissible(s0, steps) && Full(Exec(s0, steps), now + 1)
  {
    var s7 := Exec(s0, second);
    BurstAdmits(s7, MAX_REQUESTS - 1);
    var steps := second + Burst(MAX_REQUESTS - 1);
    ExecAppend(s0, second, Burst(MAX_REQUESTS - 1));
    var all := Exec(s0, steps).admitted;
    assert all[..MAX_REQUESTS + 1] == s7.admitted;
    forall k | 1 <= k < |all| ensures now + 1 <= all[k].at < now + 1 + WINDOW_MS {
      if k <= MAX_REQUESTS {
        assert all[k] == all[..MAX_REQUESTS + 1][k];
      }
    }
    CountTail(all, 1, now + 1, now + 1 + WINDOW_MS);
    RateBound(now, steps, now + 1);
    assert Full(Exec(s0, steps), now + 1);
  }

  // ----- the guard: Redis as it sees it, the counter of one IP -----

  /** Let through with so many requests left, the 429, or an error of Redis that turns the request away. */
  datatype Answer = Admitted(remaining: nat) | TooMany | Failed

  class RateLimitGuard {
    var now: int
    var key: Option<Key>
    ghost var windows: seq<int>
    ghost var admitted: seq<Admission>

    ghost function Abs(): State
      reads this
    {
      State(now, key, windows, admitted)
    }

    constructor (now: int)
      ensures Abs() == Start(now)
    {
      this.now, key, windows, admitted := now, None, [], [];
    }

    /** INCR */
    method Increment() returns (count: nat)
      modifies this
      ensures Abs() == Do(old(Abs()), Incr) && count == CountAfter(old(Abs()))
    {
      count := if key.Some? then key.value.count + 1 else 1;
      windows := if key.None? then windows + [now] else windows;
      key := Some(Key(count, if key.Some? then key.value.expiry else None));
      admitted := if count <= MAX_REQUESTS then admitted + [Admission(now, Newest(windows), count)] else admitted;
    }

    /** canActivate; `incr` and `expire` are Redis' replies. Every request let through is one the
        machine admits; an admitted one is turned away only if a reply was an error. */
    method CanActivate(incr: Reply, expire: Reply) returns (answer: Answer)
      requires Inv(Abs())
      modifies this
      ensures Inv(Abs())
      ensures var s := old(Abs());
        var counted := if TakesEffect(incr) then Do(s, Incr) else s;
        Abs() == if incr.Ok? && CountAfter(s) == 1 && TakesEffect(expire) then Do(counted, PExpire) else counted
      ensures answer.Admitted? <==>
        incr.Ok? && |admitted| == |old(admitted)| + 1 && (CountAfter(old(Abs())) == 1 ==> expire.Ok?)
      ensures answer.Admitted? ==> admitted[|admitted| - 1].n + answer.remaining == MAX_REQUESTS
      ensures answer.TooMany? <==> incr.Ok? && admitted == old(admitted)
    {
      StepKeepsInv(Abs(), Incr);
      if incr.Error? && !incr.applied {
        return Failed;
      }
      var count := Increment();
      if incr.Error? {
        return Failed;
      }
      if count == 1 {
        var landed := SetExpiry(expire);
        if !landed {
          return Failed;
        }
      }
      if count > MAX_REQUESTS {
        return TooMany;
      }
      return Admitted(MAX_REQUESTS - count);
    }

    /** PEXPIRE */
    method SetExpiry(reply: Reply) returns (ok: bool)
      requires Inv(Abs()) && Can(Abs(), PExpire)
      modifies this
      ensures Inv(Abs()) && Abs() == if TakesEffect(reply) then Do(old(Abs()), PExpire) else old(Abs())
      ensures ok <==> reply.Ok?
    {
      StepKeepsInv(Abs(), PExpire);
      if reply.Ok? || reply.applied {
        key := Some(key.value.(expiry := Some(now + WINDOW_MS)));
      }
      return reply.Ok?;
    }
  }
}
