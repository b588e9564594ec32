/**
 * The streaming pi digit engine (`piSpigot` in generatelines.go), as
 * values: the state of the engine, one round of the Rabinowitz-Wagon
 * recurrence, the predigit/nines carry protocol, the suppression of leading
 * zeros, and the digit stream that successive `NextDigit` calls return.
 * The imperative engine in module SpigotEngine is proved against these
 * definitions.
 */
module Spigot {
  import opened Wrappers

  /** Go's integer division `x / d` for a positive divisor: truncates toward zero,
      which for a non-negative `x` is the number of times `d` can be subtracted. */
  function Quot(x: int, d: int): (r: int)
    requires d > 0
    ensures x >= 0 ==> r >= 0
    decreases if x < 0 then 1 - x else x
  {
    if x < 0 then -Quot(-x, d)
    else if x < d then 0
    else Quot(x - d, d) + 1
  }

  /** Go's remainder `x % d` for a positive divisor: it has the sign of `x`. */
  function Rem(x: int, d: int): (r: int)
    requires d > 0
    ensures x >= 0 ==> 0 <= r < d
    ensures x < 0 ==> -d < r <= 0
    decreases if x < 0 then 1 - x else x
  {
    if x < 0 then -Rem(-x, d)
    else if x < d then x
    else Rem(x - d, d)
  }

  /** Go's division identity: `(x / d) * d + x % d == x`. */
  lemma {:induction false} QuotRem(x: int, d: int)
    requires d > 0
    ensures Quot(x, d) * d + Rem(x, d) == x
    decreases if x < 0 then 1 - x else x
  {
    if x < 0 {
      QuotRem(-x, d);
      assert -Quot(-x, d) * d == -(Quot(-x, d) * d);
    } else if x >= d {
      QuotRem(x - d, d);
      assert (Quot(x - d, d) + 1) * d == Quot(x - d, d) * d + d;
    }
  }

  /** On a non-negative dividend Go's truncating operators agree with Dafny's
      Euclidean ones. */
  lemma QuotRemNonneg(x: int, d: int)
    requires x >= 0 && d > 0
    ensures Quot(x, d) == x / d && Rem(x, d) == x % d
  {
    QuotRem(x, d);
    UniqueDivision(x, d, Quot(x, d), Rem(x, d));
  }

  lemma UniqueDivision(x: int, d: int, q: int, r: int)
    requires d > 0 && 0 <= r < d && q * d + r == x
    ensures q == x / d && r == x % d
  {
    var q0, r0 := x / d, x % d;
    assert q0 * d + r0 == x;
    var e := q - q0;
    assert e * d == r0 - r by {
      assert q * d - q0 * d == (q - q0) * d;
    }
    if e >= 1 {
      assert e * d >= d by { assert e * d == (e - 1) * d + d; MulNonneg(e - 1, d); }
    } else if e <= -1 {
      assert -e * d >= d by { assert -e * d == (-e - 1) * d + d; MulNonneg(-e - 1, d); }
    }
  }

  lemma MulNonneg(a: int, b: int)
    requires a >= 0 && b >= 0
    ensures a * b >= 0
  {
  }

  /** `n` copies of `v`, in order (what the source's append loops build). */
  function Repeat<T>(v: T, n: nat): (r: seq<T>)
    ensures |r| == n
    ensures forall i :: 0 <= i < n ==> r[i] == v
  {
    if n == 0 then [] else Repeat(v, n - 1) + [v]
  }

  /** The fields of a `piSpigot`: the remainder table, the digits already decided,
      the count of deferred nines, the held-back predigit and the started flag. */
  datatype State = State(a: seq<int>, queue: seq<int>, nines: nat, predigit: int, started: bool)

  /** The table length `newPiSpigot(digits)` allocates: `digits*10/3 + 1`. */
  function TableSize(digits: nat): (size: nat)
    ensures size >= 1
    ensures 3 * (size - 1) <= 10 * digits < 3 * size
  {
    digits * 10 / 3 + 1
  }

  /** The state `newPiSpigot(digits)` builds: it already keeps the invariant,
      with nothing queued and nothing returned yet. */
  function Fresh(digits: nat): (s: State)
    ensures Inv(s) && |s.a| == TableSize(digits)
    ensures s.queue == [] && s.nines == 0 && !s.started
  {
    State(Repeat(2, TableSize(digits)), [], 0, 0, false)
  }

  predicate Nonneg(s: seq<int>)
  {
    forall i :: 0 <= i < |s| ==> s[i] >= 0
  }

  /** The bounds every entry of the table keeps: entry 0 is a decimal digit, and
      entry i >= 1 is a remainder modulo 2(i+1)-1 = 2i+1. */
  predicate TableBounded(a: seq<int>)
  {
    && |a| >= 1
    && 0 <= a[0] <= 9
    && forall i :: 1 <= i < |a| ==> 0 <= a[i] < 2 * i + 1
  }

  /** What holds of the engine between two `NextDigit` calls. */
  predicate Inv(s: State)
  {
    && TableBounded(s.a)
    && 0 <= s.predigit && s.predigit != 9 && s.predigit != 10
    && Nonneg(s.queue)
    && (|s.queue| > 0 ==> s.started)
  }

  /**
   * The descending sweep of one round over indices k-1, ..., 0 with incoming
   * carry q: index i becomes `x % (2(i+1)-1)` with `x = 10*a[i] + q*(i+1)`, and
   * the carry becomes `x / (2(i+1)-1)`. Returns the new table and the final carry.
   */
  function Sweep(a: seq<int>, k: nat, q: int): (r: (seq<int>, int))
    requires k <= |a|
    ensures |r.0| == |a|
    ensures forall j :: k <= j < |a| ==> r.0[j] == a[j]
    decreases k
  {
    if k == 0 then (a, q)
    else
      var x := 10 * a[k - 1] + q * k;
      var den := 2 * k - 1;
      Sweep(a[k - 1 := Rem(x, den)], k - 1, Quot(x, den))
  }

  /** The base-10 value `q` a round produces: the sweep's final carry divided by 10. */
  function Carry(a: seq<int>): (q: int)
    requires |a| >= 1
    ensures var x := Sweep(a, |a|, 0).1; x >= 0 ==> 0 <= 10 * q <= x < 10 * q + 10
  {
    var x := Sweep(a, |a|, 0).1;
    QuotRem(x, 10);
    Quot(x, 10)
  }

  /** The table after a round: the sweep, then entry 0 reset to the carry mod 10. */
  function SweptTable(a: seq<int>): (r: seq<int>)
    requires |a| >= 1
    ensures |r| == |a|
  {
    var (b, q) := Sweep(a, |a|, 0);
    b[0 := Rem(q, 10)]
  }

  /** How a round ends: the digits it decides, and the new predigit and nines. */
  datatype Settled = Settled(released: seq<int>, predigit: int, nines: nat)

  /**
   * The predigit/nines carry protocol applied to the value q of a round.
   */
  function Settle(predigit: int, nines: nat, q: int): (r: Settled)
    // q = 9 defers: nothing is decided and one more nine is pending.
    ensures q == 9 ==> r.released == [] && r.predigit == predigit && r.nines == nines + 1
    // Otherwise the predigit and every pending nine are decided at once.
    ensures q != 9 ==> |r.released| == nines + 1 && r.nines == 0
    // q = 10 is a carry: the predigit goes up by one and the nines roll over to zeros.
    ensures q == 10 ==>
              r.released[0] == predigit + 1 && r.predigit == 0
              && forall j :: 1 <= j < |r.released| ==> r.released[j] == 0
    // Any other q: the predigit and the nines stand, and q is held back.
    ensures q != 9 && q != 10 ==>
              r.released[0] == predigit && r.predigit == q
              && forall j :: 1 <= j < |r.released| ==> r.released[j] == 9
    // The held-back digit is never 9 or 10 (given that it was not before).
    ensures predigit != 9 && predigit != 10 ==> r.predigit != 9 && r.predigit != 10
  {
    if q == 9 then Settled([], predigit, nines + 1)
    else if q == 10 then Settled([predigit + 1] + Repeat(0, nines), 0, 0)
    else Settled([predigit] + Repeat(9, nines), q, 0)
  }

  /** One pass of the body of `NextDigit`'s outer loop, up to (not including) the drain:
      sweep, fold, settle, and append the decided digits to the queue. */
  function Round(s: State): (r: State)
    requires |s.a| >= 1
    ensures |r.a| == |s.a|
  {
    var st := Settle(s.predigit, s.nines, Carry(s.a));
    State(SweptTable(s.a), s.queue + st.released, st.nines, st.predigit, s.started)
  }

  /** The queue with its leading zeros dropped. */
  function LeadingZeros(q: seq<int>): (n: nat)
    ensures n <= |q|
    ensures forall j :: 0 <= j < n ==> q[j] == 0
    ensures n < |q| ==> q[n] != 0
    decreases |q|
  {
    if |q| > 0 && q[0] == 0 then 1 + LeadingZeros(q[1..]) else 0
  }

  function SkipLeadingZeros(q: seq<int>): seq<int>
  {
    q[LeadingZeros(q)..]
  }

  /** What the zero filter leaves: a suffix of the queue that does not start
      with zero, everything before it being zero. */
  lemma ZerosSkipped(q: seq<int>)
    ensures var r := SkipLeadingZeros(q);
      && |r| <= |q| && r == q[|q| - |r|..]
      && (forall j :: 0 <= j < |q| - |r| ==> q[j] == 0)
      && (|r| > 0 ==> r[0] != 0)
  {
  }

  /** Dropping one leading zero does not change what the filter leaves. */
  lemma SkipOneZero(q: seq<int>)
    requires |q| > 0 && q[0] == 0
    ensures SkipLeadingZeros(q[1..]) == SkipLeadingZeros(q)
  {
    assert LeadingZeros(q) == 1 + LeadingZeros(q[1..]);
    assert q[1..][LeadingZeros(q[1..])..] == q[LeadingZeros(q)..];
  }

  /** The drain's suppression: before the first digit is returned, zeros at the
      front of the queue are discarded. */
  function Suppress(s: State): (r: State)
    ensures r == s.(queue := r.queue)
    ensures s.started ==> r == s
    ensures !s.started ==> |r.queue| == 0 || r.queue[0] != 0
  {
    ZerosSkipped(s.queue);
    if s.started then s else s.(queue := SkipLeadingZeros(s.queue))
  }

  /**
   * The slow path of `NextDigit`, entered with an empty queue: run rounds until
   * the drain finds a digit to return. `fuel` bounds the number of rounds after
   * the first; None means that bound was not enough.
   */
  function Rounds(s: State, fuel: nat): (r: Option<(int, State)>)
    requires s.queue == [] && |s.a| >= 1
    ensures r.Some? ==> |r.value.1.a| == |s.a|
    decreases fuel
  {
    var t := Suppress(Round(s));
    if |t.queue| > 0 then Some((t.queue[0], Pop(t)))
    else if fuel == 0 then None
    else Rounds(t, fuel - 1)
  }

  /** One `NextDigit` call: the digit returned and the state afterwards. */
  function Next(s: State, fuel: nat): (r: Option<(int, State)>)
    requires |s.a| >= 1
    ensures r.Some? ==> |r.value.1.a| == |s.a|
  {
    if |s.queue| > 0 then Some((s.queue[0], s.(queue := s.queue[1..])))
    else Rounds(s, fuel)
  }

  /** `n` successive `NextDigit` calls, each allowed `fuel` extra rounds. */
  function Take(s: State, n: nat, fuel: nat): (r: Option<(seq<int>, State)>)
    requires |s.a| >= 1
    ensures r.Some? ==> |r.value.0| == n && |r.value.1.a| == |s.a|
    decreases n
  {
    if n == 0 then Some(([], s))
    else
      match Take(s, n - 1, fuel)
      case None => None
      case Some((ds, t)) =>
        match Next(t, fuel)
        case None => None
        case Some((d, u)) => Some((ds + [d], u))
  }

  /*
   * Properties of a round.
   */

  /** The sweep keeps every entry it rewrites in [0, 2i+1) and its carry
      non-negative, as long as the table and the incoming carry are non-negative
      (so Go's truncating `/` and `%` agree with the mathematical ones). */
  lemma {:induction false} SweepBounds(a: seq<int>, k: nat, q: int)
    requires k <= |a| && q >= 0
    requires forall j :: 0 <= j < k ==> a[j] >= 0
    ensures Sweep(a, k, q).1 >= 0
    ensures forall j :: 0 <= j < k ==> 0 <= Sweep(a, k, q).0[j] < 2 * j + 1
    decreases k
  {
    if k > 0 {
      var x := 10 * a[k - 1] + q * k;
      var den := 2 * k - 1;
      MulNonneg(q, k);
      var a' := a[k - 1 := Rem(x, den)];
      SweepBounds(a', k - 1, Quot(x, den));
    }
  }

  /** A round never resizes the table and leaves it within its bounds:
      every entry non-negative, entry 0 a decimal digit, entry i >= 1 below 2i+1. */
  lemma RoundKeepsTableBounded(a: seq<int>)
    requires Nonneg(a) && |a| >= 1
    ensures |SweptTable(a)| == |a|
    ensures TableBounded(SweptTable(a))
    ensures Carry(a) >= 0
  {
    SweepBounds(a, |a|, 0);
  }

  /** The digits a round decides are all of the queue growth: nothing when q = 9,
      otherwise the predigit plus one digit per pending nine. */
  lemma RoundQueueGrowth(s: State)
    requires |s.a| >= 1
    ensures Carry(s.a) == 9 ==> Round(s).queue == s.queue && Round(s).nines == s.nines + 1
    ensures Carry(s.a) != 9 ==> |Round(s).queue| == |s.queue| + s.nines + 1 && Round(s).nines == 0
    ensures Round(s).queue[..|s.queue|] == s.queue
  {
  }

  /** When the predigit is a digit other than 9 and q is at most 10 (the
      Rabinowitz-Wagon bound, assumed here, not proved), every digit decided is in
      0..9 and the new predigit is again in 0..8. */
  lemma SettleDigitsInRange(predigit: int, nines: nat, q: int)
    requires 0 <= predigit <= 8 && 0 <= q <= 10
    ensures var r := Settle(predigit, nines, q);
      && 0 <= r.predigit <= 8
      && forall j :: 0 <= j < |r.released| ==> 0 <= r.released[j] <= 9
  {
  }

  /*
   * Properties of NextDigit.
   */

  /** The slow path keeps the invariant, returns a non-negative digit, marks the
      engine started, and returns a non-zero digit if it was not started before. */
  lemma {:induction false} RoundsKeepInv(s: State, fuel: nat)
    requires Inv(s) && s.queue == [] && Rounds(s, fuel).Some?
    ensures Delivered(s.started, Rounds(s, fuel).value.0, Rounds(s, fuel).value.1)
    decreases fuel
  {
    var t := Suppress(Round(s));
    RoundThenSuppress(s);
    if |t.queue| > 0 {
      PopKeepsInv(t);
      RoundsEmits(s, fuel);
    } else {
      RoundsNeedsFuel(s, fuel);
      RoundsContinue(s, fuel);
      RoundsKeepInv(t, fuel - 1);
    }
  }

  /** What a NextDigit call promises about the digit `d` it returns and the state
      `t` it leaves, given whether the engine had started before the call. */
  predicate Delivered(wasStarted: bool, d: int, t: State)
  {
    Inv(t) && t.started && d >= 0 && (!wasStarted ==> d != 0)
  }

  /** Returning the head of the queue: the rest stays queued and the engine is started. */
  function Pop(t: State): (r: State)
    requires |t.queue| > 0
    ensures r.queue == t.queue[1..] && r.started
  {
    t.(queue := t.queue[1..], started := true)
  }

  lemma PopKeepsInv(t: State)
    requires |t.queue| > 0
    requires TableBounded(t.a) && 0 <= t.predigit && t.predigit != 9 && t.predigit != 10
    requires Nonneg(t.queue) && (!t.started ==> t.queue[0] != 0)
    ensures Delivered(t.started, t.queue[0], Pop(t))
  {
  }

  /** One round followed by the leading-zero filter keeps everything in the
      invariant but the link between a pending queue and `started`, and leaves a
      non-zero digit at the head of the queue if the engine had not started. */
  lemma RoundThenSuppress(s: State)
    requires Inv(s) && s.queue == []
    ensures var t := Suppress(Round(s));
      && TableBounded(t.a) && 0 <= t.predigit && t.predigit != 9 && t.predigit != 10
      && Nonneg(t.queue) && t.started == s.started
      && (!s.started && |t.queue| > 0 ==> t.queue[0] != 0)
  {
    RoundKeepsTableBounded(s.a);
    var r := Round(s);
    assert Nonneg(r.queue);
  }

  /** One NextDigit call keeps the invariant; the engine is started afterwards, and
      the first digit it ever returns is not zero. */
  lemma NextKeepsInv(s: State, fuel: nat)
    requires Inv(s) && Next(s, fuel).Some?
    ensures var (d, t) := Next(s, fuel).value;
      && Inv(t) && t.started && d >= 0
      && (!s.started ==> d != 0)
  {
    if s.queue == [] {
      RoundsKeepInv(s, fuel);
    }
  }

  /** Once the engine has started, nothing is suppressed any more: a round that
      decides digits hands back the first of them, zeros included, and keeps
      the others queued in order for the calls that follow. */
  lemma StartedReturnsInOrder(s: State, fuel: nat)
    requires s.started && s.queue == [] && |s.a| >= 1
    requires |Round(s).queue| > 0
    ensures Rounds(s, fuel) == Some((Round(s).queue[0], Round(s).(queue := Round(s).queue[1..])))
    ensures Next(Round(s), fuel) == Rounds(s, fuel)
  {
  }

  /** The fuel only bounds the search: any larger bound than one that suffices gives the same digit and state. */
  lemma {:induction false} RoundsFuelIrrelevant(s: State, f1: nat, f2: nat)
    requires s.queue == [] && |s.a| >= 1
    requires Rounds(s, f1).Some? && f1 <= f2
    ensures Rounds(s, f2) == Rounds(s, f1)
    decreases f2
  {
    if f1 < f2 {
      RoundsFuelIrrelevant(s, f1, f2 - 1);
      RoundsFuelMono(s, f2 - 1);
    }
  }

  /** One more unit of fuel changes nothing once the search succeeds. */
  lemma {:induction false} RoundsFuelMono(s: State, f: nat)
    requires s.queue == [] && |s.a| >= 1
    requires Rounds(s, f).Some?
    ensures Rounds(s, f + 1) == Rounds(s, f)
    decreases f
  {
    var t := Suppress(Round(s));
    if |t.queue| > 0 {
      RoundsEmits(s, f);
      RoundsEmits(s, f + 1);
    } else {
      RoundsNeedsFuel(s, f);
      RoundsContinue(s, f);
      RoundsContinue(s, f + 1);
      RoundsFuelMono(t, f - 1);
    }
  }

  /** When a round leaves a digit in the queue, the search stops there, whatever the fuel. */
  lemma RoundsEmits(s: State, fuel: nat)
    requires s.queue == [] && |s.a| >= 1
    requires |Suppress(Round(s)).queue| > 0
    ensures Rounds(s, fuel) == Some((Suppress(Round(s)).queue[0], Pop(Suppress(Round(s)))))
  {
  }

  /** When a round releases nothing, the search goes on from the state it left,
      with one unit of fuel less. */
  lemma RoundsContinue(s: State, fuel: nat)
    requires s.queue == [] && |s.a| >= 1
    requires Suppress(Round(s)).queue == [] && fuel > 0
    ensures Rounds(s, fuel) == Rounds(Suppress(Round(s)), fuel - 1)
  {
  }

  /** A search that succeeds past a silent round had fuel left for it. */
  lemma RoundsNeedsFuel(s: State, fuel: nat)
    requires s.queue == [] && |s.a| >= 1
    requires Rounds(s, fuel).Some? && Suppress(Round(s)).queue == []
    ensures fuel > 0
  {
  }

  /** Successive calls: once m calls have returned `ds` and left `t`, the next
      n calls are the n calls made from `t`, and m + n calls return `ds`
      followed by what those return. */
  lemma {:induction false} TakeAdd(s: State, m: nat, n: nat, fuel: nat, ds: seq<int>, t: State)
    requires |s.a| >= 1 && Take(s, m, fuel) == Some((ds, t))
    ensures |t.a| >= 1
    ensures Take(s, m + n, fuel) ==
      if Take(t, n, fuel).None? then None
      else Some((ds + Take(t, n, fuel).value.0, Take(t, n, fuel).value.1))
    decreases n
  {
    if n == 0 {
      assert ds + [] == ds;
    } else {
      TakeAdd(s, m, n - 1, fuel, ds, t);
      TakeAddStep(s, m, n, fuel, ds, t);
    }
  }

  lemma TakeAddStep(s: State, m: nat, n: nat, fuel: nat, ds: seq<int>, t: State)
    requires |s.a| >= 1 && |t.a| >= 1 && n >= 1
    requires Take(s, m + (n - 1), fuel) ==
      if Take(t, n - 1, fuel).None? then None
      else Some((ds + Take(t, n - 1, fuel).value.0, Take(t, n - 1, fuel).value.1))
    ensures Take(s, m + n, fuel) ==
      if Take(t, n, fuel).None? then None
      else Some((ds + Take(t, n, fuel).value.0, Take(t, n, fuel).value.1))
  {
    assert m + (n - 1) + 1 == m + n;
    var r := Take(t, n - 1, fuel);
    if r.Some? {
      var (es, u) := r.value;
      var step := Next(u, fuel);
      if step.Some? {
        var (e, v) := step.value;
        TakeOneMore(t, n - 1, fuel, es, u, e, v);
        TakeOneMore(s, m + (n - 1), fuel, ds + es, u, e, v);
        assert ds + (es + [e]) == (ds + es) + [e];
      }
    }
  }

  /** `n` calls that complete also complete when fewer are made; so once a call
      runs out of fuel, every longer run does too. */
  lemma {:induction false} TakePrefix(s: State, m: nat, n: nat, fuel: nat)
    requires |s.a| >= 1 && m <= n && Take(s, n, fuel).Some?
    ensures Take(s, m, fuel).Some?
    decreases n
  {
    if m < n {
      assert Take(s, n - 1, fuel).Some?;
      TakePrefix(s, m, n - 1, fuel);
    }
  }

  /** The next call of a run of `n` calls that completes completes too. */
  lemma TakeNext(s: State, i: nat, n: nat, fuel: nat, ds: seq<int>, t: State)
    requires |s.a| >= 1 && i < n && Take(s, n, fuel).Some?
    requires Take(s, i, fuel) == Some((ds, t))
    ensures |t.a| >= 1 && Next(t, fuel).Some?
  {
    TakePrefix(s, i + 1, n, fuel);
  }

  /** The (n+1)-th call continues from the state the first n calls left. */
  lemma TakeOneMore(s: State, n: nat, fuel: nat, ds: seq<int>, t: State, d: int, u: State)
    requires |s.a| >= 1
    requires Take(s, n, fuel) == Some((ds, t)) && Next(t, fuel) == Some((d, u))
    ensures Take(s, n + 1, fuel) == Some((ds + [d], u))
  {
  }

  /** n calls from a state that satisfies the invariant return n non-negative digits
      and keep the invariant; the first of them is not zero if the engine had not
      started. */
  lemma {:induction false} TakeKeepsInv(s: State, n: nat, fuel: nat)
    requires Inv(s) && Take(s, n, fuel).Some?
    ensures var (ds, t) := Take(s, n, fuel).value;
      && Inv(t) && Nonneg(ds)
      && (n > 0 ==> t.started)
      && (n > 0 && !s.started ==> ds[0] != 0)
    decreases n
  {
    if n > 0 {
      TakeKeepsInv(s, n - 1, fuel);
      var (ds, t) := Take(s, n - 1, fuel).value;
      NextKeepsInv(t, fuel);
      if n == 1 {
        assert Take(s, 0, fuel) == Some(([], s));
      }
    }
  }

  /*
   * The sweep as a recurrence on carries.
   */

  /** `b` and the carries `c` are what the sweep over positions hi-1 down to lo
      produces from `a`: position i (1-based) receives the carry c[i], combines it
      with a[i-1] into x = 10 a[i-1] + c[i] i, keeps x mod (2i-1) and hands
      x div (2i-1) on as c[i-1]. */
  predicate TraceOk(a: seq<int>, b: seq<int>, c: seq<int>, lo: nat, hi: nat)
    requires lo <= hi <= |a| == |b| && |c| == |a| + 1
    decreases hi
  {
    hi == lo || (
      var x := 10 * a[hi - 1] + c[hi] * hi;
      && x >= 0
      && b[hi - 1] == x % (2 * hi - 1)
      && c[hi - 1] == x / (2 * hi - 1)
      && TraceOk(a, b, c, lo, hi - 1))
  }

  /** Two adjacent stretches of a trace make one. */
  lemma {:induction false} TraceJoin(a: seq<int>, b: seq<int>, c: seq<int>, lo: nat, mid: nat, hi: nat)
    requires lo <= mid <= hi <= |a| == |b| && |c| == |a| + 1
    requires TraceOk(a, b, c, lo, mid) && TraceOk(a, b, c, mid, hi)
    ensures TraceOk(a, b, c, lo, hi)
    decreases hi
  {
    if hi > mid {
      TraceJoin(a, b, c, lo, mid, hi - 1);
    }
  }

  /** A trace only reads the entries of `a` below its upper end. */
  lemma {:induction false} SameTrace(a: seq<int>, a': seq<int>, b: seq<int>, c: seq<int>, k: nat)
    requires k <= |a| == |a'| == |b| && |c| == |a| + 1
    requires a[..k] == a'[..k]
    requires TraceOk(a, b, c, 0, k)
    ensures TraceOk(a', b, c, 0, k)
    decreases k
  {
    if k > 0 {
      assert a[k - 1] == a[..k][k - 1] == a'[..k][k - 1] == a'[k - 1];
      assert a[..k - 1] == a[..k][..k - 1];
      assert a'[..k - 1] == a'[..k][..k - 1];
      SameTrace(a, a', b, c, k - 1);
    }
  }

  /** The sweep computes exactly the recurrence: given a table `b` and carries `c`
      that satisfy it over the first k positions (and `b` agrees with `a` above),
      `Sweep` returns `b` and the final carry c[0]. */
  lemma {:induction false} SweepByTrace(a: seq<int>, b: seq<int>, c: seq<int>, k: nat)
    requires k <= |a| == |b| && |c| == |a| + 1
    requires TraceOk(a, b, c, 0, k)
    requires b[k..] == a[k..]
    ensures Sweep(a, k, c[k]) == (b, c[0])
    decreases k
  {
    if k == 0 {
      assert a == a[0..] && b == b[0..];
    } else {
      var x := 10 * a[k - 1] + c[k] * k;
      QuotRemNonneg(x, 2 * k - 1);
      var a' := a[k - 1 := Rem(x, 2 * k - 1)];
      assert b[k - 1..] == a'[k - 1..];
      SameTrace(a, a', b, c, k - 1);
      SweepByTrace(a', b, c, k - 1);
    }
  }

  /** A round's table and carry, read off the result of its sweep. */
  lemma SweepFacts(a: seq<int>, b: seq<int>, q: int)
    requires |a| >= 1 && Sweep(a, |a|, 0) == (b, q)
    ensures SweptTable(a) == b[0 := Rem(q, 10)] && Carry(a) == Quot(q, 10)
  {
  }

  /** With no nines pending, a carry other than 9 and 10 releases the predigit
      alone and is held back in its place. */
  lemma SettleHold(predigit: int, q: int)
    requires q != 9 && q != 10
    ensures Settle(predigit, 0, q) == Settled([predigit], q, 0)
  {
    assert [predigit] + Repeat(9, 0) == [predigit];
  }

  /** With one nine pending, a carry other than 9 and 10 releases the predigit
      and that nine, and is held back in its place. */
  lemma SettleRelease(predigit: int, q: int)
    requires q != 9 && q != 10
    ensures Settle(predigit, 1, q) == Settled([predigit, 9], q, 0)
  {
    assert [predigit] + Repeat(9, 1) == [predigit, 9];
  }
}
