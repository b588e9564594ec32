/**
 * The `piSpigot` object of generatelines.go as an imperative class: the
 * remainder table is an array updated in place, the queue of decided digits a
 * sequence the methods reassign. Every method is proved against the value
 * model in module Spigot: `NextDigit` moves the engine from `old(Model())` to
 * the state `Spigot.Next` computes and returns the digit it computes.
 */
module SpigotEngine {
  import opened Wrappers
  import opened Spigot

  class PiSpigot {
    var a: array<int>
    var queue: seq<int>
    var nines: nat
    var predigit: int
    var started: bool

    /** The engine as a value of the model. */
    ghost function Model(): State
      reads this, a
    {
      State(a[..], queue, nines, predigit, started)
    }

    ghost predicate Valid()
      reads this, a
    {
      Inv(Model())
    }

    /** `newPiSpigot(digits)`: a table of `digits*10/3 + 1` twos, an empty queue,
        no pending nines, predigit 0, not started. */
    constructor(digits: nat)
      ensures Valid() && fresh(a)
      ensures Model() == Fresh(digits)
    {
      var size := digits * 10 / 3 + 1;
      var t := new int[size];
      var i := 0;
      while i < size
        invariant 0 <= i <= size
        invariant forall j :: 0 <= j < i ==> t[j] == 2
      {
        t[i] := 2;
        i := i + 1;
      }
      a := t;
      queue := [];
      nines := 0;
      predigit := 0;
      started := false;
      new;
      assert a[..] == Repeat(2, size);
    }

    /**
     * `NextDigit`: return the head of the queue if there is one; otherwise run
     * rounds until the leading-zero filter leaves a digit in the queue and
     * return that. The source loops without bound; here the ghost `fuel`
     * bounds the number of extra rounds, and the call is allowed whenever
     * that bound suffices (which bound is used does not change the result,
     * see `Spigot.RoundsFuelIrrelevant`).
     */
    method NextDigit(ghost fuel: nat) returns (d: int)
      requires Valid() && Next(Model(), fuel).Some?
      modifies this, a
      ensures Valid() && a == old(a)
      ensures Next(old(Model()), fuel) == Some((d, Model()))
      ensures d >= 0 && started
      ensures !old(started) ==> d != 0
      // The fast path: a queued digit is popped and nothing else changes.
      ensures old(|queue|) > 0 ==>
        d == old(queue[0]) && queue == old(queue[1..]) && a[..] == old(a[..])
        && nines == old(nines) && predigit == old(predigit) && started == old(started)
    {
      NextKeepsInv(Model(), fuel);
      if |queue| > 0 {
        d := queue[0];
        queue := queue[1..];
        return;
      }
      d := RunRounds(fuel);
    }

    /** The unbounded loop of `NextDigit` on an empty queue: rounds until one
        leaves a digit, which is popped and returned. */
    method RunRounds(ghost fuel: nat) returns (d: int)
      requires |a[..]| >= 1 && queue == [] && Rounds(Model(), fuel).Some?
      modifies this, a
      ensures a == old(a)
      ensures Rounds(old(Model()), fuel) == Some((d, Model()))
    {
      ghost var k := fuel;
      while true
        invariant a == old(a) && queue == [] && |a[..]| >= 1
        invariant Rounds(Model(), k) == Rounds(old(Model()), fuel)
        decreases k
      {
        ghost var s := Model();
        var found;
        found, d := RunRound();
        if found {
          RoundsEmits(s, k);
          return;
        }
        RoundsNeedsFuel(s, k);
        RoundsContinue(s, k);
        k := k - 1;
      }
    }

    /** One pass of the source's outer loop: sweep, settle the carry, drain.
        Returns the digit if the drain found one. */
    method RunRound() returns (found: bool, d: int)
      requires |a[..]| >= 1 && queue == []
      modifies this, a
      ensures a == old(a)
      ensures var t := Suppress(Round(old(Model())));
        if found then |t.queue| > 0 && d == t.queue[0] && Model() == Pop(t)
        else t.queue == [] && Model() == t
    {
      var q := RunSweep();
      SettleCarry(q);
      assert Model() == Round(old(Model()));
      found, d := Drain();
    }

    /** The descending sweep of one round, then the fold of its carry into entry 0:
        leaves the table `SweptTable` computes and returns the decimal carry. */
    method RunSweep() returns (q: int)
      requires a.Length >= 1
      modifies a
      ensures a[..] == SweptTable(old(a[..])) && q == Carry(old(a[..]))
    {
      ghost var a0 := a[..];
      q := 0;
      var i := a.Length - 1;
      while i >= 0
        invariant -1 <= i < a.Length
        invariant Sweep(a[..], i + 1, q) == Sweep(a0, a.Length, 0)
        decreases i
      {
        var x := 10 * a[i] + q * (i + 1);
        var den := 2 * (i + 1) - 1;
        ghost var before := a[..];
        a[i] := Rem(x, den);
        assert a[..] == before[i := Rem(x, den)];
        q := Quot(x, den);
        i := i - 1;
      }
      a[0] := Rem(q, 10);
      q := Quot(q, 10);
    }

    /** The `switch q` of a round: q = 9 defers a nine; q = 10 releases the
        predigit plus one followed by zeros for the pending nines; any other
        q releases the predigit followed by the pending nines and holds q. */
    method SettleCarry(q: int)
      modifies this
      ensures a == old(a) && started == old(started)
      ensures queue == old(queue) + Settle(old(predigit), old(nines), q).released
      ensures predigit == Settle(old(predigit), old(nines), q).predigit
      ensures nines == Settle(old(predigit), old(nines), q).nines
    {
      if q == 9 {
        nines := nines + 1;
      } else if q == 10 {
        queue := queue + [predigit + 1];
        AppendCopies(0, nines);
        predigit := 0;
        nines := 0;
      } else {
        queue := queue + [predigit];
        AppendCopies(9, nines);
        predigit := q;
        nines := 0;
      }
    }

    /** The append loop `for i := 0; i < n; i++ { queue = append(queue, v) }`. */
    method AppendCopies(v: int, n: nat)
      modifies this
      ensures a == old(a) && started == old(started)
      ensures nines == old(nines) && predigit == old(predigit)
      ensures queue == old(queue) + Repeat(v, n)
    {
      var i := 0;
      while i < n
        invariant 0 <= i <= n
        invariant a == old(a) && started == old(started)
        invariant nines == old(nines) && predigit == old(predigit)
        invariant queue == old(queue) + Repeat(v, i)
      {
        queue := queue + [v];
        i := i + 1;
      }
    }

    /** The drain loop closing a round: before the first digit was ever returned,
        zeros at the head are dropped; the first digit that survives is popped
        and returned and marks the engine started. `found` is false when the
        queue runs dry, and the state is then what the filter leaves. */
    method Drain() returns (found: bool, d: int)
      modifies this
      ensures a == old(a)
      ensures var t := Suppress(old(Model()));
        if found then |t.queue| > 0 && d == t.queue[0] && Model() == Pop(t)
        else t.queue == [] && Model() == t
    {
      ghost var s := old(Model());
      while |queue| > 0
        invariant a == old(a) && a[..] == s.a && nines == s.nines && predigit == s.predigit
        invariant started == s.started
        invariant Suppress(Model()) == Suppress(s)
        decreases |queue|
      {
        if !started && queue[0] == 0 {
          SkipOneZero(queue);
          queue := queue[1..];
          continue;
        }
        started := true;
        d := queue[0];
        queue := queue[1..];
        found := true;
        return;
      }
      found := false;
      d := 0;
    }
  }
}
