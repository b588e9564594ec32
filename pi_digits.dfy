/**
 * Concrete runs of the pi digit engine, proved by walking each round of the
 * model through the sweep recurrence (`Spigot.SweepByTrace`). For every
 * round, two lookup functions give the table the sweep leaves and the carry
 * at each position; a chain of lemmas checks the recurrence six positions
 * at a time, another settles the carry, and the per-call lemmas chain the
 * rounds into the digits that successive NextDigit calls return.
 */
module SpigotDigits {
  import opened Wrappers
  import opened Spigot

  /** Every entry of a fresh table. */
  function Two(i: int): int
  {
    2
  }

  /** The state `newPiSpigot(digits)` builds, with its table as a sequence of twos. */
  lemma FreshTwos(s: State, digits: nat)
    requires s == Fresh(digits)
    ensures s == State(seq(TableSize(digits), Two), [], 0, 0, false)
  {
    var t := seq(TableSize(digits), Two);
    assert forall i :: 0 <= i < |t| ==> s.a[i] == t[i];
  }

  // Capacity 0: the tables and carries of each round, the sweeps position by
  // position, the rounds, the calls, and the digits.

  /** The table after the sweep of round 0. */
  function Cap0Table0(i: int): int
  {
    0
  }

  /** The carries of the sweep of round 0, by position. */
  function Cap0Carries0(i: int): int
  {
    if i < 1 then
      20
    else
      0
  }

  lemma Cap0Sweep0Part0(a: seq<int>, b: seq<int>, c: seq<int>)
    requires a == seq(1, Two) && b == seq(1, Cap0Table0) && c == seq(2, Cap0Carries0)
    ensures TraceOk(a, b, c, 0, 1)
  {
  }

  lemma Cap0Sweep0(a: seq<int>, b: seq<int>, c: seq<int>)
    requires a == seq(1, Two) && b == seq(1, Cap0Table0) && c == seq(2, Cap0Carries0)
    ensures Sweep(a, 1, 0) == (b, 20)
  {
    Cap0Sweep0Part0(a, b, c);
    assert b[1..] == a[1..];
    SweepByTrace(a, b, c, 1);
  }

  lemma Cap0Settle0(s: State, b: seq<int>)
    requires |s.a| == 1 && s.queue == [] && s.nines == 0 && s.predigit == 0 && s.started == false
    requires b == seq(1, Cap0Table0) && SweptTable(s.a) == b[0 := 0] && Carry(s.a) == 2
    ensures Round(s) == State(seq(1, Cap0Table0)[0 := 0], [0], 0, 2, false)
  {
    SettleHold(0, 2);
    assert [] + [0] == [0];
  }

  lemma Cap0Round0(s: State)
    requires s == State(seq(1, Two), [], 0, 0, false)
    ensures Round(s) == State(seq(1, Cap0Table0)[0 := 0], [0], 0, 2, false)
  {
    var b, c := seq(1, Cap0Table0), seq(2, Cap0Carries0);
    Cap0Sweep0(s.a, b, c);
    SweepFacts(s.a, b, 20);
    QuotRemNonneg(20, 10);
    Cap0Settle0(s, b);
  }

  /** The table after the sweep of round 1. */
  function Cap0Table1(i: int): int
  {
    0
  }

  /** The carries of the sweep of round 1, by position. */
  function Cap0Carries1(i: int): int
  {
    if i < 1 then
      0
    else
      0
  }

  lemma Cap0Sweep1Part0(a: seq<int>, b: seq<int>, c: seq<int>)
    requires a == seq(1, Cap0Table0)[0 := 0] && b == seq(1, Cap0Table1) && c == seq(2, Cap0Carries1)
    ensures TraceOk(a, b, c, 0, 1)
  {
  }

  lemma Cap0Sweep1(a: seq<int>, b: seq<int>, c: seq<int>)
    requires a == seq(1, Cap0Table0)[0 := 0] && b == seq(1, Cap0Table1) && c == seq(2, Cap0Carries1)
    ensures Sweep(a, 1, 0) == (b, 0)
  {
    Cap0Sweep1Part0(a, b, c);
    assert b[1..] == a[1..];
    SweepByTrace(a, b, c, 1);
  }

  lemma Cap0Settle1(s: State, b: seq<int>)
    requires |s.a| == 1 && s.queue == [] && s.nines == 0 && s.predigit == 2 && s.started == false
    requires b == seq(1, Cap0Table1) && SweptTable(s.a) == b[0 := 0] && Carry(s.a) == 0
    ensures Round(s) == State(seq(1, Cap0Table1)[0 := 0], [2], 0, 0, false)
  {
    SettleHold(2, 0);
    assert [] + [2] == [2];
  }

  lemma Cap0Round1(s: State)
    requires s == State(seq(1, Cap0Table0)[0 := 0], [], 0, 2, false)
    ensures Round(s) == State(seq(1, Cap0Table1)[0 := 0], [2], 0, 0, false)
  {
    var b, c := seq(1, Cap0Table1), seq(2, Cap0Carries1);
    Cap0Sweep1(s.a, b, c);
    SweepFacts(s.a, b, 0);
    QuotRemNonneg(0, 10);
    Cap0Settle1(s, b);
  }

  lemma Cap0Next0(s: State)
    requires s == State(seq(1, Two), [], 0, 0, false)
    ensures Next(s, 1) == Some((2, State(seq(1, Cap0Table1)[0 := 0], [], 0, 0, true)))
  {
    var t := s;
    Cap0Round0(t);
    t := Suppress(Round(t));
    Cap0Round1(t);
  }

  lemma Cap0Take1(s: State, t: State, ds: seq<int>)
    requires |s.a| >= 1 && Take(s, 0, 1) == Some((ds, t))
    requires t == State(seq(1, Two), [], 0, 0, false)
    ensures Take(s, 1, 1) == Some((ds + [2], State(seq(1, Cap0Table1)[0 := 0], [], 0, 0, true)))
  {
    Cap0Next0(t);
    TakeOneMore(s, 0, 1, ds, t, 2, Next(t, 1).value.1);
  }

  lemma Cap0DigitsList()
    ensures [] + [2] == [2]
  {
  }

  /** Capacity 0 builds a one-entry table; its first digit is 2, not 3 (callers clamp the
      capacity to at least 1 before building the engine). */
  lemma Cap0Digits(s: State)
    requires s == Fresh(0)
    ensures Take(s, 1, 1).Some?
    ensures Take(s, 1, 1).value.0 == [2]
  {
    FreshTwos(s, 0);
    assert Take(s, 0, 1) == Some(([], s));
    var ds: seq<int> := [];
    Cap0Take1(s, s, ds);
    ds := ds + [2];
    Cap0DigitsList();
  }

  // Capacity 1: the tables and carries of each round, the sweeps position by
  // position, the rounds, the calls, and the digits.

  /** The table after the sweep of round 0. */
  function Cap1Table0(i: int): int
  {
    if i < 2 then
      if i < 1 then
        0
      else
        0
    else
      if i < 3 then
        1
      else
        6
  }

  /** The carries of the sweep of round 0, by position. */
  function Cap1Carries0(i: int): int
  {
    if i < 2 then
      if i < 1 then
        30
      else
        10
    else
      if i < 3 then
        5
      else
        if i < 4 then
          2
        else
          0
  }

  lemma Cap1Sweep0Part0(a: seq<int>, b: seq<int>, c: seq<int>)
    requires a == seq(4, Two) && b == seq(4, Cap1Table0) && c == seq(5, Cap1Carries0)
    ensures TraceOk(a, b, c, 0, 4)
  {
    assert TraceOk(a, b, c, 0, 1);
    assert TraceOk(a, b, c, 0, 2);
    assert TraceOk(a, b, c, 0, 3);
  }

  lemma Cap1Sweep0(a: seq<int>, b: seq<int>, c: seq<int>)
    requires a == seq(4, Two) && b == seq(4, Cap1Table0) && c == seq(5, Cap1Carries0)
    ensures Sweep(a, 4, 0) == (b, 30)
  {
    Cap1Sweep0Part0(a, b, c);
    assert b[4..] == a[4..];
    SweepByTrace(a, b, c, 4);
  }

  lemma Cap1Settle0(s: State, b: seq<int>)
    requires |s.a| == 4 && s.queue == [] && s.nines == 0 && s.predigit == 0 && s.started == false
    requires b == seq(4, Cap1Table0) && SweptTable(s.a) == b[0 := 0] && Carry(s.a) == 3
    ensures Round(s) == State(seq(4, Cap1Table0)[0 := 0], [0], 0, 3, false)
  {
    SettleHold(0, 3);
    assert [] + [0] == [0];
  }

  lemma Cap1Round0(s: State)
    requires s == State(seq(4, Two), [], 0, 0, false)
    ensures Round(s) == State(seq(4, Cap1Table0)[0 := 0], [0], 0, 3, false)
  {
    var b, c := seq(4, Cap1Table0), seq(5, Cap1Carries0);
    Cap1Sweep0(s.a, b, c);
    SweepFacts(s.a, b, 30);
    QuotRemNonneg(30, 10);
    Cap1Settle0(s, b);
  }

  /** The table after the sweep of round 1. */
  function Cap1Table1(i: int): int
  {
    if i < 2 then
      if i < 1 then
        0
      else
        0
    else
      if i < 3 then
        4
      else
        4
  }

  /** The carries of the sweep of round 1, by position. */
  function Cap1Carries1(i: int): int
  {
    if i < 2 then
      if i < 1 then
        4
      else
        4
    else
      if i < 3 then
        6
      else
        if i < 4 then
          8
        else
          0
  }

  lemma Cap1Sweep1Part0(a: seq<int>, b: seq<int>, c: seq<int>)
    requires a == seq(4, Cap1Table0)[0 := 0] && b == seq(4, Cap1Table1) && c == seq(5, Cap1Carries1)
    ensures TraceOk(a, b, c, 0, 4)
  {
    assert TraceOk(a, b, c, 0, 1);
    assert TraceOk(a, b, c, 0, 2);
    assert TraceOk(a, b, c, 0, 3);
  }

  lemma Cap1Sweep1(a: seq<int>, b: seq<int>, c: seq<int>)
    requires a == seq(4, Cap1Table0)[0 := 0] && b == seq(4, Cap1Table1) && c == seq(5, Cap1Carries1)
    ensures Sweep(a, 4, 0) == (b, 4)
  {
    Cap1Sweep1Part0(a, b, c);
    assert b[4..] == a[4..];
    SweepByTrace(a, b, c, 4);
  }

  lemma Cap1Settle1(s: State, b: seq<int>)
    requires |s.a| == 4 && s.queue == [] && s.nines == 0 && s.predigit == 3 && s.started == false
    requires b == seq(4, Cap1Table1) && SweptTable(s.a) == b[0 := 4] && Carry(s.a) == 0
    ensures Round(s) == State(seq(4, Cap1Table1)[0 := 4], [3], 0, 0, false)
  {
    SettleHold(3, 0);
    assert [] + [3] == [3];
  }

  lemma Cap1Round1(s: State)
    requires s == State(seq(4, Cap1Table0)[0 := 0], [], 0, 3, false)
    ensures Round(s) == State(seq(4, Cap1Table1)[0 := 4], [3], 0, 0, false)
  {
    var b, c := seq(4, Cap1Table1), seq(5, Cap1Carries1);
    Cap1Sweep1(s.a, b, c);
    SweepFacts(s.a, b, 4);
    QuotRemNonneg(4, 10);
    Cap1Settle1(s, b);
  }

  lemma Cap1Next0(s: State)
    requires s == State(seq(4, Two), [], 0, 0, false)
    ensures Next(s, 1) == Some((3, State(seq(4, Cap1Table1)[0 := 4], [], 0, 0, true)))
  {
    var t := s;
    Cap1Round0(t);
    t := Suppress(Round(t));
    Cap1Round1(t);
  }

  lemma Cap1Take1(s: State, t: State, ds: seq<int>)
    requires |s.a| >= 1 && Take(s, 0, 1) == Some((ds, t))
    requires t == State(seq(4, Two), [], 0, 0, false)
    ensures Take(s, 1, 1) == Some((ds + [3], State(seq(4, Cap1Table1)[0 := 4], [], 0, 0, true)))
  {
    Cap1Next0(t);
    TakeOneMore(s, 0, 1, ds, t, 3, Next(t, 1).value.1);
  }

  lemma Cap1DigitsList()
    ensures [] + [3] == [3]
  {
  }

  /** Capacity 1 (a four-entry table) yields the leading 3. */
  lemma Cap1Digits(s: State)
    requires s == Fresh(1)
    ensures Take(s, 1, 1).Some?
    ensures Take(s, 1, 1).value.0 == [3]
  {
    FreshTwos(s, 1);
    assert Take(s, 0, 1) == Some(([], s));
    var ds: seq<int> := [];
    Cap1Take1(s, s, ds);
    ds := ds + [3];
    Cap1DigitsList();
  }

  // Capacity 16: the tables and carries of each round, the sweeps position by
  // position, the rounds, the calls, and the digits.

  /** The table after the sweep of round 0. */
  function Cap16Table0(i: int): int
  {
    if i < 27 then
      if i < 13 then
        if i < 6 then
          if i < 3 then
            if i < 1 then
              0
            else
              if i < 2 then
                2
              else
                2
          else
            if i < 4 then
              4
            else
              if i < 5 then
                3
              else
                10
        else
          if i < 9 then
            if i < 7 then
              1
            else
              if i < 8 then
                13
              else
                12
          else
            if i < 11 then
              if i < 10 then
                1
              else
                20
            else
              if i < 12 then
                20
              else
                20
      else
        if i < 20 then
          if i < 16 then
            if i < 14 then
              20
            else
              if i < 15 then
                20
              else
                20
          else
            if i < 18 then
              if i < 17 then
                20
              else
                20
            else
              if i < 19 then
                20
              else
                20
        else
          if i < 23 then
            if i < 21 then
              20
            else
              if i < 22 then
                20
              else
                20
          else
            if i < 25 then
              if i < 24 then
                20
              else
                20
            else
              if i < 26 then
                20
              else
                20
    else
      if i < 40 then
        if i < 33 then
          if i < 30 then
            if i < 28 then
              20
            else
              if i < 29 then
                20
              else
                20
          else
            if i < 31 then
              20
            else
              if i < 32 then
                20
              else
                20
        else
          if i < 36 then
            if i < 34 then
              20
            else
              if i < 35 then
                20
              else
                20
          else
            if i < 38 then
              if i < 37 then
                20
              else
                20
            else
              if i < 39 then
                20
              else
                20
      else
        if i < 47 then
          if i < 43 then
            if i < 41 then
              20
            else
              if i < 42 then
                20
              else
                20
          else
            if i < 45 then
              if i < 44 then
                20
              else
                20
            else
              if i < 46 then
                20
              else
                20
        else
          if i < 50 then
            if i < 48 then
              20
            else
              if i < 49 then
                20
              else
                20
          else
            if i < 52 then
              if i < 51 then
                20
              else
                20
            else
              if i < 53 then
                20
              else
                20
  }

  /** The carries of the sweep of round 0, by position. */
  function Cap16Carries0(i: int): int
  {
    if i < 27 then
      if i < 13 then
        if i < 6 then
          if i < 3 then
            if i < 1 then
              30
            else
              if i < 2 then
                10
              else
                6
          else
            if i < 4 then
              4
            else
              if i < 5 then
                3
              else
                2
        else
          if i < 9 then
            if i < 7 then
              2
            else
              if i < 8 then
                1
              else
                1
          else
            if i < 11 then
              if i < 10 then
                1
              else
                0
            else
              if i < 12 then
                0
              else
                0
      else
        if i < 20 then
          if i < 16 then
            if i < 14 then
              0
            else
              if i < 15 then
                0
              else
                0
          else
            if i < 18 then
              if i < 17 then
                0
              else
                0
            else
              if i < 19 then
                0
              else
                0
        else
          if i < 23 then
            if i < 21 then
              0
            else
              if i < 22 then
                0
              else
                0
          else
            if i < 25 then
              if i < 24 then
                0
              else
                0
            else
              if i < 26 then
                0
              else
                0
    else
      if i < 41 then
        if i < 34 then
          if i < 30 then
            if i < 28 then
              0
            else
              if i < 29 then
                0
              else
                0
          else
            if i < 32 then
              if i < 31 then
                0
              else
                0
            else
              if i < 33 then
                0
              else
                0
        else
          if i < 37 then
            if i < 35 then
              0
            else
              if i < 36 then
                0
              else
                0
          else
            if i < 39 then
              if i < 38 then
                0
              else
                0
            else
              if i < 40 then
                0
              else
                0
      else
        if i < 48 then
          if i < 44 then
            if i < 42 then
              0
            else
              if i < 43 then
                0
              else
                0
          else
            if i < 46 then
              if i < 45 then
                0
              else
                0
            else
              if i < 47 then
                0
              else
                0
        else
          if i < 51 then
            if i < 49 then
              0
            else
              if i < 50 then
                0
              else
                0
          else
            if i < 53 then
              if i < 52 then
                0
              else
                0
            else
              if i < 54 then
                0
              else
                0
  }

  lemma Cap16Sweep0Part0(a: seq<int>, b: seq<int>, c: seq<int>)
    requires a == seq(54, Two) && b == seq(54, Cap16Table0) && c == seq(55, Cap16Carries0)
    ensures TraceOk(a, b, c, 0, 6)
  {
    assert TraceOk(a, b, c, 0, 1);
    assert TraceOk(a, b, c, 0, 2);
    assert TraceOk(a, b, c, 0, 3);
    assert TraceOk(a, b, c, 0, 4);
    assert TraceOk(a, b, c, 0, 5);
  }

  lemma Cap16Sweep0Part1(a: seq<int>, b: seq<int>, c: seq<int>)
    requires a == seq(54, Two) && b == seq(54, Cap16Table0) && c == seq(55, Cap16Carries0)
    ensures TraceOk(a, b, c, 6, 12)
  {
    assert TraceOk(a, b, c, 6, 7);
    assert TraceOk(a, b, c, 6, 8);
    assert TraceOk(a, b, c, 6, 9);
    assert TraceOk(a, b, c, 6, 10);
    assert TraceOk(a, b, c, 6, 11);
  }

  lemma Cap16Sweep0Upto1(a: seq<int>, b: seq<int>, c: seq<int>)
    requires a == seq(54, Two) && b == seq(54, Cap16Table0) && c == seq(55, Cap16Carries0)
    ensures TraceOk(a, b, c, 0, 12)
  {
    Cap16Sweep0Part0(a, b, c);
    Cap16Sweep0Part1(a, b, c);
    TraceJoin(a, b, c, 0, 6, 12);
  }

  lemma Cap16Sweep0Part2(a: seq<int>, b: seq<int>, c: seq<int>)
    requires a == seq(54, Two) && b == seq(54, Cap16Table0) && c == seq(55, Cap16Carries0)
    ensures TraceOk(a, b, c, 12, 18)
  {
    assert TraceOk(a, b, c, 12, 13);
    assert TraceOk(a, b, c, 12, 14);
    assert TraceOk(a, b, c, 12, 15);
    assert TraceOk(a, b, c, 12, 16);
    assert TraceOk(a, b, c, 12, 17);
  }

  lemma Cap16Sweep0Upto2(a: seq<int>, b: seq<int>, c: seq<int>)
    requires a == seq(54, Two) && b == seq(54, Cap16Table0) && c == seq(55, Cap16Carries0)
    ensures TraceOk(a, b, c, 0, 18)
  {
    Cap16Sweep0Upto1(a, b, c);
    Cap16Sweep0Part2(a, b, c);
    TraceJoin(a, b, c, 0, 12, 18);
  }

  lemma Cap16Sweep0Part3(a: seq<int>, b: seq<int>, c: seq<int>)
    requires a == seq(54, Two) && b == seq(54, Cap16Table0) && c == seq(55, Cap16Carries0)
    ensures TraceOk(a, b, c, 18, 24)
  {
    assert TraceOk(a, b, c, 18, 19);
    assert TraceOk(a, b, c, 18, 20);
    assert TraceOk(a, b, c, 18, 21);
    assert TraceOk(a, b, c, 18, 22);
    assert TraceOk(a, b, c, 18, 23);
  }

  lemma Cap16Sweep0Upto3(a: seq<int>, b: seq<int>, c: seq<int>)
    requires a == seq(54, Two) && b == seq(54, Cap16Table0) && c == seq(55, Cap16Carries0)
    ensures TraceOk(a, b, c, 0, 24)
  {
    Cap16Sweep0Upto2(a, b, c);
    Cap16Sweep0Part3(a, b, c);
    TraceJoin(a, b, c, 0, 18, 24);
  }

  lemma Cap16Sweep0Part4(a: seq<int>, b: seq<int>, c: seq<int>)
    requires a == seq(54, Two) && b == seq(54, Cap16Table0) && c == seq(55, Cap16Carries0)
    ensures TraceOk(a, b, c, 24, 30)
  {
    assert TraceOk(a, b, c, 24, 25);
    assert TraceOk(a, b, c, 24, 26);
    assert TraceOk(a, b, c, 24, 27);
    assert TraceOk(a, b, c, 24, 28);
    assert TraceOk(a, b, c, 24, 29);
  }

  lemma Cap16Sweep0Upto4(a: seq<int>, b: seq<int>, c: seq<int>)
    requires a == seq(54, Two) && b == seq(54, Cap16Table0) && c == seq(55, Cap16Carries0)
    ensures TraceOk(a, b, c, 0, 30)
  {
    Cap16Sweep0Upto3(a, b, c);
    Cap16Sweep0Part4(a, b, c);
    TraceJoin(a, b, c, 0, 24, 30);
  }

  lemma Cap16Sweep0Part5(a: seq<int>, b: seq<int>, c: seq<int>)
    requires a == seq(54, Two) && b == seq(54, Cap16Table0) && c == seq(55, Cap16Carries0)
    ensures TraceOk(a, b, c, 30, 36)
  {
    assert TraceOk(a, b, c, 30, 31);
    assert TraceOk(a, b, c, 30, 32);
    assert TraceOk(a, b, c, 30, 33);
    assert TraceOk(a, b, c, 30, 34);
    assert TraceOk(a, b, c, 30, 35);
  }

  lemma Cap16Sweep0Upto5(a: seq<int>, b: seq<int>, c: seq<int>)
    requires a == seq(54, Two) && b == seq(54, Cap16Table0) && c == seq(55, Cap16Carries0)
    ensures TraceOk(a, b, c, 0, 36)
  {
    Cap16Sweep0Upto4(a, b, c);
    Cap16Sweep0Part5(a, b, c);
    TraceJoin(a, b, c, 0, 30, 36);
  }

  lemma Cap16Sweep0Part6(a: seq<int>, b: seq<int>, c: seq<int>)
    requires a == seq(54, Two) && b == seq(54, Cap16Table0) && c == seq(55, Cap16Carries0)
    ensures TraceOk(a, b, c, 36, 42)
  {
    assert TraceOk(a, b, c, 36, 37);
    assert TraceOk(a, b, c, 36, 38);
    assert TraceOk(a, b, c, 36, 39);
    assert TraceOk(a, b, c, 36, 40);
    assert TraceOk(a, b, c, 36, 41);
  }

  lemma Cap16Sweep0Upto6(a: seq<int>, b: seq<int>, c: seq<int>)
    requires a == seq(54, Two) && b == seq(54, Cap16Table0) && c == seq(55, Cap16Carries0)
    ensures TraceOk(a, b, c, 0, 42)
  {
    Cap16Sweep0Upto5(a, b, c);
    Cap16Sweep0Part6(a, b, c);
    TraceJoin(a, b, c, 0, 36, 42);
  }

  lemma Cap16Sweep0Part7(a: seq<int>, b: seq<int>, c: seq<int>)
    requires a == seq(54, Two) && b == seq(54, Cap16Table0) && c == seq(55, Cap16Carries0)
    ensures TraceOk(a, b, c, 42, 48)
  {
    assert TraceOk(a, b, c, 42, 43);
    assert TraceOk(a, b, c, 42, 44);
    assert TraceOk(a, b, c, 42, 45);
    assert TraceOk(a, b, c, 42, 46);
    assert TraceOk(a, b, c, 42, 47);
  }

  lemma Cap16Sweep0Upto7(a: seq<int>, b: seq<int>, c: seq<int>)
    requires a == seq(54, Two) && b == seq(54, Cap16Table0) && c == seq(55, Cap16Carries0)
    ensures TraceOk(a, b, c, 0, 48)
  {
    Cap16Sweep0Upto6(a, b, c);
    Cap16Sweep0Part7(a, b, c);
    TraceJoin(a, b, c, 0, 42, 48);
  }

  lemma Cap16Sweep0Part8(a: seq<int>, b: seq<int>, c: seq<int>)
    requires a == seq(54, Two) && b == seq(54, Cap16Table0) && c == seq(55, Cap16Carries0)
    ensures TraceOk(a, b, c, 48, 54)
  {
    assert TraceOk(a, b, c, 48, 49);
    assert TraceOk(a, b, c, 48, 50);
    assert TraceOk(a, b, c, 48, 51);
    assert TraceOk(a, b, c, 48, 52);
    assert TraceOk(a, b, c, 48, 53);
  }

  lemma Cap16Sweep0Upto8(a: seq<int>, b: seq<int>, c: seq<int>)
    requires a == seq(54, Two) && b == seq(54, Cap16Table0) && c == seq(55, Cap16Carries0)
    ensures TraceOk(a, b, c, 0, 54)
  {
    Cap16Sweep0Upto7(a, b, c);
    Cap16Sweep0Part8(a, b, c);
    TraceJoin(a, b, c, 0, 48, 54);
  }

  lemma Cap16Sweep0(a: seq<int>, b: seq<int>, c: seq<int>)
    requires a == seq(54, Two) && b == seq(54, Cap16Table0) && c == seq(55, Cap16Carries0)
    ensures Sweep(a, 54, 0) == (b, 30)
  {
    Cap16Sweep0Upto8(a, b, c);
    assert b[54..] == a[54..];
    SweepByTrace(a, b, c, 54);
  }

  lemma Cap16Settle0(s: State, b: seq<int>)
    requires |s.a| == 54 && s.queue == [] && s.nines == 0 && s.predigit == 0 && s.started == false
    requires b == seq(54, Cap16Table0) && SweptTable(s.a) == b[0 := 0] && Carry(s.a) == 3
    ensures Round(s) == State(seq(54, Cap16Table0)[0 := 0], [0], 0, 3, false)
  {
    SettleHold(0, 3);
    assert [] + [0] == [0];
  }

  lemma Cap16Round0(s: State)
    requires s == State(seq(54, Two), [], 0, 0, false)
    ensures Round(s) == State(seq(54, Cap16Table0)[0 := 0], [0], 0, 3, false)
  {
    var b, c := seq(54, Cap16Table0), seq(55, Cap16Carries0);
    Cap16Sweep0(s.a, b, c);
    SweepFacts(s.a, b, 30);
    QuotRemNonneg(30, 10);
    Cap16Settle0(s, b);
  }

  /** The table after the sweep of round 1. */
  function Cap16Table1(i: int): int
  {
    if i < 27 then
      if i < 13 then
        if i < 6 then
          if i < 3 then
            if i < 1 then
              0
            else
              if i < 2 then
                1
              else
                3
          else
            if i < 4 then
              3
            else
              if i < 5 then
                5
              else
                5
        else
          if i < 9 then
            if i < 7 then
              4
            else
              if i < 8 then
                8
              else
                14
          else
            if i < 11 then
              if i < 10 then
                9
              else
                19
            else
              if i < 12 then
                12
              else
                7
      else
        if i < 20 then
          if i < 16 then
            if i < 14 then
              4
            else
              if i < 15 then
                3
              else
                4
          else
            if i < 18 then
              if i < 17 then
                7
              else
                30
            else
              if i < 19 then
                1
              else
                9
        else
          if i < 23 then
            if i < 21 then
              40
            else
              if i < 22 then
                32
              else
                1
          else
            if i < 25 then
              if i < 24 then
                39
              else
                7
            else
              if i < 26 then
                50
              else
                44
    else
      if i < 40 then
        if i < 33 then
          if i < 30 then
            if i < 28 then
              38
            else
              if i < 29 then
                3
              else
                55
          else
            if i < 31 then
              50
            else
              if i < 32 then
                45
              else
                40
        else
          if i < 36 then
            if i < 34 then
              1
            else
              if i < 35 then
                64
              else
                60
          else
            if i < 38 then
              if i < 37 then
                56
              else
                52
            else
              if i < 39 then
                48
              else
                4
      else
        if i < 47 then
          if i < 43 then
            if i < 41 then
              80
            else
              if i < 42 then
                77
              else
                74
          else
            if i < 45 then
              if i < 44 then
                71
              else
                68
            else
              if i < 46 then
                65
              else
                62
        else
          if i < 50 then
            if i < 48 then
              59
            else
              if i < 49 then
                56
              else
                3
          else
            if i < 52 then
              if i < 51 then
                100
              else
                98
            else
              if i < 53 then
                43
              else
                93
  }

  /** The carries of the sweep of round 1, by position. */
  function Cap16Carries1(i: int): int
  {
    if i < 27 then
      if i < 13 then
        if i < 6 then
          if i < 3 then
            if i < 1 then
              13
            else
              if i < 2 then
                13
              else
                10
          else
            if i < 4 then
              11
            else
              if i < 5 then
                10
              else
                13
        else
          if i < 9 then
            if i < 7 then
              8
            else
              if i < 8 then
                14
              else
                11
          else
            if i < 11 then
              if i < 10 then
                9
              else
                17
            else
              if i < 12 then
                16
              else
                15
      else
        if i < 20 then
          if i < 16 then
            if i < 14 then
              14
            else
              if i < 15 then
                13
              else
                12
          else
            if i < 18 then
              if i < 17 then
                11
              else
                10
            else
              if i < 19 then
                10
              else
                9
        else
          if i < 23 then
            if i < 21 then
              8
            else
              if i < 22 then
                8
              else
                8
          else
            if i < 25 then
              if i < 24 then
                7
              else
                7
            else
              if i < 26 then
                6
              else
                6
    else
      if i < 41 then
        if i < 34 then
          if i < 30 then
            if i < 28 then
              6
            else
              if i < 29 then
                6
              else
                5
          else
            if i < 32 then
              if i < 31 then
                5
              else
                5
            else
              if i < 33 then
                5
              else
                5
        else
          if i < 37 then
            if i < 35 then
              4
            else
              if i < 36 then
                4
              else
                4
          else
            if i < 39 then
              if i < 38 then
                4
              else
                4
            else
              if i < 40 then
                4
              else
                3
      else
        if i < 48 then
          if i < 44 then
            if i < 42 then
              3
            else
              if i < 43 then
                3
              else
                3
          else
            if i < 46 then
              if i < 45 then
                3
              else
                3
            else
              if i < 47 then
                3
              else
                3
        else
          if i < 51 then
            if i < 49 then
              3
            else
              if i < 50 then
                3
              else
                2
          else
            if i < 53 then
              if i < 52 then
                2
              else
                2
            else
              if i < 54 then
                1
              else
                0
  }

  lemma Cap16Sweep1Part0(a: seq<int>, b: seq<int>, c: seq<int>)
    requires a == seq(54, Cap16Table0)[0 := 0] && b == seq(54, Cap16Table1) && c == seq(55, Cap16Carries1)
    ensures TraceOk(a, b, c, 0, 6)
  {
    assert TraceOk(a, b, c, 0, 1);
    assert TraceOk(a, b, c, 0, 2);
    assert TraceOk(a, b, c, 0, 3);
    assert TraceOk(a, b, c, 0, 4);
    assert TraceOk(a, b, c, 0, 5);
  }

  lemma Cap16Sweep1Part1(a: seq<int>, b: seq<int>, c: seq<int>)
    requires a == seq(54, Cap16Table0)[0 := 0] && b == seq(54, Cap16Table1) && c == seq(55, Cap16Carries1)
    ensures TraceOk(a, b, c, 6, 12)
  {
    assert TraceOk(a, b, c, 6, 7);
    assert TraceOk(a, b, c, 6, 8);
    assert TraceOk(a, b, c, 6, 9);
    assert TraceOk(a, b, c, 6, 10);
    assert TraceOk(a, b, c, 6, 11);
  }

  lemma Cap16Sweep1Upto1(a: seq<int>, b: seq<int>, c: seq<int>)
    requires a == seq(54, Cap16Table0)[0 := 0] && b == seq(54, Cap16Table1) && c == seq(55, Cap16Carries1)
    ensures TraceOk(a, b, c, 0, 12)
  {
    Cap16Sweep1Part0(a, b, c);
    Cap16Sweep1Part1(a, b, c);
    TraceJoin(a, b, c, 0, 6, 12);
  }

  lemma Cap16Sweep1Part2(a: seq<int>, b: seq<int>, c: seq<int>)
    requires a == seq(54, Cap16Table0)[0 := 0] && b == seq(54, Cap16Table1) && c == seq(55, Cap16Carries1)
    ensures TraceOk(a, b, c, 12, 18)
  {
    assert TraceOk(a, b, c, 12, 13);
    assert TraceOk(a, b, c, 12, 14);
    assert TraceOk(a, b, c, 12, 15);
    assert TraceOk(a, b, c, 12, 16);
    assert TraceOk(a, b, c, 12, 17);
  }

  lemma Cap16Sweep1Upto2(a: seq<int>, b: seq<int>, c: seq<int>)
    requires a == seq(54, Cap16Table0)[0 := 0] && b == seq(54, Cap16Table1) && c == seq(55, Cap16Carries1)
    ensures TraceOk(a, b, c, 0, 18)
  {
    Cap16Sweep1Upto1(a, b, c);
    Cap16Sweep1Part2(a, b, c);
    TraceJoin(a, b, c, 0, 12, 18);
  }

  lemma Cap16Sweep1Part3(a: seq<int>, b: seq<int>, c: seq<int>)
    requires a == seq(54, Cap16Table0)[0 := 0] && b == seq(54, Cap16Table1) && c == seq(55, Cap16Carries1)
    ensures TraceOk(a, b, c, 18, 24)
  {
    assert TraceOk(a, b, c, 18, 19);
    assert TraceOk(a, b, c, 18, 20);
    assert TraceOk(a, b, c, 18, 21);
    assert TraceOk(a, b, c, 18, 22);
    assert TraceOk(a, b, c, 18, 23);
  }

  lemma Cap16Sweep1Upto3(a: seq<int>, b: seq<int>, c: seq<int>)
    requires a == seq(54, Cap16Table0)[0 := 0] && b == seq(54, Cap16Table1) && c == seq(55, Cap16Carries1)
    ensures TraceOk(a, b, c, 0, 24)
  {
    Cap16Sweep1Upto2(a, b, c);
    Cap16Sweep1Part3(a, b, c);
    TraceJoin(a, b, c, 0, 18, 24);
  }

  lemma Cap16Sweep1Part4(a: seq<int>, b: seq<int>, c: seq<int>)
    requires a == seq(54, Cap16Table0)[0 := 0] && b == seq(54, Cap16Table1) && c == seq(55, Cap16Carries1)
    ensures TraceOk(a, b, c, 24, 30)
  {
    assert TraceOk(a, b, c, 24, 25);
    assert TraceOk(a, b, c, 24, 26);
    assert TraceOk(a, b, c, 24, 27);
    assert TraceOk(a, b, c, 24, 28);
    assert TraceOk(a, b, c, 24, 29);
  }

  lemma Cap16Sweep1Upto4(a: seq<int>, b: seq<int>, c: seq<int>)
    requires a == seq(54, Cap16Table0)[0 := 0] && b == seq(54, Cap16Table1) && c == seq(55, Cap16Carries1)
    ensures TraceOk(a, b, c, 0, 30)
  {
    Cap16Sweep1Upto3(a, b, c);
    Cap16Sweep1Part4(a, b, c);
    TraceJoin(a, b, c, 0, 24, 30);
  }

  lemma Cap16Sweep1Part5(a: seq<int>, b: seq<int>, c: seq<int>)
    requires a == seq(54, Cap16Table0)[0 := 0] && b == seq(54, Cap16Table1) && c == seq(55, Cap16Carries1)
    ensures TraceOk(a, b, c, 30, 36)
  {
    assert TraceOk(a, b, c, 30, 31);
    assert TraceOk(a, b, c, 30, 32);
    assert TraceOk(a, b, c, 30, 33);
    assert TraceOk(a, b, c, 30, 34);
    assert TraceOk(a, b, c, 30, 35);
  }

  lemma Cap16Sweep1Upto5(a: seq<int>, b: seq<int>, c: seq<int>)
    requires a == seq(54, Cap16Table0)[0 := 0] && b == seq(54, Cap16Table1) && c == seq(55, Cap16Carries1)
    ensures TraceOk(a, b, c, 0, 36)
  {
    Cap16Sweep1Upto4(a, b, c);
    Cap16Sweep1Part5(a, b, c);
    TraceJoin(a, b, c, 0, 30, 36);
  }

  lemma Cap16Sweep1Part6(a: seq<int>, b: seq<int>, c: seq<int>)
    requires a == seq(54, Cap16Table0)[0 := 0] && b == seq(54, Cap16Table1) && c == seq(55, Cap16Carries1)
    ensures TraceOk(a, b, c, 36, 42)
  {
    assert TraceOk(a, b, c, 36, 37);
    assert TraceOk(a, b, c, 36, 38);
    assert TraceOk(a, b, c, 36, 39);
    assert TraceOk(a, b, c, 36, 40);
    assert TraceOk(a, b, c, 36, 41);
  }

  lemma Cap16Sweep1Upto6(a: seq<int>, b: seq<int>, c: seq<int>)
    requires a == seq(54, Cap16Table0)[0 := 0] && b == seq(54, Cap16Table1) && c == seq(55, Cap16Carries1)
    ensures TraceOk(a, b, c, 0, 42)
  {
    Cap16Sweep1Upto5(a, b, c);
    Cap16Sweep1Part6(a, b, c);
    TraceJoin(a, b, c, 0, 36, 42);
  }

  lemma Cap16Sweep1Part7(a: seq<int>, b: seq<int>, c: seq<int>)
    requires a == seq(54, Cap16Table0)[0 := 0] && b == seq(54, Cap16Table1) && c == seq(55, Cap16Carries1)
    ensures TraceOk(a, b, c, 42, 48)
  {
    assert TraceOk(a, b, c, 42, 43);
    assert TraceOk(a, b, c, 42, 44);
    assert TraceOk(a, b, c, 42, 45);
    assert TraceOk(a, b, c, 42, 46);
    assert TraceOk(a, b, c, 42, 47);
  }

  lemma Cap16Sweep1Upto7(a: seq<int>, b: seq<int>, c: seq<int>)
    requires a == seq(54, Cap16Table0)[0 := 0] && b == seq(54, Cap16Table1) && c == seq(55, Cap16Carries1)
    ensures TraceOk(a, b, c, 0, 48)
  {
    Cap16Sweep1Upto6(a, b, c);
    Cap16Sweep1Part7(a, b, c);
    TraceJoin(a, b, c, 0, 42, 48);
  }

  lemma Cap16Sweep1Part8(a: seq<int>, b: seq<int>, c: seq<int>)
    requires a == seq(54, Cap16Table0)[0 := 0] && b == seq(54, Cap16Table1) && c == seq(55, Cap16Carries1)
    ensures TraceOk(a, b, c, 48, 54)
  {
    assert TraceOk(a, b, c, 48, 49);
    assert TraceOk(a, b, c, 48, 50);
    assert TraceOk(a, b, c, 48, 51);
    assert TraceOk(a, b, c, 48, 52);
    assert TraceOk(a, b, c, 48, 53);
  }

  lemma Cap16Sweep1Upto8(a: seq<int>, b: seq<int>, c: seq<int>)
    requires a == seq(54, Cap16Table0)[0 := 0] && b == seq(54, Cap16Table1) && c == seq(55, Cap16Carries1)
    ensures TraceOk(a, b, c, 0, 54)
  {
    Cap16Sweep1Upto7(a, b, c);
    Cap16Sweep1Part8(a, b, c);
    TraceJoin(a, b, c, 0, 48, 54);
  }

  lemma Cap16Sweep1(a: seq<int>, b: seq<int>, c: seq<int>)
    requires a == seq(54, Cap16Table0)[0 := 0] && b == seq(54, Cap16Table1) && c == seq(55, Cap16Carries1)
    ensures Sweep(a, 54, 0) == (b, 13)
  {
    Cap16Sweep1Upto8(a, b, c);
    assert b[54..] == a[54..];
    SweepByTrace(a, b, c, 54);
  }

  lemma Cap16Settle1(s: State, b: seq<int>)
    requires |s.a| == 54 && s.queue == [] && s.nines == 0 && s.predigit == 3 && s.started == false
    requires b == seq(54, Cap16Table1) && SweptTable(s.a) == b[0 := 3] && Carry(s.a) == 1
    ensures Round(s) == State(seq(54, Cap16Table1)[0 := 3], [3], 0, 1, false)
  {
    SettleHold(3, 1);
    assert [] + [3] == [3];
  }

  lemma Cap16Round1(s: State)
    requires s == State(seq(54, Cap16Table0)[0 := 0], [], 0, 3, false)
    ensures Round(s) == State(seq(54, Cap16Table1)[0 := 3], [3], 0, 1, false)
  {
    var b, c := seq(54, Cap16Table1), seq(55, Cap16Carries1);
    Cap16Sweep1(s.a, b, c);
    SweepFacts(s.a, b, 13);
    QuotRemNonneg(13, 10);
    Cap16Settle1(s, b);
  }

  lemma Cap16Next0(s: State)
    requires s == State(seq(54, Two), [], 0, 0, false)
    ensures Next(s, 1) == Some((3, State(seq(54, Cap16Table1)[0 := 3], [], 0, 1, true)))
  {
    var t := s;
    Cap16Round0(t);
    t := Suppress(Round(t));
    Cap16Round1(t);
  }

  /** The table after the sweep of round 2. */
  function Cap16Table2(i: int): int
  {
    if i < 27 then
      if i < 13 then
        if i < 6 then
          if i < 3 then
            if i < 1 then
              0
            else
              if i < 2 then
                1
              else
                0
          else
            if i < 4 then
              0
            else
              if i < 5 then
                5
              else
                5
        else
          if i < 9 then
            if i < 7 then
              7
            else
              if i < 8 then
                12
              else
                1
          else
            if i < 11 then
              if i < 10 then
                1
              else
                15
            else
              if i < 12 then
                7
              else
                9
      else
        if i < 20 then
          if i < 16 then
            if i < 14 then
              1
            else
              if i < 15 then
                3
              else
                28
          else
            if i < 18 then
              if i < 17 then
                9
              else
                22
            else
              if i < 19 then
                33
              else
                19
        else
          if i < 23 then
            if i < 21 then
              36
            else
              if i < 22 then
                22
              else
                16
          else
            if i < 25 then
              if i < 24 then
                42
              else
                29
            else
              if i < 26 then
                22
              else
                21
    else
      if i < 40 then
        if i < 33 then
          if i < 30 then
            if i < 28 then
              54
            else
              if i < 29 then
                38
              else
                26
          else
            if i < 31 then
              18
            else
              if i < 32 then
                14
              else
                14
        else
          if i < 36 then
            if i < 34 then
              18
            else
              if i < 35 then
                61
              else
                3
          else
            if i < 38 then
              if i < 37 then
                55
              else
                0
            else
              if i < 39 then
                61
              else
                9
      else
        if i < 47 then
          if i < 43 then
            if i < 41 then
              79
            else
              if i < 42 then
                72
              else
                67
          else
            if i < 45 then
              if i < 44 then
                64
              else
                63
            else
              if i < 46 then
                64
              else
                67
        else
          if i < 50 then
            if i < 48 then
              72
            else
              if i < 49 then
                79
              else
                38
          else
            if i < 52 then
              if i < 51 then
                47
              else
                57
            else
              if i < 53 then
                14
              else
                74
  }

  /** The carries of the sweep of round 2, by position. */
  function Cap16Carries2(i: int): int
  {
    if i < 27 then
      if i < 13 then
        if i < 6 then
          if i < 3 then
            if i < 1 then
              41
            else
              if i < 2 then
                11
              else
                12
          else
            if i < 4 then
              10
            else
              if i < 5 then
                10
              else
                9
        else
          if i < 9 then
            if i < 7 then
              9
            else
              if i < 8 then
                12
              else
                14
          else
            if i < 11 then
              if i < 10 then
                11
              else
                12
            else
              if i < 12 then
                7
              else
                4
      else
        if i < 20 then
          if i < 16 then
            if i < 14 then
              3
            else
              if i < 15 then
                3
              else
                4
          else
            if i < 18 then
              if i < 17 then
                7
              else
                10
            else
              if i < 19 then
                4
              else
                9
        else
          if i < 23 then
            if i < 21 then
              14
            else
              if i < 22 then
                10
              else
                6
          else
            if i < 25 then
              if i < 24 then
                12
              else
                9
            else
              if i < 26 then
                16
              else
                13
    else
      if i < 41 then
        if i < 34 then
          if i < 30 then
            if i < 28 then
              10
            else
              if i < 29 then
                8
              else
                16
          else
            if i < 32 then
              if i < 31 then
                14
              else
                12
            else
              if i < 33 then
                10
              else
                8
        else
          if i < 37 then
            if i < 35 then
              16
            else
              if i < 36 then
                15
              else
                13
          else
            if i < 39 then
              if i < 38 then
                12
              else
                10
            else
              if i < 40 then
                9
              else
                17
      else
        if i < 48 then
          if i < 44 then
            if i < 42 then
              16
            else
              if i < 43 then
                15
              else
                14
          else
            if i < 46 then
              if i < 45 then
                13
              else
                12
            else
              if i < 47 then
                11
              else
                10
        else
          if i < 51 then
            if i < 49 then
              9
            else
              if i < 50 then
                8
              else
                16
          else
            if i < 53 then
              if i < 52 then
                13
              else
                8
            else
              if i < 54 then
                8
              else
                0
  }

  lemma Cap16Sweep2Part0(a: seq<int>, b: seq<int>, c: seq<int>)
    requires a == seq(54, Cap16Table1)[0 := 3] && b == seq(54, Cap16Table2) && c == seq(55, Cap16Carries2)
    ensures TraceOk(a, b, c, 0, 6)
  {
    assert TraceOk(a, b, c, 0, 1);
    assert TraceOk(a, b, c, 0, 2);
    assert TraceOk(a, b, c, 0, 3);
    assert TraceOk(a, b, c, 0, 4);
    assert TraceOk(a, b, c, 0, 5);
  }

  lemma Cap16Sweep2Part1(a: seq<int>, b: seq<int>, c: seq<int>)
    requires a == seq(54, Cap16Table1)[0 := 3] && b == seq(54, Cap16Table2) && c == seq(55, Cap16Carries2)
    ensures TraceOk(a, b, c, 6, 12)
  {
    assert TraceOk(a, b, c, 6, 7);
    assert TraceOk(a, b, c, 6, 8);
    assert TraceOk(a, b, c, 6, 9);
    assert TraceOk(a, b, c, 6, 10);
    assert TraceOk(a, b, c, 6, 11);
  }

  lemma Cap16Sweep2Upto1(a: seq<int>, b: seq<int>, c: seq<int>)
    requires a == seq(54, Cap16Table1)[0 := 3] && b == seq(54, Cap16Table2) && c == seq(55, Cap16Carries2)
    ensures TraceOk(a, b, c, 0, 12)
  {
    Cap16Sweep2Part0(a, b, c);
    Cap16Sweep2Part1(a, b, c);
    TraceJoin(a, b, c, 0, 6, 12);
  }

  lemma Cap16Sweep2Part2(a: seq<int>, b: seq<int>, c: seq<int>)
    requires a == seq(54, Cap16Table1)[0 := 3] && b == seq(54, Cap16Table2) && c == seq(55, Cap16Carries2)
    ensures TraceOk(a, b, c, 12, 18)
  {
    assert TraceOk(a, b, c, 12, 13);
    assert TraceOk(a, b, c, 12, 14);
    assert TraceOk(a, b, c, 12, 15);
    assert TraceOk(a, b, c, 12, 16);
    assert TraceOk(a, b, c, 12, 17);
  }

  lemma Cap16Sweep2Upto2(a: seq<int>, b: seq<int>, c: seq<int>)
    requires a == seq(54, Cap16Table1)[0 := 3] && b == seq(54, Cap16Table2) && c == seq(55, Cap16Carries2)
    ensures TraceOk(a, b, c, 0, 18)
  {
    Cap16Sweep2Upto1(a, b, c);
    Cap16Sweep2Part2(a, b, c);
    TraceJoin(a, b, c, 0, 12, 18);
  }

  lemma Cap16Sweep2Part3(a: seq<int>, b: seq<int>, c: seq<int>)
    requires a == seq(54, Cap16Table1)[0 := 3] && b == seq(54, Cap16Table2) && c == seq(55, Cap16Carries2)
    ensures TraceOk(a, b, c, 18, 24)
  {
    assert TraceOk(a, b, c, 18, 19);
    assert TraceOk(a, b, c, 18, 20);
    assert TraceOk(a, b, c, 18, 21);
    assert TraceOk(a, b, c, 18, 22);
    assert TraceOk(a, b, c, 18, 23);
  }

  lemma Cap16Sweep2Upto3(a: seq<int>, b: seq<int>, c: seq<int>)
    requires a == seq(54, Cap16Table1)[0 := 3] && b == seq(54, Cap16Table2) && c == seq(55, Cap16Carries2)
    ensures TraceOk(a, b, c, 0, 24)
  {
    Cap16Sweep2Upto2(a, b, c);
    Cap16Sweep2Part3(a, b, c);
    TraceJoin(a, b, c, 0, 18, 24);
  }

  lemma Cap16Sweep2Part4(a: seq<int>, b: seq<int>, c: seq<int>)
    requires a == seq(54, Cap16Table1)[0 := 3] && b == seq(54, Cap16Table2) && c == seq(55, Cap16Carries2)
    ensures TraceOk(a, b, c, 24, 30)
  {
    assert TraceOk(a, b, c, 24, 25);
    assert TraceOk(a, b, c, 24, 26);
    assert TraceOk(a, b, c, 24, 27);
    assert TraceOk(a, b, c, 24, 28);
    assert TraceOk(a, b, c, 24, 29);
  }

  lemma Cap16Sweep2Upto4(a: seq<int>, b: seq<int>, c: seq<int>)
    requires a == seq(54, Cap16Table1)[0 := 3] && b == seq(54, Cap16Table2) && c == seq(55, Cap16Carries2)
    ensures TraceOk(a, b, c, 0, 30)
  {
    Cap16Sweep2Upto3(a, b, c);
    Cap16Sweep2Part4(a, b, c);
    TraceJoin(a, b, c, 0, 24, 30);
  }

  lemma Cap16Sweep2Part5(a: seq<int>, b: seq<int>, c: seq<int>)
    requires a == seq(54, Cap16Table1)[0 := 3] && b == seq(54, Cap16Table2) && c == seq(55, Cap16Carries2)
    ensures TraceOk(a, b, c, 30, 36)
  {
    assert TraceOk(a, b, c, 30, 31);
    assert TraceOk(a, b, c, 30, 32);
    assert TraceOk(a, b, c, 30, 33);
    assert TraceOk(a, b, c, 30, 34);
    assert TraceOk(a, b, c, 30, 35);
  }

  lemma Cap16Sweep2Upto5(a: seq<int>, b: seq<int>, c: seq<int>)
    requires a == seq(54, Cap16Table1)[0 := 3] && b == seq(54, Cap16Table2) && c == seq(55, Cap16Carries2)
    ensures TraceOk(a, b, c, 0, 36)
  {
    Cap16Sweep2Upto4(a, b, c);
    Cap16Sweep2Part5(a, b, c);
    TraceJoin(a, b, c, 0, 30, 36);
  }

  lemma Cap16Sweep2Part6(a: seq<int>, b: seq<int>, c: seq<int>)
    requires a == seq(54, Cap16Table1)[0 := 3] && b == seq(54, Cap16Table2) && c == seq(55, Cap16Carries2)
    ensures TraceOk(a, b, c, 36, 42)
  {
    assert TraceOk(a, b, c, 36, 37);
    assert TraceOk(a, b, c, 36, 38);
    assert TraceOk(a, b, c, 36, 39);
    assert TraceOk(a, b, c, 36, 40);
    assert TraceOk(a, b, c, 36, 41);
  }

  lemma Cap16Sweep2Upto6(a: seq<int>, b: seq<int>, c: seq<int>)
    requires a == seq(54, Cap16Table1)[0 := 3] && b == seq(54, Cap16Table2) && c == seq(55, Cap16Carries2)
    ensures TraceOk(a, b, c, 0, 42)
  {
    Cap16Sweep2Upto5(a, b, c);
    Cap16Sweep2Part6(a, b, c);
    TraceJoin(a, b, c, 0, 36, 42);
  }

  lemma Cap16Sweep2Part7(a: seq<int>, b: seq<int>, c: seq<int>)
    requires a == seq(54, Cap16Table1)[0 := 3] && b == seq(54, Cap16Table2) && c == seq(55, Cap16Carries2)
    ensures TraceOk(a, b, c, 42, 48)
  {
    assert TraceOk(a, b, c, 42, 43);
    assert TraceOk(a, b, c, 42, 44);
    assert TraceOk(a, b, c, 42, 45);
    assert TraceOk(a, b, c, 42, 46);
    assert TraceOk(a, b, c, 42, 47);
  }

  lemma Cap16Sweep2Upto7(a: seq<int>, b: seq<int>, c: seq<int>)
    requires a == seq(54, Cap16Table1)[0 := 3] && b == seq(54, Cap16Table2) && c == seq(55, Cap16Carries2)
    ensures TraceOk(a, b, c, 0, 48)
  {
    Cap16Sweep2Upto6(a, b, c);
    Cap16Sweep2Part7(a, b, c);
    TraceJoin(a, b, c, 0, 42, 48);
  }

  lemma Cap16Sweep2Part8(a: seq<int>, b: seq<int>, c: seq<int>)
    requires a == seq(54, Cap16Table1)[0 := 3] && b == seq(54, Cap16Table2) && c == seq(55, Cap16Carries2)
    ensures TraceOk(a, b, c, 48, 54)
  {
    assert TraceOk(a, b, c, 48, 49);
    assert TraceOk(a, b, c, 48, 50);
    assert TraceOk(a, b, c, 48, 51);
    assert TraceOk(a, b, c, 48, 52);
    assert TraceOk(a, b, c, 48, 53);
  }

  lemma Cap16Sweep2Upto8(a: seq<int>, b: seq<int>, c: seq<int>)
    requires a == seq(54, Cap16Table1)[0 := 3] && b == seq(54, Cap16Table2) && c == seq(55, Cap16Carries2)
    ensures TraceOk(a, b, c, 0, 54)
  {
    Cap16Sweep2Upto7(a, b, c);
    Cap16Sweep2Part8(a, b, c);
    TraceJoin(a, b, c, 0, 48, 54);
  }

  lemma Cap16Sweep2(a: seq<int>, b: seq<int>, c: seq<int>)
    requires a == seq(54, Cap16Table1)[0 := 3] && b == seq(54, Cap16Table2) && c == seq(55, Cap16Carries2)
    ensures Sweep(a, 54, 0) == (b, 41)
  {
    Cap16Sweep2Upto8(a, b, c);
    assert b[54..] == a[54..];
    SweepByTrace(a, b, c, 54);
  }

  lemma Cap16Settle2(s: State, b: seq<int>)
    requires |s.a| == 54 && s.queue == [] && s.nines == 0 && s.predigit == 1 && s.started == true
    requires b == seq(54, Cap16Table2) && SweptTable(s.a) == b[0 := 1] && Carry(s.a) == 4
    ensures Round(s) == State(seq(54, Cap16Table2)[0 := 1], [1], 0, 4, true)
  {
    SettleHold(1, 4);
    assert [] + [1] == [1];
  }

  lemma Cap16Round2(s: State)
    requires s == State(seq(54, Cap16Table1)[0 := 3], [], 0, 1, true)
    ensures Round(s) == State(seq(54, Cap16Table2)[0 := 1], [1], 0, 4, true)
  {
    var b, c := seq(54, Cap16Table2), seq(55, Cap16Carries2);
    Cap16Sweep2(s.a, b, c);
    SweepFacts(s.a, b, 41);
    QuotRemNonneg(41, 10);
    Cap16Settle2(s, b);
  }

  lemma Cap16Next1(s: State)
    requires s == State(seq(54, Cap16Table1)[0 := 3], [], 0, 1, true)
    ensures Next(s, 1) == Some((1, State(seq(54, Cap16Table2)[0 := 1], [], 0, 4, true)))
  {
    var t := s;
    Cap16Round2(t);
  }

  /** The table after the sweep of round 3. */
  function Cap16Table3(i: int): int
  {
    if i < 27 then
      if i < 13 then
        if i < 6 then
          if i < 3 then
            if i < 1 then
              0
            else
              if i < 2 then
                1
              else
                3
          else
            if i < 4 then
              2
            else
              if i < 5 then
                1
              else
                0
        else
          if i < 9 then
            if i < 7 then
              3
            else
              if i < 8 then
                9
              else
                4
          else
            if i < 11 then
              if i < 10 then
                5
              else
                16
            else
              if i < 12 then
                15
              else
                17
      else
        if i < 20 then
          if i < 16 then
            if i < 14 then
              0
            else
              if i < 15 then
                22
              else
                21
          else
            if i < 18 then
              if i < 17 then
                14
              else
                17
            else
              if i < 19 then
                21
              else
                21
        else
          if i < 23 then
            if i < 21 then
              37
            else
              if i < 22 then
                10
              else
                32
          else
            if i < 25 then
              if i < 24 then
                2
              else
                25
            else
              if i < 26 then
                47
              else
                5
    else
      if i < 40 then
        if i < 33 then
          if i < 30 then
            if i < 28 then
              22
            else
              if i < 29 then
                41
              else
                56
          else
            if i < 31 then
              30
            else
              if i < 32 then
                17
              else
                14
        else
          if i < 36 then
            if i < 34 then
              18
            else
              if i < 35 then
                26
              else
                35
          else
            if i < 38 then
              if i < 37 then
                42
              else
                6
            else
              if i < 39 then
                37
              else
                59
      else
        if i < 47 then
          if i < 43 then
            if i < 41 then
              28
            else
              if i < 42 then
                63
              else
                39
          else
            if i < 45 then
              if i < 44 then
                81
              else
                58
            else
              if i < 46 then
                55
              else
                72
        else
          if i < 50 then
            if i < 48 then
              13
            else
              if i < 49 then
                66
              else
                87
          else
            if i < 52 then
              if i < 51 then
                19
              else
                57
            else
              if i < 53 then
                38
              else
                98
  }

  /** The carries of the sweep of round 3, by position. */
  function Cap16Carries3(i: int): int
  {
    if i < 27 then
      if i < 13 then
        if i < 6 then
          if i < 3 then
            if i < 1 then
              15
            else
              if i < 2 then
                5
              else
                3
          else
            if i < 4 then
              6
            else
              if i < 5 then
                11
              else
                10
        else
          if i < 9 then
            if i < 7 then
              10
            else
              if i < 8 then
                9
              else
                3
          else
            if i < 11 then
              if i < 10 then
                5
              else
                9
            else
              if i < 12 then
                5
              else
                5
      else
        if i < 20 then
          if i < 16 then
            if i < 14 then
              4
            else
              if i < 15 then
                7
              else
                13
          else
            if i < 18 then
              if i < 17 then
                9
              else
                13
            else
              if i < 19 then
                14
              else
                11
        else
          if i < 23 then
            if i < 21 then
              13
            else
              if i < 22 then
                10
              else
                10
          else
            if i < 25 then
              if i < 24 then
                14
              else
                10
            else
              if i < 26 then
                9
              else
                11
    else
      if i < 41 then
        if i < 34 then
          if i < 30 then
            if i < 28 then
              14
            else
              if i < 29 then
                9
              else
                6
          else
            if i < 32 then
              if i < 31 then
                5
              else
                5
            else
              if i < 33 then
                6
              else
                8
        else
          if i < 37 then
            if i < 35 then
              11
            else
              if i < 36 then
                5
              else
                10
          else
            if i < 39 then
              if i < 38 then
                6
              else
                12
            else
              if i < 40 then
                9
              else
                17
      else
        if i < 48 then
          if i < 44 then
            if i < 42 then
              15
            else
              if i < 43 then
                14
              else
                13
          else
            if i < 46 then
              if i < 45 then
                13
              else
                13
            else
              if i < 47 then
                13
              else
                13
        else
          if i < 51 then
            if i < 49 then
              11
            else
              if i < 50 then
                7
              else
                8
          else
            if i < 53 then
              if i < 52 then
                7
              else
                4
            else
              if i < 54 then
                6
              else
                0
  }

  lemma Cap16Sweep3Part0(a: seq<int>, b: seq<int>, c: seq<int>)
    requires a == seq(54, Cap16Table2)[0 := 1] && b == seq(54, Cap16Table3) && c == seq(55, Cap16Carries3)
    ensures TraceOk(a, b, c, 0, 6)
  {
    assert TraceOk(a, b, c, 0, 1);
    assert TraceOk(a, b, c, 0, 2);
    assert TraceOk(a, b, c, 0, 3);
    assert TraceOk(a, b, c, 0, 4);
    assert TraceOk(a, b, c, 0, 5);
  }

  lemma Cap16Sweep3Part1(a: seq<int>, b: seq<int>, c: seq<int>)
    requires a == seq(54, Cap16Table2)[0 := 1] && b == seq(54, Cap16Table3) && c == seq(55, Cap16Carries3)
    ensures TraceOk(a, b, c, 6, 12)
  {
    assert TraceOk(a, b, c, 6, 7);
    assert TraceOk(a, b, c, 6, 8);
    assert TraceOk(a, b, c, 6, 9);
    assert TraceOk(a, b, c, 6, 10);
    assert TraceOk(a, b, c, 6, 11);
  }

  lemma Cap16Sweep3Upto1(a: seq<int>, b: seq<int>, c: seq<int>)
    requires a == seq(54, Cap16Table2)[0 := 1] && b == seq(54, Cap16Table3) && c == seq(55, Cap16Carries3)
    ensures TraceOk(a, b, c, 0, 12)
  {
    Cap16Sweep3Part0(a, b, c);
    Cap16Sweep3Part1(a, b, c);
    TraceJoin(a, b, c, 0, 6, 12);
  }

  lemma Cap16Sweep3Part2(a: seq<int>, b: seq<int>, c: seq<int>)
    requires a == seq(54, Cap16Table2)[0 := 1] && b == seq(54, Cap16Table3) && c == seq(55, Cap16Carries3)
    ensures TraceOk(a, b, c, 12, 18)
  {
    assert TraceOk(a, b, c, 12, 13);
    assert TraceOk(a, b, c, 12, 14);
    assert TraceOk(a, b, c, 12, 15);
    assert TraceOk(a, b, c, 12, 16);
    assert TraceOk(a, b, c, 12, 17);
  }

  lemma Cap16Sweep3Upto2(a: seq<int>, b: seq<int>, c: seq<int>)
    requires a == seq(54, Cap16Table2)[0 := 1] && b == seq(54, Cap16Table3) && c == seq(55, Cap16Carries3)
    ensures TraceOk(a, b, c, 0, 18)
  {
    Cap16Sweep3Upto1(a, b, c);
    Cap16Sweep3Part2(a, b, c);
    TraceJoin(a, b, c, 0, 12, 18);
  }

  lemma Cap16Sweep3Part3(a: seq<int>, b: seq<int>, c: seq<int>)
    requires a == seq(54, Cap16Table2)[0 := 1] && b == seq(54, Cap16Table3) && c == seq(55, Cap16Carries3)
    ensures TraceOk(a, b, c, 18, 24)
  {
    assert TraceOk(a, b, c, 18, 19);
    assert TraceOk(a, b, c, 18, 20);
    assert TraceOk(a, b, c, 18, 21);
    assert TraceOk(a, b, c, 18, 22);
    assert TraceOk(a, b, c, 18, 23);
  }

  lemma Cap16Sweep3Upto3(a: seq<int>, b: seq<int>, c: seq<int>)
    requires a == seq(54, Cap16Table2)[0 := 1] && b == seq(54, Cap16Table3) && c == seq(55, Cap16Carries3)
    ensures TraceOk(a, b, c, 0, 24)
  {
    Cap16Sweep3Upto2(a, b, c);
    Cap16Sweep3Part3(a, b, c);
    TraceJoin(a, b, c, 0, 18, 24);
  }

  lemma Cap16Sweep3Part4(a: seq<int>, b: seq<int>, c: seq<int>)
    requires a == seq(54, Cap16Table2)[0 := 1] && b == seq(54, Cap16Table3) && c == seq(55, Cap16Carries3)
    ensures TraceOk(a, b, c, 24, 30)
  {
    assert TraceOk(a, b, c, 24, 25);
    assert TraceOk(a, b, c, 24, 26);
    assert TraceOk(a, b, c, 24, 27);
    assert TraceOk(a, b, c, 24, 28);
    assert TraceOk(a, b, c, 24, 29);
  }

  lemma Cap16Sweep3Upto4(a: seq<int>, b: seq<int>, c: seq<int>)
    requires a == seq(54, Cap16Table2)[0 := 1] && b == seq(54, Cap16Table3) && c == seq(55, Cap16Carries3)
    ensures TraceOk(a, b, c, 0, 30)
  {
    Cap16Sweep3Upto3(a, b, c);
    Cap16Sweep3Part4(a, b, c);
    TraceJoin(a, b, c, 0, 24, 30);
  }

  lemma Cap16Sweep3Part5(a: seq<int>, b: seq<int>, c: seq<int>)
    requires a == seq(54, Cap16Table2)[0 := 1] && b == seq(54, Cap16Table3) && c == seq(55, Cap16Carries3)
    ensures TraceOk(a, b, c, 30, 36)
  {
    assert TraceOk(a, b, c, 30, 31);
    assert TraceOk(a, b, c, 30, 32);
    assert TraceOk(a, b, c, 30, 33);
    assert TraceOk(a, b, c, 30, 34);
    assert TraceOk(a, b, c, 30, 35);
  }

  lemma Cap16Sweep3Upto5(a: seq<int>, b: seq<int>, c: seq<int>)
    requires a == seq(54, Cap16Table2)[0 := 1] && b == seq(54, Cap16Table3) && c == seq(55, Cap16Carries3)
    ensures TraceOk(a, b, c, 0, 36)
  {
    Cap16Sweep3Upto4(a, b, c);
    Cap16Sweep3Part5(a, b, c);
    TraceJoin(a, b, c, 0, 30, 36);
  }

  lemma Cap16Sweep3Part6(a: seq<int>, b: seq<int>, c: seq<int>)
    requires a == seq(54, Cap16Table2)[0 := 1] && b == seq(54, Cap16Table3) && c == seq(55, Cap16Carries3)
    ensures TraceOk(a, b, c, 36, 42)
  {
    assert TraceOk(a, b, c, 36, 37);
    assert TraceOk(a, b, c, 36, 38);
    assert TraceOk(a, b, c, 36, 39);
    assert TraceOk(a, b, c, 36, 40);
    assert TraceOk(a, b, c, 36, 41);
  }

  lemma Cap16Sweep3Upto6(a: seq<int>, b: seq<int>, c: seq<int>)
    requires a == seq(54, Cap16Table2)[0 := 1] && b == seq(54, Cap16Table3) && c == seq(55, Cap16Carries3)
    ensures TraceOk(a, b, c, 0, 42)
  {
    Cap16Sweep3Upto5(a, b, c);
    Cap16Sweep3Part6(a, b, c);
    TraceJoin(a, b, c, 0, 36, 42);
  }

  lemma Cap16Sweep3Part7(a: seq<int>, b: seq<int>, c: seq<int>)
    requires a == seq(54, Cap16Table2)[0 := 1] && b == seq(54, Cap16Table3) && c == seq(55, Cap16Carries3)
    ensures TraceOk(a, b, c, 42, 48)
  {
    assert TraceOk(a, b, c, 42, 43);
    assert TraceOk(a, b, c, 42, 44);
    assert TraceOk(a, b, c, 42, 45);
    assert TraceOk(a, b, c, 42, 46);
    assert TraceOk(a, b, c, 42, 47);
  }

  lemma Cap16Sweep3Upto7(a: seq<int>, b: seq<int>, c: seq<int>)
    requires a == seq(54, Cap16Table2)[0 := 1] && b == seq(54, Cap16Table3) && c == seq(55, Cap16Carries3)
    ensures TraceOk(a, b, c, 0, 48)
  {
    Cap16Sweep3Upto6(a, b, c);
    Cap16Sweep3Part7(a, b, c);
    TraceJoin(a, b, c, 0, 42, 48);
  }

  lemma Cap16Sweep3Part8(a: seq<int>, b: seq<int>, c: seq<int>)
    requires a == seq(54, Cap16Table2)[0 := 1] && b == seq(54, Cap16Table3) && c == seq(55, Cap16Carries3)
    ensures TraceOk(a, b, c, 48, 54)
  {
    assert TraceOk(a, b, c, 48, 49);
    assert TraceOk(a, b, c, 48, 50);
    assert TraceOk(a, b, c, 48, 51);
    assert TraceOk(a, b, c, 48, 52);
    assert TraceOk(a, b, c, 48, 53);
  }

  lemma Cap16Sweep3Upto8(a: seq<int>, b: seq<int>, c: seq<int>)
    requires a == seq(54, Cap16Table2)[0 := 1] && b == seq(54, Cap16Table3) && c == seq(55, Cap16Carries3)
    ensures TraceOk(a, b, c, 0, 54)
  {
    Cap16Sweep3Upto7(a, b, c);
    Cap16Sweep3Part8(a, b, c);
    TraceJoin(a, b, c, 0, 48, 54);
  }

  lemma Cap16Sweep3(a: seq<int>, b: seq<int>, c: seq<int>)
    requires a == seq(54, Cap16Table2)[0 := 1] && b == seq(54, Cap16Table3) && c == seq(55, Cap16Carries3)
    ensures Sweep(a, 54, 0) == (b, 15)
  {
    Cap16Sweep3Upto8(a, b, c);
    assert b[54..] == a[54..];
    SweepByTrace(a, b, c, 54);
  }

  lemma Cap16Settle3(s: State, b: seq<int>)
    requires |s.a| == 54 && s.queue == [] && s.nines == 0 && s.predigit == 4 && s.started == true
    requires b == seq(54, Cap16Table3) && SweptTable(s.a) == b[0 := 5] && Carry(s.a) == 1
    ensures Round(s) == State(seq(54, Cap16Table3)[0 := 5], [4], 0, 1, true)
  {
    SettleHold(4, 1);
    assert [] + [4] == [4];
  }

  lemma Cap16Round3(s: State)
    requires s == State(seq(54, Cap16Table2)[0 := 1], [], 0, 4, true)
    ensures Round(s) == State(seq(54, Cap16Table3)[0 := 5], [4], 0, 1, true)
  {
    var b, c := seq(54, Cap16Table3), seq(55, Cap16Carries3);
    Cap16Sweep3(s.a, b, c);
    SweepFacts(s.a, b, 15);
    QuotRemNonneg(15, 10);
    Cap16Settle3(s, b);
  }

  lemma Cap16Next2(s: State)
    requires s == State(seq(54, Cap16Table2)[0 := 1], [], 0, 4, true)
    ensures Next(s, 1) == Some((4, State(seq(54, Cap16Table3)[0 := 5], [], 0, 1, true)))
  {
    var t := s;
    Cap16Round3(t);
  }

  /** The table after the sweep of round 4. */
  function Cap16Table4(i: int): int
  {
    if i < 27 then
      if i < 13 then
        if i < 6 then
          if i < 3 then
            if i < 1 then
              0
            else
              if i < 2 then
                2
              else
                2
          else
            if i < 4 then
              0
            else
              if i < 5 then
                7
              else
                9
        else
          if i < 9 then
            if i < 7 then
              2
            else
              if i < 8 then
                11
              else
                2
          else
            if i < 11 then
              if i < 10 then
                9
              else
                8
            else
              if i < 12 then
                5
              else
                23
      else
        if i < 20 then
          if i < 16 then
            if i < 14 then
              20
            else
              if i < 15 then
                8
              else
                13
          else
            if i < 18 then
              if i < 17 then
                13
              else
                18
            else
              if i < 19 then
                12
              else
                21
        else
          if i < 23 then
            if i < 21 then
              25
            else
              if i < 22 then
                19
              else
                8
          else
            if i < 25 then
              if i < 24 then
                2
              else
                11
            else
              if i < 26 then
                14
              else
                2
    else
      if i < 40 then
        if i < 33 then
          if i < 30 then
            if i < 28 then
              34
            else
              if i < 29 then
                46
              else
                3
          else
            if i < 31 then
              28
            else
              if i < 32 then
                15
              else
                13
        else
          if i < 36 then
            if i < 34 then
              16
            else
              if i < 35 then
                57
              else
                70
          else
            if i < 38 then
              if i < 37 then
                21
              else
                65
            else
              if i < 39 then
                68
              else
                42
      else
        if i < 47 then
          if i < 43 then
            if i < 41 then
              3
            else
              if i < 42 then
                55
              else
                15
          else
            if i < 45 then
              if i < 44 then
                33
              else
                7
            else
              if i < 46 then
                55
              else
                26
        else
          if i < 50 then
            if i < 48 then
              41
            else
              if i < 49 then
                35
              else
                81
          else
            if i < 52 then
              if i < 51 then
                43
              else
                59
            else
              if i < 53 then
                17
              else
                17
  }

  /** The carries of the sweep of round 4, by position. */
  function Cap16Carries4(i: int): int
  {
    if i < 27 then
      if i < 13 then
        if i < 6 then
          if i < 3 then
            if i < 1 then
              58
            else
              if i < 2 then
                8
              else
                8
          else
            if i < 4 then
              4
            else
              if i < 5 then
                2
              else
                3
        else
          if i < 9 then
            if i < 7 then
              7
            else
              if i < 8 then
                9
              else
                7
          else
            if i < 11 then
              if i < 10 then
                9
              else
                13
            else
              if i < 12 then
                11
              else
                9
      else
        if i < 20 then
          if i < 16 then
            if i < 14 then
              6
            else
              if i < 15 then
                13
              else
                11
          else
            if i < 18 then
              if i < 17 then
                9
              else
                10
            else
              if i < 19 then
                11
              else
                11
        else
          if i < 23 then
            if i < 21 then
              12
            else
              if i < 22 then
                7
              else
                10
          else
            if i < 25 then
              if i < 24 then
                6
              else
                11
            else
              if i < 26 then
                12
              else
                6
    else
      if i < 41 then
        if i < 34 then
          if i < 30 then
            if i < 28 then
              10
            else
              if i < 29 then
                13
              else
                13
          else
            if i < 32 then
              if i < 31 then
                7
              else
                5
            else
              if i < 33 then
                5
              else
                6
        else
          if i < 37 then
            if i < 35 then
              7
            else
              if i < 36 then
                8
              else
                8
          else
            if i < 39 then
              if i < 38 then
                5
              else
                10
            else
              if i < 40 then
                12
              else
                10
      else
        if i < 48 then
          if i < 44 then
            if i < 42 then
              13
            else
              if i < 43 then
                12
              else
                15
          else
            if i < 46 then
              if i < 45 then
                12
              else
                11
            else
              if i < 47 then
                11
              else
                7
        else
          if i < 51 then
            if i < 49 then
              12
            else
              if i < 50 then
                11
              else
                6
          else
            if i < 53 then
              if i < 52 then
                9
              else
                8
            else
              if i < 54 then
                9
              else
                0
  }

  lemma Cap16Sweep4Part0(a: seq<int>, b: seq<int>, c: seq<int>)
    requires a == seq(54, Cap16Table3)[0 := 5] && b == seq(54, Cap16Table4) && c == seq(55, Cap16Carries4)
    ensures TraceOk(a, b, c, 0, 6)
  {
    assert TraceOk(a, b, c, 0, 1);
    assert TraceOk(a, b, c, 0, 2);
    assert TraceOk(a, b, c, 0, 3);
    assert TraceOk(a, b, c, 0, 4);
    assert TraceOk(a, b, c, 0, 5);
  }

  lemma Cap16Sweep4Part1(a: seq<int>, b: seq<int>, c: seq<int>)
    requires a == seq(54, Cap16Table3)[0 := 5] && b == seq(54, Cap16Table4) && c == seq(55, Cap16Carries4)
    ensures TraceOk(a, b, c, 6, 12)
  {
    assert TraceOk(a, b, c, 6, 7);
    assert TraceOk(a, b, c, 6, 8);
    assert TraceOk(a, b, c, 6, 9);
    assert TraceOk(a, b, c, 6, 10);
    assert TraceOk(a, b, c, 6, 11);
  }

  lemma Cap16Sweep4Upto1(a: seq<int>, b: seq<int>, c: seq<int>)
    requires a == seq(54, Cap16Table3)[0 := 5] && b == seq(54, Cap16Table4) && c == seq(55, Cap16Carries4)
    ensures TraceOk(a, b, c, 0, 12)
  {
    Cap16Sweep4Part0(a, b, c);
    Cap16Sweep4Part1(a, b, c);
    TraceJoin(a, b, c, 0, 6, 12);
  }

  lemma Cap16Sweep4Part2(a: seq<int>, b: seq<int>, c: seq<int>)
    requires a == seq(54, Cap16Table3)[0 := 5] && b == seq(54, Cap16Table4) && c == seq(55, Cap16Carries4)
    ensures TraceOk(a, b, c, 12, 18)
  {
    assert TraceOk(a, b, c, 12, 13);
    assert TraceOk(a, b, c, 12, 14);
    assert TraceOk(a, b, c, 12, 15);
    assert TraceOk(a, b, c, 12, 16);
    assert TraceOk(a, b, c, 12, 17);
  }

  lemma Cap16Sweep4Upto2(a: seq<int>, b: seq<int>, c: seq<int>)
    requires a == seq(54, Cap16Table3)[0 := 5] && b == seq(54, Cap16Table4) && c == seq(55, Cap16Carries4)
    ensures TraceOk(a, b, c, 0, 18)
  {
    Cap16Sweep4Upto1(a, b, c);
    Cap16Sweep4Part2(a, b, c);
    TraceJoin(a, b, c, 0, 12, 18);
  }

  lemma Cap16Sweep4Part3(a: seq<int>, b: seq<int>, c: seq<int>)
    requires a == seq(54, Cap16Table3)[0 := 5] && b == seq(54, Cap16Table4) && c == seq(55, Cap16Carries4)
    ensures TraceOk(a, b, c, 18, 24)
  {
    assert TraceOk(a, b, c, 18, 19);
    assert TraceOk(a, b, c, 18, 20);
    assert TraceOk(a, b, c, 18, 21);
    assert TraceOk(a, b, c, 18, 22);
    assert TraceOk(a, b, c, 18, 23);
  }

  lemma Cap16Sweep4Upto3(a: seq<int>, b: seq<int>, c: seq<int>)
    requires a == seq(54, Cap16Table3)[0 := 5] && b == seq(54, Cap16Table4) && c == seq(55, Cap16Carries4)
    ensures TraceOk(a, b, c, 0, 24)
  {
    Cap16Sweep4Upto2(a, b, c);
    Cap16Sweep4Part3(a, b, c);
    TraceJoin(a, b, c, 0, 18, 24);
  }

  lemma Cap16Sweep4Part4(a: seq<int>, b: seq<int>, c: seq<int>)
    requires a == seq(54, Cap16Table3)[0 := 5] && b == seq(54, Cap16Table4) && c == seq(55, Cap16Carries4)
    ensures TraceOk(a, b, c, 24, 30)
  {
    assert TraceOk(a, b, c, 24, 25);
    assert TraceOk(a, b, c, 24, 26);
    assert TraceOk(a, b, c, 24, 27);
    assert TraceOk(a, b, c, 24, 28);
    assert TraceOk(a, b, c, 24, 29);
  }

  lemma Cap16Sweep4Upto4(a: seq<int>, b: seq<int>, c: seq<int>)
    requires a == seq(54, Cap16Table3)[0 := 5] && b == seq(54, Cap16Table4) && c == seq(55, Cap16Carries4)
    ensures TraceOk(a, b, c, 0, 30)
  {
    Cap16Sweep4Upto3(a, b, c);
    Cap16Sweep4Part4(a, b, c);
    TraceJoin(a, b, c, 0, 24, 30);
  }

  lemma Cap16Sweep4Part5(a: seq<int>, b: seq<int>, c: seq<int>)
    requires a == seq(54, Cap16Table3)[0 := 5] && b == seq(54, Cap16Table4) && c == seq(55, Cap16Carries4)
    ensures TraceOk(a, b, c, 30, 36)
  {
    assert TraceOk(a, b, c, 30, 31);
    assert TraceOk(a, b, c, 30, 32);
    assert TraceOk(a, b, c, 30, 33);
    assert TraceOk(a, b, c, 30, 34);
    assert TraceOk(a, b, c, 30, 35);
  }

  lemma Cap16Sweep4Upto5(a: seq<int>, b: seq<int>, c: seq<int>)
    requires a == seq(54, Cap16Table3)[0 := 5] && b == seq(54, Cap16Table4) && c == seq(55, Cap16Carries4)
    ensures TraceOk(a, b, c, 0, 36)
  {
    Cap16Sweep4Upto4(a, b, c);
    Cap16Sweep4Part5(a, b, c);
    TraceJoin(a, b, c, 0, 30, 36);
  }

  lemma Cap16Sweep4Part6(a: seq<int>, b: seq<int>, c: seq<int>)
    requires a == seq(54, Cap16Table3)[0 := 5] && b == seq(54, Cap16Table4) && c == seq(55, Cap16Carries4)
    ensures TraceOk(a, b, c, 36, 42)
  {
    assert TraceOk(a, b, c, 36, 37);
    assert TraceOk(a, b, c, 36, 38);
    assert TraceOk(a, b, c, 36, 39);
    assert TraceOk(a, b, c, 36, 40);
    assert TraceOk(a, b, c, 36, 41);
  }

  lemma Cap16Sweep4Upto6(a: seq<int>, b: seq<int>, c: seq<int>)
    requires a == seq(54, Cap16Table3)[0 := 5] && b == seq(54, Cap16Table4) && c == seq(55, Cap16Carries4)
    ensures TraceOk(a, b, c, 0, 42)
  {
    Cap16Sweep4Upto5(a, b, c);
    Cap16Sweep4Part6(a, b, c);
    TraceJoin(a, b, c, 0, 36, 42);
  }

  lemma Cap16Sweep4Part7(a: seq<int>, b: seq<int>, c: seq<int>)
    requires a == seq(54, Cap16Table3)[0 := 5] && b == seq(54, Cap16Table4) && c == seq(55, Cap16Carries4)
    ensures TraceOk(a, b, c, 42, 48)
  {
    assert TraceOk(a, b, c, 42, 43);
    assert TraceOk(a, b, c, 42, 44);
    assert TraceOk(a, b, c, 42, 45);
    assert TraceOk(a, b, c, 42, 46);
    assert TraceOk(a, b, c, 42, 47);
  }

  lemma Cap16Sweep4Upto7(a: seq<int>, b: seq<int>, c: seq<int>)
    requires a == seq(54, Cap16Table3)[0 := 5] && b == seq(54, Cap16Table4) && c == seq(55, Cap16Carries4)
    ensures TraceOk(a, b, c, 0, 48)
  {
    Cap16Sweep4Upto6(a, b, c);
    Cap16Sweep4Part7(a, b, c);
    TraceJoin(a, b, c, 0, 42, 48);
  }

  lemma Cap16Sweep4Part8(a: seq<int>, b: seq<int>, c: seq<int>)
    requires a == seq(54, Cap16Table3)[0 := 5] && b == seq(54, Cap16Table4) && c == seq(55, Cap16Carries4)
    ensures TraceOk(a, b, c, 48, 54)
  {
    assert TraceOk(a, b, c, 48, 49);
    assert TraceOk(a, b, c, 48, 50);
    assert TraceOk(a, b, c, 48, 51);
    assert TraceOk(a, b, c, 48, 52);
    assert TraceOk(a, b, c, 48, 53);
  }

  lemma Cap16Sweep4Upto8(a: seq<int>, b: seq<int>, c: seq<int>)
    requires a == seq(54, Cap16Table3)[0 := 5] && b == seq(54, Cap16Table4) && c == seq(55, Cap16Carries4)
    ensures TraceOk(a, b, c, 0, 54)
  {
    Cap16Sweep4Upto7(a, b, c);
    Cap16Sweep4Part8(a, b, c);
    TraceJoin(a, b, c, 0, 48, 54);
  }

  lemma Cap16Sweep4(a: seq<int>, b: seq<int>, c: seq<int>)
    requires a == seq(54, Cap16Table3)[0 := 5] && b == seq(54, Cap16Table4) && c == seq(55, Cap16Carries4)
    ensures Sweep(a, 54, 0) == (b, 58)
  {
    Cap16Sweep4Upto8(a, b, c);
    assert b[54..] == a[54..];
    SweepByTrace(a, b, c, 54);
  }

  lemma Cap16Settle4(s: State, b: seq<int>)
    requires |s.a| == 54 && s.queue == [] && s.nines == 0 && s.predigit == 1 && s.started == true
    requires b == seq(54, Cap16Table4) && SweptTable(s.a) == b[0 := 8] && Carry(s.a) == 5
    ensures Round(s) == State(seq(54, Cap16Table4)[0 := 8], [1], 0, 5, true)
  {
    SettleHold(1, 5);
    assert [] + [1] == [1];
  }

  lemma Cap16Round4(s: State)
    requires s == State(seq(54, Cap16Table3)[0 := 5], [], 0, 1, true)
    ensures Round(s) == State(seq(54, Cap16Table4)[0 := 8], [1], 0, 5, true)
  {
    var b, c := seq(54, Cap16Table4), seq(55, Cap16Carries4);
    Cap16Sweep4(s.a, b, c);
    SweepFacts(s.a, b, 58);
    QuotRemNonneg(58, 10);
    Cap16Settle4(s, b);
  }

  lemma Cap16Next3(s: State)
    requires s == State(seq(54, Cap16Table3)[0 := 5], [], 0, 1, true)
    ensures Next(s, 1) == Some((1, State(seq(54, Cap16Table4)[0 := 8], [], 0, 5, true)))
  {
    var t := s;
    Cap16Round4(t);
  }

  /** The table after the sweep of round 5. */
  function Cap16Table5(i: int): int
  {
    if i < 27 then
      if i < 13 then
        if i < 6 then
          if i < 3 then
            if i < 1 then
              0
            else
              if i < 2 then
                0
              else
                1
          else
            if i < 4 then
              3
            else
              if i < 5 then
                8
              else
                5
        else
          if i < 9 then
            if i < 7 then
              12
            else
              if i < 8 then
                0
              else
                7
          else
            if i < 11 then
              if i < 10 then
                18
              else
                11
            else
              if i < 12 then
                11
              else
                10
      else
        if i < 20 then
          if i < 16 then
            if i < 14 then
              14
            else
              if i < 15 then
                26
              else
                10
          else
            if i < 18 then
              if i < 17 then
                2
              else
                26
            else
              if i < 19 then
                32
              else
                19
        else
          if i < 23 then
            if i < 21 then
              27
            else
              if i < 22 then
                19
              else
                36
          else
            if i < 25 then
              if i < 24 then
                22
              else
                39
            else
              if i < 26 then
                15
              else
                52
    else
      if i < 40 then
        if i < 33 then
          if i < 30 then
            if i < 28 then
              15
            else
              if i < 29 then
                6
              else
                4
          else
            if i < 31 then
              8
            else
              if i < 32 then
                59
              else
                5
        else
          if i < 36 then
            if i < 34 then
              0
            else
              if i < 35 then
                25
              else
                30
          else
            if i < 38 then
              if i < 37 then
                71
              else
                56
            else
              if i < 39 then
                29
              else
                27
      else
        if i < 47 then
          if i < 43 then
            if i < 41 then
              34
            else
              if i < 42 then
                54
              else
                68
          else
            if i < 45 then
              if i < 44 then
                28
              else
                30
            else
              if i < 46 then
                7
              else
                78
        else
          if i < 50 then
            if i < 48 then
              82
            else
              if i < 49 then
                16
              else
                71
          else
            if i < 52 then
              if i < 51 then
                29
              else
                76
            else
              if i < 53 then
                13
              else
                63
  }

  /** The carries of the sweep of round 5, by position. */
  function Cap16Carries5(i: int): int
  {
    if i < 27 then
      if i < 13 then
        if i < 6 then
          if i < 3 then
            if i < 1 then
              92
            else
              if i < 2 then
                12
              else
                8
          else
            if i < 4 then
              7
            else
              if i < 5 then
                13
              else
                11
        else
          if i < 9 then
            if i < 7 then
              6
            else
              if i < 8 then
                10
              else
                5
          else
            if i < 11 then
              if i < 10 then
                8
              else
                8
            else
              if i < 12 then
                9
              else
                14
      else
        if i < 20 then
          if i < 16 then
            if i < 14 then
              10
            else
              if i < 15 then
                6
              else
                8
          else
            if i < 18 then
              if i < 17 then
                8
              else
                8
            else
              if i < 19 then
                7
              else
                9
        else
          if i < 23 then
            if i < 21 then
              8
            else
              if i < 22 then
                5
              else
                2
          else
            if i < 25 then
              if i < 24 then
                2
              else
                4
            else
              if i < 26 then
                5
              else
                5
    else
      if i < 41 then
        if i < 34 then
          if i < 30 then
            if i < 28 then
              11
            else
              if i < 29 then
                10
              else
                4
          else
            if i < 32 then
              if i < 31 then
                7
              else
                5
            else
              if i < 33 then
                7
              else
                10
        else
          if i < 37 then
            if i < 35 then
              15
            else
              if i < 36 then
                14
              else
                9
          else
            if i < 39 then
              if i < 38 then
                14
              else
                12
            else
              if i < 40 then
                7
              else
                4
      else
        if i < 48 then
          if i < 44 then
            if i < 42 then
              8
            else
              if i < 43 then
                4
              else
                6
          else
            if i < 46 then
              if i < 45 then
                5
              else
                9
            else
              if i < 47 then
                6
              else
                8
        else
          if i < 51 then
            if i < 49 then
              9
            else
              if i < 50 then
                11
              else
                7
          else
            if i < 53 then
              if i < 52 then
                6
              else
                2
            else
              if i < 54 then
                1
              else
                0
  }

  lemma Cap16Sweep5Part0(a: seq<int>, b: seq<int>, c: seq<int>)
    requires a == seq(54, Cap16Table4)[0 := 8] && b == seq(54, Cap16Table5) && c == seq(55, Cap16Carries5)
    ensures TraceOk(a, b, c, 0, 6)
  {
    assert TraceOk(a, b, c, 0, 1);
    assert TraceOk(a, b, c, 0, 2);
    assert TraceOk(a, b, c, 0, 3);
    assert TraceOk(a, b, c, 0, 4);
    assert TraceOk(a, b, c, 0, 5);
  }

  lemma Cap16Sweep5Part1(a: seq<int>, b: seq<int>, c: seq<int>)
    requires a == seq(54, Cap16Table4)[0 := 8] && b == seq(54, Cap16Table5) && c == seq(55, Cap16Carries5)
    ensures TraceOk(a, b, c, 6, 12)
  {
    assert TraceOk(a, b, c, 6, 7);
    assert TraceOk(a, b, c, 6, 8);
    assert TraceOk(a, b, c, 6, 9);
    assert TraceOk(a, b, c, 6, 10);
    assert TraceOk(a, b, c, 6, 11);
  }

  lemma Cap16Sweep5Upto1(a: seq<int>, b: seq<int>, c: seq<int>)
    requires a == seq(54, Cap16Table4)[0 := 8] && b == seq(54, Cap16Table5) && c == seq(55, Cap16Carries5)
    ensures TraceOk(a, b, c, 0, 12)
  {
    Cap16Sweep5Part0(a, b, c);
    Cap16Sweep5Part1(a, b, c);
    TraceJoin(a, b, c, 0, 6, 12);
  }

  lemma Cap16Sweep5Part2(a: seq<int>, b: seq<int>, c: seq<int>)
    requires a == seq(54, Cap16Table4)[0 := 8] && b == seq(54, Cap16Table5) && c == seq(55, Cap16Carries5)
    ensures TraceOk(a, b, c, 12, 18)
  {
    assert TraceOk(a, b, c, 12, 13);
    assert TraceOk(a, b, c, 12, 14);
    assert TraceOk(a, b, c, 12, 15);
    assert TraceOk(a, b, c, 12, 16);
    assert TraceOk(a, b, c, 12, 17);
  }

  lemma Cap16Sweep5Upto2(a: seq<int>, b: seq<int>, c: seq<int>)
    requires a == seq(54, Cap16Table4)[0 := 8] && b == seq(54, Cap16Table5) && c == seq(55, Cap16Carries5)
    ensures TraceOk(a, b, c, 0, 18)
  {
    Cap16Sweep5Upto1(a, b, c);
    Cap16Sweep5Part2(a, b, c);
    TraceJoin(a, b, c, 0, 12, 18);
  }

  lemma Cap16Sweep5Part3(a: seq<int>, b: seq<int>, c: seq<int>)
    requires a == seq(54, Cap16Table4)[0 := 8] && b == seq(54, Cap16Table5) && c == seq(55, Cap16Carries5)
    ensures TraceOk(a, b, c, 18, 24)
  {
    assert TraceOk(a, b, c, 18, 19);
    assert TraceOk(a, b, c, 18, 20);
    assert TraceOk(a, b, c, 18, 21);
    assert TraceOk(a, b, c, 18, 22);
    assert TraceOk(a, b, c, 18, 23);
  }

  lemma Cap16Sweep5Upto3(a: seq<int>, b: seq<int>, c: seq<int>)
    requires a == seq(54, Cap16Table4)[0 := 8] && b == seq(54, Cap16Table5) && c == seq(55, Cap16Carries5)
    ensures TraceOk(a, b, c, 0, 24)
  {
    Cap16Sweep5Upto2(a, b, c);
    Cap16Sweep5Part3(a, b, c);
    TraceJoin(a, b, c, 0, 18, 24);
  }

  lemma Cap16Sweep5Part4(a: seq<int>, b: seq<int>, c: seq<int>)
    requires a == seq(54, Cap16Table4)[0 := 8] && b == seq(54, Cap16Table5) && c == seq(55, Cap16Carries5)
    ensures TraceOk(a, b, c, 24, 30)
  {
    assert TraceOk(a, b, c, 24, 25);
    assert TraceOk(a, b, c, 24, 26);
    assert TraceOk(a, b, c, 24, 27);
    assert TraceOk(a, b, c, 24, 28);
    assert TraceOk(a, b, c, 24, 29);
  }

  lemma Cap16Sweep5Upto4(a: seq<int>, b: seq<int>, c: seq<int>)
    requires a == seq(54, Cap16Table4)[0 := 8] && b == seq(54, Cap16Table5) && c == seq(55, Cap16Carries5)
    ensures TraceOk(a, b, c, 0, 30)
  {
    Cap16Sweep5Upto3(a, b, c);
    Cap16Sweep5Part4(a, b, c);
    TraceJoin(a, b, c, 0, 24, 30);
  }

  lemma Cap16Sweep5Part5(a: seq<int>, b: seq<int>, c: seq<int>)
    requires a == seq(54, Cap16Table4)[0 := 8] && b == seq(54, Cap16Table5) && c == seq(55, Cap16Carries5)
    ensures TraceOk(a, b, c, 30, 36)
  {
    assert TraceOk(a, b, c, 30, 31);
    assert TraceOk(a, b, c, 30, 32);
    assert TraceOk(a, b, c, 30, 33);
    assert TraceOk(a, b, c, 30, 34);
    assert TraceOk(a, b, c, 30, 35);
  }

  lemma Cap16Sweep5Upto5(a: seq<int>, b: seq<int>, c: seq<int>)
    requires a == seq(54, Cap16Table4)[0 := 8] && b == seq(54, Cap16Table5) && c == seq(55, Cap16Carries5)
    ensures TraceOk(a, b, c, 0, 36)
  {
    Cap16Sweep5Upto4(a, b, c);
    Cap16Sweep5Part5(a, b, c);
    TraceJoin(a, b, c, 0, 30, 36);
  }

  lemma Cap16Sweep5Part6(a: seq<int>, b: seq<int>, c: seq<int>)
    requires a == seq(54, Cap16Table4)[0 := 8] && b == seq(54, Cap16Table5) && c == seq(55, Cap16Carries5)
    ensures TraceOk(a, b, c, 36, 42)
  {
    assert TraceOk(a, b, c, 36, 37);
    assert TraceOk(a, b, c, 36, 38);
    assert TraceOk(a, b, c, 36, 39);
    assert TraceOk(a, b, c, 36, 40);
    assert TraceOk(a, b, c, 36, 41);
  }

  lemma Cap16Sweep5Upto6(a: seq<int>, b: seq<int>, c: seq<int>)
    requires a == seq(54, Cap16Table4)[0 := 8] && b == seq(54, Cap16Table5) && c == seq(55, Cap16Carries5)
    ensures TraceOk(a, b, c, 0, 42)
  {
    Cap16Sweep5Upto5(a, b, c);
    Cap16Sweep5Part6(a, b, c);
    TraceJoin(a, b, c, 0, 36, 42);
  }

  lemma Cap16Sweep5Part7(a: seq<int>, b: seq<int>, c: seq<int>)
    requires a == seq(54, Cap16Table4)[0 := 8] && b == seq(54, Cap16Table5) && c == seq(55, Cap16Carries5)
    ensures TraceOk(a, b, c, 42, 48)
  {
    assert TraceOk(a, b, c, 42, 43);
    assert TraceOk(a, b, c, 42, 44);
    assert TraceOk(a, b, c, 42, 45);
    assert TraceOk(a, b, c, 42, 46);
    assert TraceOk(a, b, c, 42, 47);
  }

  lemma Cap16Sweep5Upto7(a: seq<int>, b: seq<int>, c: seq<int>)
    requires a == seq(54, Cap16Table4)[0 := 8] && b == seq(54, Cap16Table5) && c == seq(55, Cap16Carries5)
    ensures TraceOk(a, b, c, 0, 48)
  {
    Cap16Sweep5Upto6(a, b, c);
    Cap16Sweep5Part7(a, b, c);
    TraceJoin(a, b, c, 0, 42, 48);
  }

  lemma Cap16Sweep5Part8(a: seq<int>, b: seq<int>, c: seq<int>)
    requires a == seq(54, Cap16Table4)[0 := 8] && b == seq(54, Cap16Table5) && c == seq(55, Cap16Carries5)
    ensures TraceOk(a, b, c, 48, 54)
  {
    assert TraceOk(a, b, c, 48, 49);
    assert TraceOk(a, b, c, 48, 50);
    assert TraceOk(a, b, c, 48, 51);
    assert TraceOk(a, b, c, 48, 52);
    assert TraceOk(a, b, c, 48, 53);
  }

  lemma Cap16Sweep5Upto8(a: seq<int>, b: seq<int>, c: seq<int>)
    requires a == seq(54, Cap16Table4)[0 := 8] && b == seq(54, Cap16Table5) && c == seq(55, Cap16Carries5)
    ensures TraceOk(a, b, c, 0, 54)
  {
    Cap16Sweep5Upto7(a, b, c);
    Cap16Sweep5Part8(a, b, c);
    TraceJoin(a, b, c, 0, 48, 54);
  }

  lemma Cap16Sweep5(a: seq<int>, b: seq<int>, c: seq<int>)
    requires a == seq(54, Cap16Table4)[0 := 8] && b == seq(54, Cap16Table5) && c == seq(55, Cap16Carries5)
    ensures Sweep(a, 54, 0) == (b, 92)
  {
    Cap16Sweep5Upto8(a, b, c);
    assert b[54..] == a[54..];
    SweepByTrace(a, b, c, 54);
  }

  lemma Cap16Settle5(s: State, b: seq<int>)
    requires |s.a| == 54 && s.queue == [] && s.nines == 0 && s.predigit == 5 && s.started == true
    requires b == seq(54, Cap16Table5) && SweptTable(s.a) == b[0 := 2] && Carry(s.a) == 9
    ensures Round(s) == State(seq(54, Cap16Table5)[0 := 2], [], 1, 5, true)
  {
    assert s.queue + [] == s.queue;
  }

  lemma Cap16Round5(s: State)
    requires s == State(seq(54, Cap16Table4)[0 := 8], [], 0, 5, true)
    ensures Round(s) == State(seq(54, Cap16Table5)[0 := 2], [], 1, 5, true)
  {
    var b, c := seq(54, Cap16Table5), seq(55, Cap16Carries5);
    Cap16Sweep5(s.a, b, c);
    SweepFacts(s.a, b, 92);
    QuotRemNonneg(92, 10);
    Cap16Settle5(s, b);
  }

  /** The table after the sweep of round 6. */
  function Cap16Table6(i: int): int
  {
    if i < 27 then
      if i < 13 then
        if i < 6 then
          if i < 3 then
            if i < 1 then
              0
            else
              if i < 2 then
                0
              else
                1
          else
            if i < 4 then
              2
            else
              if i < 5 then
                4
              else
                6
        else
          if i < 9 then
            if i < 7 then
              12
            else
              if i < 8 then
                13
              else
                9
          else
            if i < 11 then
              if i < 10 then
                4
              else
                20
            else
              if i < 12 then
                11
              else
                18
      else
        if i < 20 then
          if i < 16 then
            if i < 14 then
              11
            else
              if i < 15 then
                2
              else
                26
          else
            if i < 18 then
              if i < 17 then
                27
              else
                22
            else
              if i < 19 then
                11
              else
                1
        else
          if i < 23 then
            if i < 21 then
              9
            else
              if i < 22 then
                3
              else
                5
          else
            if i < 25 then
              if i < 24 then
                38
              else
                2
            else
              if i < 26 then
                28
              else
                18
    else
      if i < 40 then
        if i < 33 then
          if i < 30 then
            if i < 28 then
              41
            else
              if i < 29 then
                33
              else
                43
          else
            if i < 31 then
              24
            else
              if i < 32 then
                24
              else
                52
        else
          if i < 36 then
            if i < 34 then
              38
            else
              if i < 35 then
                14
              else
                59
          else
            if i < 38 then
              if i < 37 then
                22
              else
                1
            else
              if i < 39 then
                63
              else
                38
      else
        if i < 47 then
          if i < 43 then
            if i < 41 then
              22
            else
              if i < 42 then
                6
              else
                3
          else
            if i < 45 then
              if i < 44 then
                22
              else
                81
            else
              if i < 46 then
                31
              else
                88
        else
          if i < 50 then
            if i < 48 then
              63
            else
              if i < 49 then
                68
              else
                20
          else
            if i < 52 then
              if i < 51 then
                92
              else
                92
            else
              if i < 53 then
                80
              else
                95
  }

  /** The carries of the sweep of round 6, by position. */
  function Cap16Carries6(i: int): int
  {
    if i < 27 then
      if i < 13 then
        if i < 6 then
          if i < 3 then
            if i < 1 then
              26
            else
              if i < 2 then
                6
              else
                9
          else
            if i < 4 then
              12
            else
              if i < 5 then
                14
              else
                10
        else
          if i < 9 then
            if i < 7 then
              11
            else
              if i < 8 then
                5
              else
                11
          else
            if i < 11 then
              if i < 10 then
                14
              else
                9
            else
              if i < 12 then
                9
              else
                9
      else
        if i < 20 then
          if i < 16 then
            if i < 14 then
              11
            else
              if i < 15 then
                12
              else
                6
          else
            if i < 18 then
              if i < 17 then
                7
              else
                14
            else
              if i < 19 then
                14
              else
                11
        else
          if i < 23 then
            if i < 21 then
              12
            else
              if i < 22 then
                11
              else
                13
          else
            if i < 25 then
              if i < 24 then
                10
              else
                12
            else
              if i < 26 then
                8
              else
                11
    else
      if i < 41 then
        if i < 34 then
          if i < 30 then
            if i < 28 then
              3
            else
              if i < 29 then
                2
              else
                3
          else
            if i < 32 then
              if i < 31 then
                6
              else
                10
            else
              if i < 33 then
                2
              else
                4
        else
          if i < 37 then
            if i < 35 then
              9
            else
              if i < 36 then
                11
              else
                15
          else
            if i < 39 then
              if i < 38 then
                11
              else
                7
            else
              if i < 40 then
                8
              else
                10
      else
        if i < 48 then
          if i < 44 then
            if i < 42 then
              12
            else
              if i < 43 then
                11
              else
                6
          else
            if i < 46 then
              if i < 45 then
                6
              else
                7
            else
              if i < 47 then
                13
              else
                11
        else
          if i < 51 then
            if i < 49 then
              6
            else
              if i < 50 then
                10
              else
                6
          else
            if i < 53 then
              if i < 52 then
                8
              else
                3
            else
              if i < 54 then
                5
              else
                0
  }

  lemma Cap16Sweep6Part0(a: seq<int>, b: seq<int>, c: seq<int>)
    requires a == seq(54, Cap16Table5)[0 := 2] && b == seq(54, Cap16Table6) && c == seq(55, Cap16Carries6)
    ensures TraceOk(a, b, c, 0, 6)
  {
    assert TraceOk(a, b, c, 0, 1);
    assert TraceOk(a, b, c, 0, 2);
    assert TraceOk(a, b, c, 0, 3);
    assert TraceOk(a, b, c, 0, 4);
    assert TraceOk(a, b, c, 0, 5);
  }

  lemma Cap16Sweep6Part1(a: seq<int>, b: seq<int>, c: seq<int>)
    requires a == seq(54, Cap16Table5)[0 := 2] && b == seq(54, Cap16Table6) && c == seq(55, Cap16Carries6)
    ensures TraceOk(a, b, c, 6, 12)
  {
    assert TraceOk(a, b, c, 6, 7);
    assert TraceOk(a, b, c, 6, 8);
    assert TraceOk(a, b, c, 6, 9);
    assert TraceOk(a, b, c, 6, 10);
    assert TraceOk(a, b, c, 6, 11);
  }

  lemma Cap16Sweep6Upto1(a: seq<int>, b: seq<int>, c: seq<int>)
    requires a == seq(54, Cap16Table5)[0 := 2] && b == seq(54, Cap16Table6) && c == seq(55, Cap16Carries6)
    ensures TraceOk(a, b, c, 0, 12)
  {
    Cap16Sweep6Part0(a, b, c);
    Cap16Sweep6Part1(a, b, c);
    TraceJoin(a, b, c, 0, 6, 12);
  }

  lemma Cap16Sweep6Part2(a: seq<int>, b: seq<int>, c: seq<int>)
    requires a == seq(54, Cap16Table5)[0 := 2] && b == seq(54, Cap16Table6) && c == seq(55, Cap16Carries6)
    ensures TraceOk(a, b, c, 12, 18)
  {
    assert TraceOk(a, b, c, 12, 13);
    assert TraceOk(a, b, c, 12, 14);
    assert TraceOk(a, b, c, 12, 15);
    assert TraceOk(a, b, c, 12, 16);
    assert TraceOk(a, b, c, 12, 17);
  }

  lemma Cap16Sweep6Upto2(a: seq<int>, b: seq<int>, c: seq<int>)
    requires a == seq(54, Cap16Table5)[0 := 2] && b == seq(54, Cap16Table6) && c == seq(55, Cap16Carries6)
    ensures TraceOk(a, b, c, 0, 18)
  {
    Cap16Sweep6Upto1(a, b, c);
    Cap16Sweep6Part2(a, b, c);
    TraceJoin(a, b, c, 0, 12, 18);
  }

  lemma Cap16Sweep6Part3(a: seq<int>, b: seq<int>, c: seq<int>)
    requires a == seq(54, Cap16Table5)[0 := 2] && b == seq(54, Cap16Table6) && c == seq(55, Cap16Carries6)
    ensures TraceOk(a, b, c, 18, 24)
  {
    assert TraceOk(a, b, c, 18, 19);
    assert TraceOk(a, b, c, 18, 20);
    assert TraceOk(a, b, c, 18, 21);
    assert TraceOk(a, b, c, 18, 22);
    assert TraceOk(a, b, c, 18, 23);
  }

  lemma Cap16Sweep6Upto3(a: seq<int>, b: seq<int>, c: seq<int>)
    requires a == seq(54, Cap16Table5)[0 := 2] && b == seq(54, Cap16Table6) && c == seq(55, Cap16Carries6)
    ensures TraceOk(a, b, c, 0, 24)
  {
    Cap16Sweep6Upto2(a, b, c);
    Cap16Sweep6Part3(a, b, c);
    TraceJoin(a, b, c, 0, 18, 24);
  }

  lemma Cap16Sweep6Part4(a: seq<int>, b: seq<int>, c: seq<int>)
    requires a == seq(54, Cap16Table5)[0 := 2] && b == seq(54, Cap16Table6) && c == seq(55, Cap16Carries6)
    ensures TraceOk(a, b, c, 24, 30)
  {
    assert TraceOk(a, b, c, 24, 25);
    assert TraceOk(a, b, c, 24, 26);
    assert TraceOk(a, b, c, 24, 27);
    assert TraceOk(a, b, c, 24, 28);
    assert TraceOk(a, b, c, 24, 29);
  }

  lemma Cap16Sweep6Upto4(a: seq<int>, b: seq<int>, c: seq<int>)
    requires a == seq(54, Cap16Table5)[0 := 2] && b == seq(54, Cap16Table6) && c == seq(55, Cap16Carries6)
    ensures TraceOk(a, b, c, 0, 30)
  {
    Cap16Sweep6Upto3(a, b, c);
    Cap16Sweep6Part4(a, b, c);
    TraceJoin(a, b, c, 0, 24, 30);
  }

  lemma Cap16Sweep6Part5(a: seq<int>, b: seq<int>, c: seq<int>)
    requires a == seq(54, Cap16Table5)[0 := 2] && b == seq(54, Cap16Table6) && c == seq(55, Cap16Carries6)
    ensures TraceOk(a, b, c, 30, 36)
  {
    assert TraceOk(a, b, c, 30, 31);
    assert TraceOk(a, b, c, 30, 32);
    assert TraceOk(a, b, c, 30, 33);
    assert TraceOk(a, b, c, 30, 34);
    assert TraceOk(a, b, c, 30, 35);
  }

  lemma Cap16Sweep6Upto5(a: seq<int>, b: seq<int>, c: seq<int>)
    requires a == seq(54, Cap16Table5)[0 := 2] && b == seq(54, Cap16Table6) && c == seq(55, Cap16Carries6)
    ensures TraceOk(a, b, c, 0, 36)
  {
    Cap16Sweep6Upto4(a, b, c);
    Cap16Sweep6Part5(a, b, c);
    TraceJoin(a, b, c, 0, 30, 36);
  }

  lemma Cap16Sweep6Part6(a: seq<int>, b: seq<int>, c: seq<int>)
    requires a == seq(54, Cap16Table5)[0 := 2] && b == seq(54, Cap16Table6) && c == seq(55, Cap16Carries6)
    ensures TraceOk(a, b, c, 36, 42)
  {
    assert TraceOk(a, b, c, 36, 37);
    assert TraceOk(a, b, c, 36, 38);
    assert TraceOk(a, b, c, 36, 39);
    assert TraceOk(a, b, c, 36, 40);
    assert TraceOk(a, b, c, 36, 41);
  }

  lemma Cap16Sweep6Upto6(a: seq<int>, b: seq<int>, c: seq<int>)
    requires a == seq(54, Cap16Table5)[0 := 2] && b == seq(54, Cap16Table6) && c == seq(55, Cap16Carries6)
    ensures TraceOk(a, b, c, 0, 42)
  {
    Cap16Sweep6Upto5(a, b, c);
    Cap16Sweep6Part6(a, b, c);
    TraceJoin(a, b, c, 0, 36, 42);
  }

  lemma Cap16Sweep6Part7(a: seq<int>, b: seq<int>, c: seq<int>)
    requires a == seq(54, Cap16Table5)[0 := 2] && b == seq(54, Cap16Table6) && c == seq(55, Cap16Carries6)
    ensures TraceOk(a, b, c, 42, 48)
  {
    assert TraceOk(a, b, c, 42, 43);
    assert TraceOk(a, b, c, 42, 44);
    assert TraceOk(a, b, c, 42, 45);
    assert TraceOk(a, b, c, 42, 46);
    assert TraceOk(a, b, c, 42, 47);
  }

  lemma Cap16Sweep6Upto7(a: seq<int>, b: seq<int>, c: seq<int>)
    requires a == seq(54, Cap16Table5)[0 := 2] && b == seq(54, Cap16Table6) && c == seq(55, Cap16Carries6)
    ensures TraceOk(a, b, c, 0, 48)
  {
    Cap16Sweep6Upto6(a, b, c);
    Cap16Sweep6Part7(a, b, c);
    TraceJoin(a, b, c, 0, 42, 48);
  }

  lemma Cap16Sweep6Part8(a: seq<int>, b: seq<int>, c: seq<int>)
    requires a == seq(54, Cap16Table5)[0 := 2] && b == seq(54, Cap16Table6) && c == seq(55, Cap16Carries6)
    ensures TraceOk(a, b, c, 48, 54)
  {
    assert TraceOk(a, b, c, 48, 49);
    assert TraceOk(a, b, c, 48, 50);
    assert TraceOk(a, b, c, 48, 51);
    assert TraceOk(a, b, c, 48, 52);
    assert TraceOk(a, b, c, 48, 53);
  }

  lemma Cap16Sweep6Upto8(a: seq<int>, b: seq<int>, c: seq<int>)
    requires a == seq(54, Cap16Table5)[0 := 2] && b == seq(54, Cap16Table6) && c == seq(55, Cap16Carries6)
    ensures TraceOk(a, b, c, 0, 54)
  {
    Cap16Sweep6Upto7(a, b, c);
    Cap16Sweep6Part8(a, b, c);
    TraceJoin(a, b, c, 0, 48, 54);
  }

  lemma Cap16Sweep6(a: seq<int>, b: seq<int>, c: seq<int>)
    requires a == seq(54, Cap16Table5)[0 := 2] && b == seq(54, Cap16Table6) && c == seq(55, Cap16Carries6)
    ensures Sweep(a, 54, 0) == (b, 26)
  {
    Cap16Sweep6Upto8(a, b, c);
    assert b[54..] == a[54..];
    SweepByTrace(a, b, c, 54);
  }

  lemma Cap16Settle6(s: State, b: seq<int>)
    requires |s.a| == 54 && s.queue == [] && s.nines == 1 && s.predigit == 5 && s.started == true
    requires b == seq(54, Cap16Table6) && SweptTable(s.a) == b[0 := 6] && Carry(s.a) == 2
    ensures Round(s) == State(seq(54, Cap16Table6)[0 := 6], [5, 9], 0, 2, true)
  {
    SettleRelease(5, 2);
    assert [] + [5, 9] == [5, 9];
  }

  lemma Cap16Round6(s: State)
    requires s == State(seq(54, Cap16Table5)[0 := 2], [], 1, 5, true)
    ensures Round(s) == State(seq(54, Cap16Table6)[0 := 6], [5, 9], 0, 2, true)
  {
    var b, c := seq(54, Cap16Table6), seq(55, Cap16Carries6);
    Cap16Sweep6(s.a, b, c);
    SweepFacts(s.a, b, 26);
    QuotRemNonneg(26, 10);
    Cap16Settle6(s, b);
  }

  lemma Cap16Next4(s: State)
    requires s == State(seq(54, Cap16Table4)[0 := 8], [], 0, 5, true)
    ensures Next(s, 1) == Some((5, State(seq(54, Cap16Table6)[0 := 6], [9], 0, 2, true)))
  {
    var t := s;
    Cap16Round5(t);
    t := Suppress(Round(t));
    Cap16Round6(t);
  }

  lemma Cap16Next5(s: State)
    requires s == State(seq(54, Cap16Table6)[0 := 6], [9], 0, 2, true)
    ensures Next(s, 1) == Some((9, State(seq(54, Cap16Table6)[0 := 6], [], 0, 2, true)))
  {
    assert s.queue[1..] == [];
  }

  /** The table after the sweep of round 7. */
  function Cap16Table7(i: int): int
  {
    if i < 27 then
      if i < 13 then
        if i < 6 then
          if i < 3 then
            if i < 1 then
              0
            else
              if i < 2 then
                2
              else
                2
          else
            if i < 4 then
              5
            else
              if i < 5 then
                2
              else
                2
        else
          if i < 9 then
            if i < 7 then
              10
            else
              if i < 8 then
                0
              else
                1
          else
            if i < 11 then
              if i < 10 then
                9
              else
                16
            else
              if i < 12 then
                0
              else
                21
      else
        if i < 20 then
          if i < 16 then
            if i < 14 then
              19
            else
              if i < 15 then
                27
              else
                2
          else
            if i < 18 then
              if i < 17 then
                26
              else
                29
            else
              if i < 19 then
                18
              else
                31
        else
          if i < 23 then
            if i < 21 then
              30
            else
              if i < 22 then
                33
              else
                10
          else
            if i < 25 then
              if i < 24 then
                30
              else
                25
            else
              if i < 26 then
                30
              else
                1
    else
      if i < 40 then
        if i < 33 then
          if i < 30 then
            if i < 28 then
              3
            else
              if i < 29 then
                22
              else
                21
          else
            if i < 31 then
              31
            else
              if i < 32 then
                57
              else
                37
        else
          if i < 36 then
            if i < 34 then
              15
            else
              if i < 35 then
                7
              else
                60
          else
            if i < 38 then
              if i < 37 then
                40
              else
                53
            else
              if i < 39 then
                17
              else
                26
      else
        if i < 47 then
          if i < 43 then
            if i < 41 then
              59
            else
              if i < 42 then
                62
              else
                77
          else
            if i < 45 then
              if i < 44 then
                53
              else
                14
            else
              if i < 46 then
                90
              else
                49
        else
          if i < 50 then
            if i < 48 then
              66
            else
              if i < 49 then
                6
              else
                10
          else
            if i < 52 then
              if i < 51 then
                18
              else
                50
            else
              if i < 53 then
                69
              else
                94
  }

  /** The carries of the sweep of round 7, by position. */
  function Cap16Carries7(i: int): int
  {
    if i < 27 then
      if i < 13 then
        if i < 6 then
          if i < 3 then
            if i < 1 then
              64
            else
              if i < 2 then
                4
              else
                7
          else
            if i < 4 then
              9
            else
              if i < 5 then
                12
              else
                14
        else
          if i < 9 then
            if i < 7 then
              16
            else
              if i < 8 then
                14
              else
                10
          else
            if i < 11 then
              if i < 10 then
                9
              else
                14
            else
              if i < 12 then
                10
              else
                10
      else
        if i < 20 then
          if i < 16 then
            if i < 14 then
              7
            else
              if i < 15 then
                7
              else
                14
          else
            if i < 18 then
              if i < 17 then
                11
              else
                7
            else
              if i < 19 then
                3
              else
                1
        else
          if i < 23 then
            if i < 21 then
              3
            else
              if i < 22 then
                3
              else
                6
          else
            if i < 25 then
              if i < 24 then
                10
              else
                5
            else
              if i < 26 then
                10
              else
                10
    else
      if i < 41 then
        if i < 34 then
          if i < 30 then
            if i < 28 then
              13
            else
              if i < 29 then
                11
              else
                11
          else
            if i < 32 then
              if i < 31 then
                8
              else
                9
            else
              if i < 33 then
                12
              else
                9
        else
          if i < 37 then
            if i < 35 then
              7
            else
              if i < 36 then
                10
              else
                5
          else
            if i < 39 then
              if i < 38 then
                5
              else
                11
            else
              if i < 40 then
                6
              else
                3
      else
        if i < 48 then
          if i < 44 then
            if i < 42 then
              2
            else
              if i < 43 then
                4
              else
                9
          else
            if i < 46 then
              if i < 45 then
                14
              else
                10
            else
              if i < 47 then
                15
              else
                12
        else
          if i < 51 then
            if i < 49 then
              12
            else
              if i < 50 then
                10
              else
                16
          else
            if i < 53 then
              if i < 52 then
                14
              else
                11
            else
              if i < 54 then
                8
              else
                0
  }

  lemma Cap16Sweep7Part0(a: seq<int>, b: seq<int>, c: seq<int>)
    requires a == seq(54, Cap16Table6)[0 := 6] && b == seq(54, Cap16Table7) && c == seq(55, Cap16Carries7)
    ensures TraceOk(a, b, c, 0, 6)
  {
    assert TraceOk(a, b, c, 0, 1);
    assert TraceOk(a, b, c, 0, 2);
    assert TraceOk(a, b, c, 0, 3);
    assert TraceOk(a, b, c, 0, 4);
    assert TraceOk(a, b, c, 0, 5);
  }

  lemma Cap16Sweep7Part1(a: seq<int>, b: seq<int>, c: seq<int>)
    requires a == seq(54, Cap16Table6)[0 := 6] && b == seq(54, Cap16Table7) && c == seq(55, Cap16Carries7)
    ensures TraceOk(a, b, c, 6, 12)
  {
    assert TraceOk(a, b, c, 6, 7);
    assert TraceOk(a, b, c, 6, 8);
    assert TraceOk(a, b, c, 6, 9);
    assert TraceOk(a, b, c, 6, 10);
    assert TraceOk(a, b, c, 6, 11);
  }

  lemma Cap16Sweep7Upto1(a: seq<int>, b: seq<int>, c: seq<int>)
    requires a == seq(54, Cap16Table6)[0 := 6] && b == seq(54, Cap16Table7) && c == seq(55, Cap16Carries7)
    ensures TraceOk(a, b, c, 0, 12)
  {
    Cap16Sweep7Part0(a, b, c);
    Cap16Sweep7Part1(a, b, c);
    TraceJoin(a, b, c, 0, 6, 12);
  }

  lemma Cap16Sweep7Part2(a: seq<int>, b: seq<int>, c: seq<int>)
    requires a == seq(54, Cap16Table6)[0 := 6] && b == seq(54, Cap16Table7) && c == seq(55, Cap16Carries7)
    ensures TraceOk(a, b, c, 12, 18)
  {
    assert TraceOk(a, b, c, 12, 13);
    assert TraceOk(a, b, c, 12, 14);
    assert TraceOk(a, b, c, 12, 15);
    assert TraceOk(a, b, c, 12, 16);
    assert TraceOk(a, b, c, 12, 17);
  }

  lemma Cap16Sweep7Upto2(a: seq<int>, b: seq<int>, c: seq<int>)
    requires a == seq(54, Cap16Table6)[0 := 6] && b == seq(54, Cap16Table7) && c == seq(55, Cap16Carries7)
    ensures TraceOk(a, b, c, 0, 18)
  {
    Cap16Sweep7Upto1(a, b, c);
    Cap16Sweep7Part2(a, b, c);
    TraceJoin(a, b, c, 0, 12, 18);
  }

  lemma Cap16Sweep7Part3(a: seq<int>, b: seq<int>, c: seq<int>)
    requires a == seq(54, Cap16Table6)[0 := 6] && b == seq(54, Cap16Table7) && c == seq(55, Cap16Carries7)
    ensures TraceOk(a, b, c, 18, 24)
  {
    assert TraceOk(a, b, c, 18, 19);
    assert TraceOk(a, b, c, 18, 20);
    assert TraceOk(a, b, c, 18, 21);
    assert TraceOk(a, b, c, 18, 22);
    assert TraceOk(a, b, c, 18, 23);
  }

  lemma Cap16Sweep7Upto3(a: seq<int>, b: seq<int>, c: seq<int>)
    requires a == seq(54, Cap16Table6)[0 := 6] && b == seq(54, Cap16Table7) && c == seq(55, Cap16Carries7)
    ensures TraceOk(a, b, c, 0, 24)
  {
    Cap16Sweep7Upto2(a, b, c);
    Cap16Sweep7Part3(a, b, c);
    TraceJoin(a, b, c, 0, 18, 24);
  }

  lemma Cap16Sweep7Part4(a: seq<int>, b: seq<int>, c: seq<int>)
    requires a == seq(54, Cap16Table6)[0 := 6] && b == seq(54, Cap16Table7) && c == seq(55, Cap16Carries7)
    ensures TraceOk(a, b, c, 24, 30)
  {
    assert TraceOk(a, b, c, 24, 25);
    assert TraceOk(a, b, c, 24, 26);
    assert TraceOk(a, b, c, 24, 27);
    assert TraceOk(a, b, c, 24, 28);
    assert TraceOk(a, b, c, 24, 29);
  }

  lemma Cap16Sweep7Upto4(a: seq<int>, b: seq<int>, c: seq<int>)
    requires a == seq(54, Cap16Table6)[0 := 6] && b == seq(54, Cap16Table7) && c == seq(55, Cap16Carries7)
    ensures TraceOk(a, b, c, 0, 30)
  {
    Cap16Sweep7Upto3(a, b, c);
    Cap16Sweep7Part4(a, b, c);
    TraceJoin(a, b, c, 0, 24, 30);
  }

  lemma Cap16Sweep7Part5(a: seq<int>, b: seq<int>, c: seq<int>)
    requires a == seq(54, Cap16Table6)[0 := 6] && b == seq(54, Cap16Table7) && c == seq(55, Cap16Carries7)
    ensures TraceOk(a, b, c, 30, 36)
  {
    assert TraceOk(a, b, c, 30, 31);
    assert TraceOk(a, b, c, 30, 32);
    assert TraceOk(a, b, c, 30, 33);
    assert TraceOk(a, b, c, 30, 34);
    assert TraceOk(a, b, c, 30, 35);
  }

  lemma Cap16Sweep7Upto5(a: seq<int>, b: seq<int>, c: seq<int>)
    requires a == seq(54, Cap16Table6)[0 := 6] && b == seq(54, Cap16Table7) && c == seq(55, Cap16Carries7)
    ensures TraceOk(a, b, c, 0, 36)
  {
    Cap16Sweep7Upto4(a, b, c);
    Cap16Sweep7Part5(a, b, c);
    TraceJoin(a, b, c, 0, 30, 36);
  }

  lemma Cap16Sweep7Part6(a: seq<int>, b: seq<int>, c: seq<int>)
    requires a == seq(54, Cap16Table6)[0 := 6] && b == seq(54, Cap16Table7) && c == seq(55, Cap16Carries7)
    ensures TraceOk(a, b, c, 36, 42)
  {
    assert TraceOk(a, b, c, 36, 37);
    assert TraceOk(a, b, c, 36, 38);
    assert TraceOk(a, b, c, 36, 39);
    assert TraceOk(a, b, c, 36, 40);
    assert TraceOk(a, b, c, 36, 41);
  }

  lemma Cap16Sweep7Upto6(a: seq<int>, b: seq<int>, c: seq<int>)
    requires a == seq(54, Cap16Table6)[0 := 6] && b == seq(54, Cap16Table7) && c == seq(55, Cap16Carries7)
    ensures TraceOk(a, b, c, 0, 42)
  {
    Cap16Sweep7Upto5(a, b, c);
    Cap16Sweep7Part6(a, b, c);
    TraceJoin(a, b, c, 0, 36, 42);
  }

  lemma Cap16Sweep7Part7(a: seq<int>, b: seq<int>, c: seq<int>)
    requires a == seq(54, Cap16Table6)[0 := 6] && b == seq(54, Cap16Table7) && c == seq(55, Cap16Carries7)
    ensures TraceOk(a, b, c, 42, 48)
  {
    assert TraceOk(a, b, c, 42, 43);
    assert TraceOk(a, b, c, 42, 44);
    assert TraceOk(a, b, c, 42, 45);
    assert TraceOk(a, b, c, 42, 46);
    assert TraceOk(a, b, c, 42, 47);
  }

  lemma Cap16Sweep7Upto7(a: seq<int>, b: seq<int>, c: seq<int>)
    requires a == seq(54, Cap16Table6)[0 := 6] && b == seq(54, Cap16Table7) && c == seq(55, Cap16Carries7)
    ensures TraceOk(a, b, c, 0, 48)
  {
    Cap16Sweep7Upto6(a, b, c);
    Cap16Sweep7Part7(a, b, c);
    TraceJoin(a, b, c, 0, 42, 48);
  }

  lemma Cap16Sweep7Part8(a: seq<int>, b: seq<int>, c: seq<int>)
    requires a == seq(54, Cap16Table6)[0 := 6] && b == seq(54, Cap16Table7) && c == seq(55, Cap16Carries7)
    ensures TraceOk(a, b, c, 48, 54)
  {
    assert TraceOk(a, b, c, 48, 49);
    assert TraceOk(a, b, c, 48, 50);
    assert TraceOk(a, b, c, 48, 51);
    assert TraceOk(a, b, c, 48, 52);
    assert TraceOk(a, b, c, 48, 53);
  }

  lemma Cap16Sweep7Upto8(a: seq<int>, b: seq<int>, c: seq<int>)
    requires a == seq(54, Cap16Table6)[0 := 6] && b == seq(54, Cap16Table7) && c == seq(55, Cap16Carries7)
    ensures TraceOk(a, b, c, 0, 54)
  {
    Cap16Sweep7Upto7(a, b, c);
    Cap16Sweep7Part8(a, b, c);
    TraceJoin(a, b, c, 0, 48, 54);
  }

  lemma Cap16Sweep7(a: seq<int>, b: seq<int>, c: seq<int>)
    requires a == seq(54, Cap16Table6)[0 := 6] && b == seq(54, Cap16Table7) && c == seq(55, Cap16Carries7)
    ensures Sweep(a, 54, 0) == (b, 64)
  {
    Cap16Sweep7Upto8(a, b, c);
    assert b[54..] == a[54..];
    SweepByTrace(a, b, c, 54);
  }

  lemma Cap16Settle7(s: State, b: seq<int>)
    requires |s.a| == 54 && s.queue == [] && s.nines == 0 && s.predigit == 2 && s.started == true
    requires b == seq(54, Cap16Table7) && SweptTable(s.a) == b[0 := 4] && Carry(s.a) == 6
    ensures Round(s) == State(seq(54, Cap16Table7)[0 := 4], [2], 0, 6, true)
  {
    SettleHold(2, 6);
    assert [] + [2] == [2];
  }

  lemma Cap16Round7(s: State)
    requires s == State(seq(54, Cap16Table6)[0 := 6], [], 0, 2, true)
    ensures Round(s) == State(seq(54, Cap16Table7)[0 := 4], [2], 0, 6, true)
  {
    var b, c := seq(54, Cap16Table7), seq(55, Cap16Carries7);
    Cap16Sweep7(s.a, b, c);
    SweepFacts(s.a, b, 64);
    QuotRemNonneg(64, 10);
    Cap16Settle7(s, b);
  }

  lemma Cap16Next6(s: State)
    requires s == State(seq(54, Cap16Table6)[0 := 6], [], 0, 2, true)
    ensures Next(s, 1) == Some((2, State(seq(54, Cap16Table7)[0 := 4], [], 0, 6, true)))
  {
    var t := s;
    Cap16Round7(t);
  }

  /** The table after the sweep of round 8. */
  function Cap16Table8(i: int): int
  {
    if i < 27 then
      if i < 13 then
        if i < 6 then
          if i < 3 then
            if i < 1 then
              0
            else
              if i < 2 then
                1
              else
                0
          else
            if i < 4 then
              0
            else
              if i < 5 then
                5
              else
                2
        else
          if i < 9 then
            if i < 7 then
              10
            else
              if i < 8 then
                10
              else
                15
          else
            if i < 11 then
              if i < 10 then
                10
              else
                6
            else
              if i < 12 then
                19
              else
                4
      else
        if i < 20 then
          if i < 16 then
            if i < 14 then
              21
            else
              if i < 15 then
                13
              else
                12
          else
            if i < 18 then
              if i < 17 then
                3
              else
                16
            else
              if i < 19 then
                2
              else
                4
        else
          if i < 23 then
            if i < 21 then
              39
            else
              if i < 22 then
                11
              else
                15
          else
            if i < 25 then
              if i < 24 then
                22
              else
                8
            else
              if i < 26 then
                46
              else
                12
    else
      if i < 40 then
        if i < 33 then
          if i < 30 then
            if i < 28 then
              34
            else
              if i < 29 then
                25
              else
                9
          else
            if i < 31 then
              42
            else
              if i < 32 then
                7
              else
                15
        else
          if i < 36 then
            if i < 34 then
              53
            else
              if i < 35 then
                42
              else
                37
          else
            if i < 38 then
              if i < 37 then
                40
              else
                46
            else
              if i < 39 then
                21
              else
                30
      else
        if i < 47 then
          if i < 43 then
            if i < 41 then
              30
            else
              if i < 42 then
                46
              else
                10
          else
            if i < 45 then
              if i < 44 then
                12
              else
                13
            else
              if i < 46 then
                85
              else
                75
        else
          if i < 50 then
            if i < 48 then
              91
            else
              if i < 49 then
                62
              else
                4
          else
            if i < 52 then
              if i < 51 then
                33
              else
                93
            else
              if i < 53 then
                64
              else
                84
  }

  /** The carries of the sweep of round 8, by position. */
  function Cap16Carries8(i: int): int
  {
    if i < 27 then
      if i < 13 then
        if i < 6 then
          if i < 3 then
            if i < 1 then
              53
            else
              if i < 2 then
                13
              else
                10
          else
            if i < 4 then
              10
            else
              if i < 5 then
                5
              else
                6
        else
          if i < 9 then
            if i < 7 then
              8
            else
              if i < 8 then
                2
              else
                5
          else
            if i < 11 then
              if i < 10 then
                10
              else
                11
            else
              if i < 12 then
                7
              else
                15
      else
        if i < 20 then
          if i < 16 then
            if i < 14 then
              13
            else
              if i < 15 then
                13
              else
                8
          else
            if i < 18 then
              if i < 17 then
                15
              else
                14
            else
              if i < 19 then
                12
              else
                14
        else
          if i < 23 then
            if i < 21 then
              12
            else
              if i < 22 then
                11
              else
                7
          else
            if i < 25 then
              if i < 24 then
                10
              else
                8
            else
              if i < 26 then
                6
              else
                2
    else
      if i < 41 then
        if i < 34 then
          if i < 30 then
            if i < 28 then
              4
            else
              if i < 29 then
                8
              else
                9
          else
            if i < 32 then
              if i < 31 then
                11
              else
                13
            else
              if i < 33 then
                8
              else
                5
        else
          if i < 37 then
            if i < 35 then
              7
            else
              if i < 36 then
                13
              else
                10
          else
            if i < 39 then
              if i < 38 then
                10
              else
                7
            else
              if i < 40 then
                10
              else
                14
      else
        if i < 48 then
          if i < 44 then
            if i < 42 then
              14
            else
              if i < 43 then
                14
              else
                10
          else
            if i < 46 then
              if i < 45 then
                8
              else
                13
            else
              if i < 47 then
                8
              else
                7
        else
          if i < 51 then
            if i < 49 then
              2
            else
              if i < 50 then
                4
              else
                6
          else
            if i < 53 then
              if i < 52 then
                9
              else
                10
            else
              if i < 54 then
                8
              else
                0
  }

  lemma Cap16Sweep8Part0(a: seq<int>, b: seq<int>, c: seq<int>)
    requires a == seq(54, Cap16Table7)[0 := 4] && b == seq(54, Cap16Table8) && c == seq(55, Cap16Carries8)
    ensures TraceOk(a, b, c, 0, 6)
  {
    assert TraceOk(a, b, c, 0, 1);
    assert TraceOk(a, b, c, 0, 2);
    assert TraceOk(a, b, c, 0, 3);
    assert TraceOk(a, b, c, 0, 4);
    assert TraceOk(a, b, c, 0, 5);
  }

  lemma Cap16Sweep8Part1(a: seq<int>, b: seq<int>, c: seq<int>)
    requires a == seq(54, Cap16Table7)[0 := 4] && b == seq(54, Cap16Table8) && c == seq(55, Cap16Carries8)
    ensures TraceOk(a, b, c, 6, 12)
  {
    assert TraceOk(a, b, c, 6, 7);
    assert TraceOk(a, b, c, 6, 8);
    assert TraceOk(a, b, c, 6, 9);
    assert TraceOk(a, b, c, 6, 10);
    assert TraceOk(a, b, c, 6, 11);
  }

  lemma Cap16Sweep8Upto1(a: seq<int>, b: seq<int>, c: seq<int>)
    requires a == seq(54, Cap16Table7)[0 := 4] && b == seq(54, Cap16Table8) && c == seq(55, Cap16Carries8)
    ensures TraceOk(a, b, c, 0, 12)
  {
    Cap16Sweep8Part0(a, b, c);
    Cap16Sweep8Part1(a, b, c);
    TraceJoin(a, b, c, 0, 6, 12);
  }

  lemma Cap16Sweep8Part2(a: seq<int>, b: seq<int>, c: seq<int>)
    requires a == seq(54, Cap16Table7)[0 := 4] && b == seq(54, Cap16Table8) && c == seq(55, Cap16Carries8)
    ensures TraceOk(a, b, c, 12, 18)
  {
    assert TraceOk(a, b, c, 12, 13);
    assert TraceOk(a, b, c, 12, 14);
    assert TraceOk(a, b, c, 12, 15);
    assert TraceOk(a, b, c, 12, 16);
    assert TraceOk(a, b, c, 12, 17);
  }

  lemma Cap16Sweep8Upto2(a: seq<int>, b: seq<int>, c: seq<int>)
    requires a == seq(54, Cap16Table7)[0 := 4] && b == seq(54, Cap16Table8) && c == seq(55, Cap16Carries8)
    ensures TraceOk(a, b, c, 0, 18)
  {
    Cap16Sweep8Upto1(a, b, c);
    Cap16Sweep8Part2(a, b, c);
    TraceJoin(a, b, c, 0, 12, 18);
  }

  lemma Cap16Sweep8Part3(a: seq<int>, b: seq<int>, c: seq<int>)
    requires a == seq(54, Cap16Table7)[0 := 4] && b == seq(54, Cap16Table8) && c == seq(55, Cap16Carries8)
    ensures TraceOk(a, b, c, 18, 24)
  {
    assert TraceOk(a, b, c, 18, 19);
    assert TraceOk(a, b, c, 18, 20);
    assert TraceOk(a, b, c, 18, 21);
    assert TraceOk(a, b, c, 18, 22);
    assert TraceOk(a, b, c, 18, 23);
  }

  lemma Cap16Sweep8Upto3(a: seq<int>, b: seq<int>, c: seq<int>)
    requires a == seq(54, Cap16Table7)[0 := 4] && b == seq(54, Cap16Table8) && c == seq(55, Cap16Carries8)
    ensures TraceOk(a, b, c, 0, 24)
  {
    Cap16Sweep8Upto2(a, b, c);
    Cap16Sweep8Part3(a, b, c);
    TraceJoin(a, b, c, 0, 18, 24);
  }

  lemma Cap16Sweep8Part4(a: seq<int>, b: seq<int>, c: seq<int>)
    requires a == seq(54, Cap16Table7)[0 := 4] && b == seq(54, Cap16Table8) && c == seq(55, Cap16Carries8)
    ensures TraceOk(a, b, c, 24, 30)
  {
    assert TraceOk(a, b, c, 24, 25);
    assert TraceOk(a, b, c, 24, 26);
    assert TraceOk(a, b, c, 24, 27);
    assert TraceOk(a, b, c, 24, 28);
    assert TraceOk(a, b, c, 24, 29);
  }

  lemma Cap16Sweep8Upto4(a: seq<int>, b: seq<int>, c: seq<int>)
    requires a == seq(54, Cap16Table7)[0 := 4] && b == seq(54, Cap16Table8) && c == seq(55, Cap16Carries8)
    ensures TraceOk(a, b, c, 0, 30)
  {
    Cap16Sweep8Upto3(a, b, c);
    Cap16Sweep8Part4(a, b, c);
    TraceJoin(a, b, c, 0, 24, 30);
  }

  lemma Cap16Sweep8Part5(a: seq<int>, b: seq<int>, c: seq<int>)
    requires a == seq(54, Cap16Table7)[0 := 4] && b == seq(54, Cap16Table8) && c == seq(55, Cap16Carries8)
    ensures TraceOk(a, b, c, 30, 36)
  {
    assert TraceOk(a, b, c, 30, 31);
    assert TraceOk(a, b, c, 30, 32);
    assert TraceOk(a, b, c, 30, 33);
    assert TraceOk(a, b, c, 30, 34);
    assert TraceOk(a, b, c, 30, 35);
  }

  lemma Cap16Sweep8Upto5(a: seq<int>, b: seq<int>, c: seq<int>)
    requires a == seq(54, Cap16Table7)[0 := 4] && b == seq(54, Cap16Table8) && c == seq(55, Cap16Carries8)
    ensures TraceOk(a, b, c, 0, 36)
  {
    Cap16Sweep8Upto4(a, b, c);
    Cap16Sweep8Part5(a, b, c);
    TraceJoin(a, b, c, 0, 30, 36);
  }

  lemma Cap16Sweep8Part6(a: seq<int>, b: seq<int>, c: seq<int>)
    requires a == seq(54, Cap16Table7)[0 := 4] && b == seq(54, Cap16Table8) && c == seq(55, Cap16Carries8)
    ensures TraceOk(a, b, c, 36, 42)
  {
    assert TraceOk(a, b, c, 36, 37);
    assert TraceOk(a, b, c, 36, 38);
    assert TraceOk(a, b, c, 36, 39);
    assert TraceOk(a, b, c, 36, 40);
    assert TraceOk(a, b, c, 36, 41);
  }

  lemma Cap16Sweep8Upto6(a: seq<int>, b: seq<int>, c: seq<int>)
    requires a == seq(54, Cap16Table7)[0 := 4] && b == seq(54, Cap16Table8) && c == seq(55, Cap16Carries8)
    ensures TraceOk(a, b, c, 0, 42)
  {
    Cap16Sweep8Upto5(a, b, c);
    Cap16Sweep8Part6(a, b, c);
    TraceJoin(a, b, c, 0, 36, 42);
  }

  lemma Cap16Sweep8Part7(a: seq<int>, b: seq<int>, c: seq<int>)
    requires a == seq(54, Cap16Table7)[0 := 4] && b == seq(54, Cap16Table8) && c == seq(55, Cap16Carries8)
    ensures TraceOk(a, b, c, 42, 48)
  {
    assert TraceOk(a, b, c, 42, 43);
    assert TraceOk(a, b, c, 42, 44);
    assert TraceOk(a, b, c, 42, 45);
    assert TraceOk(a, b, c, 42, 46);
    assert TraceOk(a, b, c, 42, 47);
  }

  lemma Cap16Sweep8Upto7(a: seq<int>, b: seq<int>, c: seq<int>)
    requires a == seq(54, Cap16Table7)[0 := 4] && b == seq(54, Cap16Table8) && c == seq(55, Cap16Carries8)
    ensures TraceOk(a, b, c, 0, 48)
  {
    Cap16Sweep8Upto6(a, b, c);
    Cap16Sweep8Part7(a, b, c);
    TraceJoin(a, b, c, 0, 42, 48);
  }

  lemma Cap16Sweep8Part8(a: seq<int>, b: seq<int>, c: seq<int>)
    requires a == seq(54, Cap16Table7)[0 := 4] && b == seq(54, Cap16Table8) && c == seq(55, Cap16Carries8)
    ensures TraceOk(a, b, c, 48, 54)
  {
    assert TraceOk(a, b, c, 48, 49);
    assert TraceOk(a, b, c, 48, 50);
    assert TraceOk(a, b, c, 48, 51);
    assert TraceOk(a, b, c, 48, 52);
    assert TraceOk(a, b, c, 48, 53);
  }

  lemma Cap16Sweep8Upto8(a: seq<int>, b: seq<int>, c: seq<int>)
    requires a == seq(54, Cap16Table7)[0 := 4] && b == seq(54, Cap16Table8) && c == seq(55, Cap16Carries8)
    ensures TraceOk(a, b, c, 0, 54)
  {
    Cap16Sweep8Upto7(a, b, c);
    Cap16Sweep8Part8(a, b, c);
    TraceJoin(a, b, c, 0, 48, 54);
  }

  lemma Cap16Sweep8(a: seq<int>, b: seq<int>, c: seq<int>)
    requires a == seq(54, Cap16Table7)[0 := 4] && b == seq(54, Cap16Table8) && c == seq(55, Cap16Carries8)
    ensures Sweep(a, 54, 0) == (b, 53)
  {
    Cap16Sweep8Upto8(a, b, c);
    assert b[54..] == a[54..];
    SweepByTrace(a, b, c, 54);
  }

  lemma Cap16Settle8(s: State, b: seq<int>)
    requires |s.a| == 54 && s.queue == [] && s.nines == 0 && s.predigit == 6 && s.started == true
    requires b == seq(54, Cap16Table8) && SweptTable(s.a) == b[0 := 3] && Carry(s.a) == 5
    ensures Round(s) == State(seq(54, Cap16Table8)[0 := 3], [6], 0, 5, true)
  {
    SettleHold(6, 5);
    assert [] + [6] == [6];
  }

  lemma Cap16Round8(s: State)
    requires s == State(seq(54, Cap16Table7)[0 := 4], [], 0, 6, true)
    ensures Round(s) == State(seq(54, Cap16Table8)[0 := 3], [6], 0, 5, true)
  {
    var b, c := seq(54, Cap16Table8), seq(55, Cap16Carries8);
    Cap16Sweep8(s.a, b, c);
    SweepFacts(s.a, b, 53);
    QuotRemNonneg(53, 10);
    Cap16Settle8(s, b);
  }

  lemma Cap16Next7(s: State)
    requires s == State(seq(54, Cap16Table7)[0 := 4], [], 0, 6, true)
    ensures Next(s, 1) == Some((6, State(seq(54, Cap16Table8)[0 := 3], [], 0, 5, true)))
  {
    var t := s;
    Cap16Round8(t);
  }

  /** The table after the sweep of round 9. */
  function Cap16Table9(i: int): int
  {
    if i < 27 then
      if i < 13 then
        if i < 6 then
          if i < 3 then
            if i < 1 then
              0
            else
              if i < 2 then
                1
              else
                0
          else
            if i < 4 then
              5
            else
              if i < 5 then
                5
              else
                5
        else
          if i < 9 then
            if i < 7 then
              9
            else
              if i < 8 then
                9
              else
                10
          else
            if i < 11 then
              if i < 10 then
                9
              else
                13
            else
              if i < 12 then
                21
              else
                8
      else
        if i < 20 then
          if i < 16 then
            if i < 14 then
              11
            else
              if i < 15 then
                2
              else
                29
          else
            if i < 18 then
              if i < 17 then
                0
              else
                22
            else
              if i < 19 then
                5
              else
                7
        else
          if i < 23 then
            if i < 21 then
              24
            else
              if i < 22 then
                6
              else
                19
          else
            if i < 25 then
              if i < 24 then
                12
              else
                37
            else
              if i < 26 then
                4
              else
                45
    else
      if i < 40 then
        if i < 33 then
          if i < 30 then
            if i < 28 then
              41
            else
              if i < 29 then
                25
              else
                6
          else
            if i < 31 then
              26
            else
              if i < 32 then
                11
              else
                59
        else
          if i < 36 then
            if i < 34 then
              33
            else
              if i < 35 then
                11
              else
                20
          else
            if i < 38 then
              if i < 37 then
                3
              else
                13
            else
              if i < 39 then
                21
              else
                27
      else
        if i < 47 then
          if i < 43 then
            if i < 41 then
              20
            else
              if i < 42 then
                5
              else
                60
          else
            if i < 45 then
              if i < 44 then
                81
              else
                49
            else
              if i < 46 then
                38
              else
                59
        else
          if i < 50 then
            if i < 48 then
              59
            else
              if i < 49 then
                40
              else
                94
          else
            if i < 52 then
              if i < 51 then
                84
              else
                59
            else
              if i < 53 then
                66
              else
                91
  }

  /** The carries of the sweep of round 9, by position. */
  function Cap16Carries9(i: int): int
  {
    if i < 27 then
      if i < 13 then
        if i < 6 then
          if i < 3 then
            if i < 1 then
              35
            else
              if i < 2 then
                5
              else
                3
          else
            if i < 4 then
              5
            else
              if i < 5 then
                10
              else
                9
        else
          if i < 9 then
            if i < 7 then
              14
            else
              if i < 8 then
                13
              else
                13
          else
            if i < 11 then
              if i < 10 then
                9
              else
                8
            else
              if i < 12 then
                11
              else
                7
      else
        if i < 20 then
          if i < 16 then
            if i < 14 then
              11
            else
              if i < 15 then
                7
              else
                5
          else
            if i < 18 then
              if i < 17 then
                4
              else
                6
            else
              if i < 19 then
                4
              else
                7
        else
          if i < 23 then
            if i < 21 then
              12
            else
              if i < 22 then
                6
              else
                7
          else
            if i < 25 then
              if i < 24 then
                8
              else
                7
            else
              if i < 26 then
                12
              else
                6
    else
      if i < 41 then
        if i < 34 then
          if i < 30 then
            if i < 28 then
              9
            else
              if i < 29 then
                7
              else
                6
          else
            if i < 32 then
              if i < 31 then
                9
              else
                5
            else
              if i < 33 then
                8
              else
                13
        else
          if i < 37 then
            if i < 35 then
              11
            else
              if i < 36 then
                10
              else
                10
          else
            if i < 39 then
              if i < 38 then
                9
              else
                6
            else
              if i < 40 then
                7
              else
                7
      else
        if i < 48 then
          if i < 44 then
            if i < 42 then
              7
            else
              if i < 43 then
                3
              else
                5
          else
            if i < 46 then
              if i < 45 then
                9
              else
                16
            else
              if i < 47 then
                14
              else
                13
        else
          if i < 51 then
            if i < 49 then
              8
            else
              if i < 50 then
                4
              else
                9
          else
            if i < 53 then
              if i < 52 then
                13
              else
                9
            else
              if i < 54 then
                7
              else
                0
  }

  lemma Cap16Sweep9Part0(a: seq<int>, b: seq<int>, c: seq<int>)
    requires a == seq(54, Cap16Table8)[0 := 3] && b == seq(54, Cap16Table9) && c == seq(55, Cap16Carries9)
    ensures TraceOk(a, b, c, 0, 6)
  {
    assert TraceOk(a, b, c, 0, 1);
    assert TraceOk(a, b, c, 0, 2);
    assert TraceOk(a, b, c, 0, 3);
    assert TraceOk(a, b, c, 0, 4);
    assert TraceOk(a, b, c, 0, 5);
  }

  lemma Cap16Sweep9Part1(a: seq<int>, b: seq<int>, c: seq<int>)
    requires a == seq(54, Cap16Table8)[0 := 3] && b == seq(54, Cap16Table9) && c == seq(55, Cap16Carries9)
    ensures TraceOk(a, b, c, 6, 12)
  {
    assert TraceOk(a, b, c, 6, 7);
    assert TraceOk(a, b, c, 6, 8);
    assert TraceOk(a, b, c, 6, 9);
    assert TraceOk(a, b, c, 6, 10);
    assert TraceOk(a, b, c, 6, 11);
  }

  lemma Cap16Sweep9Upto1(a: seq<int>, b: seq<int>, c: seq<int>)
    requires a == seq(54, Cap16Table8)[0 := 3] && b == seq(54, Cap16Table9) && c == seq(55, Cap16Carries9)
    ensures TraceOk(a, b, c, 0, 12)
  {
    Cap16Sweep9Part0(a, b, c);
    Cap16Sweep9Part1(a, b, c);
    TraceJoin(a, b, c, 0, 6, 12);
  }

  lemma Cap16Sweep9Part2(a: seq<int>, b: seq<int>, c: seq<int>)
    requires a == seq(54, Cap16Table8)[0 := 3] && b == seq(54, Cap16Table9) && c == seq(55, Cap16Carries9)
    ensures TraceOk(a, b, c, 12, 18)
  {
    assert TraceOk(a, b, c, 12, 13);
    assert TraceOk(a, b, c, 12, 14);
    assert TraceOk(a, b, c, 12, 15);
    assert TraceOk(a, b, c, 12, 16);
    assert TraceOk(a, b, c, 12, 17);
  }

  lemma Cap16Sweep9Upto2(a: seq<int>, b: seq<int>, c: seq<int>)
    requires a == seq(54, Cap16Table8)[0 := 3] && b == seq(54, Cap16Table9) && c == seq(55, Cap16Carries9)
    ensures TraceOk(a, b, c, 0, 18)
  {
    Cap16Sweep9Upto1(a, b, c);
    Cap16Sweep9Part2(a, b, c);
    TraceJoin(a, b, c, 0, 12, 18);
  }

  lemma Cap16Sweep9Part3(a: seq<int>, b: seq<int>, c: seq<int>)
    requires a == seq(54, Cap16Table8)[0 := 3] && b == seq(54, Cap16Table9) && c == seq(55, Cap16Carries9)
    ensures TraceOk(a, b, c, 18, 24)
  {
    assert TraceOk(a, b, c, 18, 19);
    assert TraceOk(a, b, c, 18, 20);
    assert TraceOk(a, b, c, 18, 21);
    assert TraceOk(a, b, c, 18, 22);
    assert TraceOk(a, b, c, 18, 23);
  }

  lemma Cap16Sweep9Upto3(a: seq<int>, b: seq<int>, c: seq<int>)
    requires a == seq(54, Cap16Table8)[0 := 3] && b == seq(54, Cap16Table9) && c == seq(55, Cap16Carries9)
    ensures TraceOk(a, b, c, 0, 24)
  {
    Cap16Sweep9Upto2(a, b, c);
    Cap16Sweep9Part3(a, b, c);
    TraceJoin(a, b, c, 0, 18, 24);
  }

  lemma Cap16Sweep9Part4(a: seq<int>, b: seq<int>, c: seq<int>)
    requires a == seq(54, Cap16Table8)[0 := 3] && b == seq(54, Cap16Table9) && c == seq(55, Cap16Carries9)
    ensures TraceOk(a, b, c, 24, 30)
  {
    assert TraceOk(a, b, c, 24, 25);
    assert TraceOk(a, b, c, 24, 26);
    assert TraceOk(a, b, c, 24, 27);
    assert TraceOk(a, b, c, 24, 28);
    assert TraceOk(a, b, c, 24, 29);
  }

  lemma Cap16Sweep9Upto4(a: seq<int>, b: seq<int>, c: seq<int>)
    requires a == seq(54, Cap16Table8)[0 := 3] && b == seq(54, Cap16Table9) && c == seq(55, Cap16Carries9)
    ensures TraceOk(a, b, c, 0, 30)
  {
    Cap16Sweep9Upto3(a, b, c);
    Cap16Sweep9Part4(a, b, c);
    TraceJoin(a, b, c, 0, 24, 30);
  }

  lemma Cap16Sweep9Part5(a: seq<int>, b: seq<int>, c: seq<int>)
    requires a == seq(54, Cap16Table8)[0 := 3] && b == seq(54, Cap16Table9) && c == seq(55, Cap16Carries9)
    ensures TraceOk(a, b, c, 30, 36)
  {
    assert TraceOk(a, b, c, 30, 31);
    assert TraceOk(a, b, c, 30, 32);
    assert TraceOk(a, b, c, 30, 33);
    assert TraceOk(a, b, c, 30, 34);
    assert TraceOk(a, b, c, 30, 35);
  }

  lemma Cap16Sweep9Upto5(a: seq<int>, b: seq<int>, c: seq<int>)
    requires a == seq(54, Cap16Table8)[0 := 3] && b == seq(54, Cap16Table9) && c == seq(55, Cap16Carries9)
    ensures TraceOk(a, b, c, 0, 36)
  {
    Cap16Sweep9Upto4(a, b, c);
    Cap16Sweep9Part5(a, b, c);
    TraceJoin(a, b, c, 0, 30, 36);
  }

  lemma Cap16Sweep9Part6(a: seq<int>, b: seq<int>, c: seq<int>)
    requires a == seq(54, Cap16Table8)[0 := 3] && b == seq(54, Cap16Table9) && c == seq(55, Cap16Carries9)
    ensures TraceOk(a, b, c, 36, 42)
  {
    assert TraceOk(a, b, c, 36, 37);
    assert TraceOk(a, b, c, 36, 38);
    assert TraceOk(a, b, c, 36, 39);
    assert TraceOk(a, b, c, 36, 40);
    assert TraceOk(a, b, c, 36, 41);
  }

  lemma Cap16Sweep9Upto6(a: seq<int>, b: seq<int>, c: seq<int>)
    requires a == seq(54, Cap16Table8)[0 := 3] && b == seq(54, Cap16Table9) && c == seq(55, Cap16Carries9)
    ensures TraceOk(a, b, c, 0, 42)
  {
    Cap16Sweep9Upto5(a, b, c);
    Cap16Sweep9Part6(a, b, c);
    TraceJoin(a, b, c, 0, 36, 42);
  }

  lemma Cap16Sweep9Part7(a: seq<int>, b: seq<int>, c: seq<int>)
    requires a == seq(54, Cap16Table8)[0 := 3] && b == seq(54, Cap16Table9) && c == seq(55, Cap16Carries9)
    ensures TraceOk(a, b, c, 42, 48)
  {
    assert TraceOk(a, b, c, 42, 43);
    assert TraceOk(a, b, c, 42, 44);
    assert TraceOk(a, b, c, 42, 45);
    assert TraceOk(a, b, c, 42, 46);
    assert TraceOk(a, b, c, 42, 47);
  }

  lemma Cap16Sweep9Upto7(a: seq<int>, b: seq<int>, c: seq<int>)
    requires a == seq(54, Cap16Table8)[0 := 3] && b == seq(54, Cap16Table9) && c == seq(55, Cap16Carries9)
    ensures TraceOk(a, b, c, 0, 48)
  {
    Cap16Sweep9Upto6(a, b, c);
    Cap16Sweep9Part7(a, b, c);
    TraceJoin(a, b, c, 0, 42, 48);
  }

  lemma Cap16Sweep9Part8(a: seq<int>, b: seq<int>, c: seq<int>)
    requires a == seq(54, Cap16Table8)[0 := 3] && b == seq(54, Cap16Table9) && c == seq(55, Cap16Carries9)
    ensures TraceOk(a, b, c, 48, 54)
  {
    assert TraceOk(a, b, c, 48, 49);
    assert TraceOk(a, b, c, 48, 50);
    assert TraceOk(a, b, c, 48, 51);
    assert TraceOk(a, b, c, 48, 52);
    assert TraceOk(a, b, c, 48, 53);
  }

  lemma Cap16Sweep9Upto8(a: seq<int>, b: seq<int>, c: seq<int>)
    requires a == seq(54, Cap16Table8)[0 := 3] && b == seq(54, Cap16Table9) && c == seq(55, Cap16Carries9)
    ensures TraceOk(a, b, c, 0, 54)
  {
    Cap16Sweep9Upto7(a, b, c);
    Cap16Sweep9Part8(a, b, c);
    TraceJoin(a, b, c, 0, 48, 54);
  }

  lemma Cap16Sweep9(a: seq<int>, b: seq<int>, c: seq<int>)
    requires a == seq(54, Cap16Table8)[0 := 3] && b == seq(54, Cap16Table9) && c == seq(55, Cap16Carries9)
    ensures Sweep(a, 54, 0) == (b, 35)
  {
    Cap16Sweep9Upto8(a, b, c);
    assert b[54..] == a[54..];
    SweepByTrace(a, b, c, 54);
  }

  lemma Cap16Settle9(s: State, b: seq<int>)
    requires |s.a| == 54 && s.queue == [] && s.nines == 0 && s.predigit == 5 && s.started == true
    requires b == seq(54, Cap16Table9) && SweptTable(s.a) == b[0 := 5] && Carry(s.a) == 3
    ensures Round(s) == State(seq(54, Cap16Table9)[0 := 5], [5], 0, 3, true)
  {
    SettleHold(5, 3);
    assert [] + [5] == [5];
  }

  lemma Cap16Round9(s: State)
    requires s == State(seq(54, Cap16Table8)[0 := 3], [], 0, 5, true)
    ensures Round(s) == State(seq(54, Cap16Table9)[0 := 5], [5], 0, 3, true)
  {
    var b, c := seq(54, Cap16Table9), seq(55, Cap16Carries9);
    Cap16Sweep9(s.a, b, c);
    SweepFacts(s.a, b, 35);
    QuotRemNonneg(35, 10);
    Cap16Settle9(s, b);
  }

  lemma Cap16Next8(s: State)
    requires s == State(seq(54, Cap16Table8)[0 := 3], [], 0, 5, true)
    ensures Next(s, 1) == Some((5, State(seq(54, Cap16Table9)[0 := 5], [], 0, 3, true)))
  {
    var t := s;
    Cap16Round9(t);
  }

  /** The table after the sweep of round 10. */
  function Cap16Table10(i: int): int
  {
    if i < 27 then
      if i < 13 then
        if i < 6 then
          if i < 3 then
            if i < 1 then
              0
            else
              if i < 2 then
                0
              else
                4
          else
            if i < 4 then
              3
            else
              if i < 5 then
                6
              else
                1
        else
          if i < 9 then
            if i < 7 then
              11
            else
              if i < 8 then
                13
              else
                12
          else
            if i < 11 then
              if i < 10 then
                1
              else
                10
            else
              if i < 12 then
                6
              else
                8
      else
        if i < 20 then
          if i < 16 then
            if i < 14 then
              18
            else
              if i < 15 then
                25
              else
                28
          else
            if i < 18 then
              if i < 17 then
                20
              else
                29
            else
              if i < 19 then
                34
              else
                35
        else
          if i < 23 then
            if i < 21 then
              17
            else
              if i < 22 then
                21
              else
                14
          else
            if i < 25 then
              if i < 24 then
                8
              else
                6
            else
              if i < 26 then
                21
              else
                31
    else
      if i < 40 then
        if i < 33 then
          if i < 30 then
            if i < 28 then
              28
            else
              if i < 29 then
                24
              else
                34
          else
            if i < 31 then
              50
            else
              if i < 32 then
                53
              else
                8
        else
          if i < 36 then
            if i < 34 then
              30
            else
              if i < 35 then
                8
              else
                59
          else
            if i < 38 then
              if i < 37 then
                32
              else
                20
            else
              if i < 39 then
                59
              else
                36
      else
        if i < 47 then
          if i < 43 then
            if i < 41 then
              1
            else
              if i < 42 then
                57
              else
                12
          else
            if i < 45 then
              if i < 44 then
                32
              else
                50
            else
              if i < 46 then
                22
              else
                38
        else
          if i < 50 then
            if i < 48 then
              26
            else
              if i < 49 then
                20
              else
                6
          else
            if i < 52 then
              if i < 51 then
                37
              else
                80
            else
              if i < 53 then
                34
              else
                54
  }

  /** The carries of the sweep of round 10, by position. */
  function Cap16Carries10(i: int): int
  {
    if i < 27 then
      if i < 13 then
        if i < 6 then
          if i < 3 then
            if i < 1 then
              58
            else
              if i < 2 then
                8
              else
                7
          else
            if i < 4 then
              13
            else
              if i < 5 then
                11
              else
                11
        else
          if i < 9 then
            if i < 7 then
              12
            else
              if i < 8 then
                11
              else
                11
          else
            if i < 11 then
              if i < 10 then
                11
              else
                12
            else
              if i < 12 then
                12
              else
                6
      else
        if i < 20 then
          if i < 16 then
            if i < 14 then
              6
            else
              if i < 15 then
                5
              else
                10
          else
            if i < 18 then
              if i < 17 then
                3
              else
                7
            else
              if i < 19 then
                3
              else
                5
        else
          if i < 23 then
            if i < 21 then
              8
            else
              if i < 22 then
                5
              else
                8
          else
            if i < 25 then
              if i < 24 then
                8
              else
                11
            else
              if i < 26 then
                7
              else
                13
    else
      if i < 41 then
        if i < 34 then
          if i < 30 then
            if i < 28 then
              10
            else
              if i < 29 then
                6
              else
                4
          else
            if i < 32 then
              if i < 31 then
                7
              else
                7
            else
              if i < 33 then
                12
              else
                6
        else
          if i < 37 then
            if i < 35 then
              3
            else
              if i < 36 then
                3
              else
                2
          else
            if i < 39 then
              if i < 38 then
                4
              else
                5
            else
              if i < 40 then
                6
              else
                6
      else
        if i < 48 then
          if i < 44 then
            if i < 42 then
              7
            else
              if i < 43 then
                14
              else
                14
          else
            if i < 46 then
              if i < 45 then
                10
              else
                10
            else
              if i < 47 then
                12
              else
                12
        else
          if i < 51 then
            if i < 49 then
              12
            else
              if i < 50 then
                16
              else
                13
          else
            if i < 53 then
              if i < 52 then
                10
              else
                10
            else
              if i < 54 then
                8
              else
                0
  }

  lemma Cap16Sweep10Part0(a: seq<int>, b: seq<int>, c: seq<int>)
    requires a == seq(54, Cap16Table9)[0 := 5] && b == seq(54, Cap16Table10) && c == seq(55, Cap16Carries10)
    ensures TraceOk(a, b, c, 0, 6)
  {
    assert TraceOk(a, b, c, 0, 1);
    assert TraceOk(a, b, c, 0, 2);
    assert TraceOk(a, b, c, 0, 3);
    assert TraceOk(a, b, c, 0, 4);
    assert TraceOk(a, b, c, 0, 5);
  }

  lemma Cap16Sweep10Part1(a: seq<int>, b: seq<int>, c: seq<int>)
    requires a == seq(54, Cap16Table9)[0 := 5] && b == seq(54, Cap16Table10) && c == seq(55, Cap16Carries10)
    ensures TraceOk(a, b, c, 6, 12)
  {
    assert TraceOk(a, b, c, 6, 7);
    assert TraceOk(a, b, c, 6, 8);
    assert TraceOk(a, b, c, 6, 9);
    assert TraceOk(a, b, c, 6, 10);
    assert TraceOk(a, b, c, 6, 11);
  }

  lemma Cap16Sweep10Upto1(a: seq<int>, b: seq<int>, c: seq<int>)
    requires a == seq(54, Cap16Table9)[0 := 5] && b == seq(54, Cap16Table10) && c == seq(55, Cap16Carries10)
    ensures TraceOk(a, b, c, 0, 12)
  {
    Cap16Sweep10Part0(a, b, c);
    Cap16Sweep10Part1(a, b, c);
    TraceJoin(a, b, c, 0, 6, 12);
  }

  lemma Cap16Sweep10Part2(a: seq<int>, b: seq<int>, c: seq<int>)
    requires a == seq(54, Cap16Table9)[0 := 5] && b == seq(54, Cap16Table10) && c == seq(55, Cap16Carries10)
    ensures TraceOk(a, b, c, 12, 18)
  {
    assert TraceOk(a, b, c, 12, 13);
    assert TraceOk(a, b, c, 12, 14);
    assert TraceOk(a, b, c, 12, 15);
    assert TraceOk(a, b, c, 12, 16);
    assert TraceOk(a, b, c, 12, 17);
  }

  lemma Cap16Sweep10Upto2(a: seq<int>, b: seq<int>, c: seq<int>)
    requires a == seq(54, Cap16Table9)[0 := 5] && b == seq(54, Cap16Table10) && c == seq(55, Cap16Carries10)
    ensures TraceOk(a, b, c, 0, 18)
  {
    Cap16Sweep10Upto1(a, b, c);
    Cap16Sweep10Part2(a, b, c);
    TraceJoin(a, b, c, 0, 12, 18);
  }

  lemma Cap16Sweep10Part3(a: seq<int>, b: seq<int>, c: seq<int>)
    requires a == seq(54, Cap16Table9)[0 := 5] && b == seq(54, Cap16Table10) && c == seq(55, Cap16Carries10)
    ensures TraceOk(a, b, c, 18, 24)
  {
    assert TraceOk(a, b, c, 18, 19);
    assert TraceOk(a, b, c, 18, 20);
    assert TraceOk(a, b, c, 18, 21);
    assert TraceOk(a, b, c, 18, 22);
    assert TraceOk(a, b, c, 18, 23);
  }

  lemma Cap16Sweep10Upto3(a: seq<int>, b: seq<int>, c: seq<int>)
    requires a == seq(54, Cap16Table9)[0 := 5] && b == seq(54, Cap16Table10) && c == seq(55, Cap16Carries10)
    ensures TraceOk(a, b, c, 0, 24)
  {
    Cap16Sweep10Upto2(a, b, c);
    Cap16Sweep10Part3(a, b, c);
    TraceJoin(a, b, c, 0, 18, 24);
  }

  lemma Cap16Sweep10Part4(a: seq<int>, b: seq<int>, c: seq<int>)
    requires a == seq(54, Cap16Table9)[0 := 5] && b == seq(54, Cap16Table10) && c == seq(55, Cap16Carries10)
    ensures TraceOk(a, b, c, 24, 30)
  {
    assert TraceOk(a, b, c, 24, 25);
    assert TraceOk(a, b, c, 24, 26);
    assert TraceOk(a, b, c, 24, 27);
    assert TraceOk(a, b, c, 24, 28);
    assert TraceOk(a, b, c, 24, 29);
  }

  lemma Cap16Sweep10Upto4(a: seq<int>, b: seq<int>, c: seq<int>)
    requires a == seq(54, Cap16Table9)[0 := 5] && b == seq(54, Cap16Table10) && c == seq(55, Cap16Carries10)
    ensures TraceOk(a, b, c, 0, 30)
  {
    Cap16Sweep10Upto3(a, b, c);
    Cap16Sweep10Part4(a, b, c);
    TraceJoin(a, b, c, 0, 24, 30);
  }

  lemma Cap16Sweep10Part5(a: seq<int>, b: seq<int>, c: seq<int>)
    requires a == seq(54, Cap16Table9)[0 := 5] && b == seq(54, Cap16Table10) && c == seq(55, Cap16Carries10)
    ensures TraceOk(a, b, c, 30, 36)
  {
    assert TraceOk(a, b, c, 30, 31);
    assert TraceOk(a, b, c, 30, 32);
    assert TraceOk(a, b, c, 30, 33);
    assert TraceOk(a, b, c, 30, 34);
    assert TraceOk(a, b, c, 30, 35);
  }

  lemma Cap16Sweep10Upto5(a: seq<int>, b: seq<int>, c: seq<int>)
    requires a == seq(54, Cap16Table9)[0 := 5] && b == seq(54, Cap16Table10) && c == seq(55, Cap16Carries10)
    ensures TraceOk(a, b, c, 0, 36)
  {
    Cap16Sweep10Upto4(a, b, c);
    Cap16Sweep10Part5(a, b, c);
    TraceJoin(a, b, c, 0, 30, 36);
  }

  lemma Cap16Sweep10Part6(a: seq<int>, b: seq<int>, c: seq<int>)
    requires a == seq(54, Cap16Table9)[0 := 5] && b == seq(54, Cap16Table10) && c == seq(55, Cap16Carries10)
    ensures TraceOk(a, b, c, 36, 42)
  {
    assert TraceOk(a, b, c, 36, 37);
    assert TraceOk(a, b, c, 36, 38);
    assert TraceOk(a, b, c, 36, 39);
    assert TraceOk(a, b, c, 36, 40);
    assert TraceOk(a, b, c, 36, 41);
  }

  lemma Cap16Sweep10Upto6(a: seq<int>, b: seq<int>, c: seq<int>)
    requires a == seq(54, Cap16Table9)[0 := 5] && b == seq(54, Cap16Table10) && c == seq(55, Cap16Carries10)
    ensures TraceOk(a, b, c, 0, 42)
  {
    Cap16Sweep10Upto5(a, b, c);
    Cap16Sweep10Part6(a, b, c);
    TraceJoin(a, b, c, 0, 36, 42);
  }

  lemma Cap16Sweep10Part7(a: seq<int>, b: seq<int>, c: seq<int>)
    requires a == seq(54, Cap16Table9)[0 := 5] && b == seq(54, Cap16Table10) && c == seq(55, Cap16Carries10)
    ensures TraceOk(a, b, c, 42, 48)
  {
    assert TraceOk(a, b, c, 42, 43);
    assert TraceOk(a, b, c, 42, 44);
    assert TraceOk(a, b, c, 42, 45);
    assert TraceOk(a, b, c, 42, 46);
    assert TraceOk(a, b, c, 42, 47);
  }

  lemma Cap16Sweep10Upto7(a: seq<int>, b: seq<int>, c: seq<int>)
    requires a == seq(54, Cap16Table9)[0 := 5] && b == seq(54, Cap16Table10) && c == seq(55, Cap16Carries10)
    ensures TraceOk(a, b, c, 0, 48)
  {
    Cap16Sweep10Upto6(a, b, c);
    Cap16Sweep10Part7(a, b, c);
    TraceJoin(a, b, c, 0, 42, 48);
  }

  lemma Cap16Sweep10Part8(a: seq<int>, b: seq<int>, c: seq<int>)
    requires a == seq(54, Cap16Table9)[0 := 5] && b == seq(54, Cap16Table10) && c == seq(55, Cap16Carries10)
    ensures TraceOk(a, b, c, 48, 54)
  {
    assert TraceOk(a, b, c, 48, 49);
    assert TraceOk(a, b, c, 48, 50);
    assert TraceOk(a, b, c, 48, 51);
    assert TraceOk(a, b, c, 48, 52);
    assert TraceOk(a, b, c, 48, 53);
  }

  lemma Cap16Sweep10Upto8(a: seq<int>, b: seq<int>, c: seq<int>)
    requires a == seq(54, Cap16Table9)[0 := 5] && b == seq(54, Cap16Table10) && c == seq(55, Cap16Carries10)
    ensures TraceOk(a, b, c, 0, 54)
  {
    Cap16Sweep10Upto7(a, b, c);
    Cap16Sweep10Part8(a, b, c);
    TraceJoin(a, b, c, 0, 48, 54);
  }

  lemma Cap16Sweep10(a: seq<int>, b: seq<int>, c: seq<int>)
    requires a == seq(54, Cap16Table9)[0 := 5] && b == seq(54, Cap16Table10) && c == seq(55, Cap16Carries10)
    ensures Sweep(a, 54, 0) == (b, 58)
  {
    Cap16Sweep10Upto8(a, b, c);
    assert b[54..] == a[54..];
    SweepByTrace(a, b, c, 54);
  }

  lemma Cap16Settle10(s: State, b: seq<int>)
    requires |s.a| == 54 && s.queue == [] && s.nines == 0 && s.predigit == 3 && s.started == true
    requires b == seq(54, Cap16Table10) && SweptTable(s.a) == b[0 := 8] && Carry(s.a) == 5
    ensures Round(s) == State(seq(54, Cap16Table10)[0 := 8], [3], 0, 5, true)
  {
    SettleHold(3, 5);
    assert [] + [3] == [3];
  }

  lemma Cap16Round10(s: State)
    requires s == State(seq(54, Cap16Table9)[0 := 5], [], 0, 3, true)
    ensures Round(s) == State(seq(54, Cap16Table10)[0 := 8], [3], 0, 5, true)
  {
    var b, c := seq(54, Cap16Table10), seq(55, Cap16Carries10);
    Cap16Sweep10(s.a, b, c);
    SweepFacts(s.a, b, 58);
    QuotRemNonneg(58, 10);
    Cap16Settle10(s, b);
  }

  lemma Cap16Next9(s: State)
    requires s == State(seq(54, Cap16Table9)[0 := 5], [], 0, 3, true)
    ensures Next(s, 1) == Some((3, State(seq(54, Cap16Table10)[0 := 8], [], 0, 5, true)))
  {
    var t := s;
    Cap16Round10(t);
  }

  /** The table after the sweep of round 11. */
  function Cap16Table11(i: int): int
  {
    if i < 27 then
      if i < 13 then
        if i < 6 then
          if i < 3 then
            if i < 1 then
              0
            else
              if i < 2 then
                1
              else
                0
          else
            if i < 4 then
              4
            else
              if i < 5 then
                6
              else
                1
        else
          if i < 9 then
            if i < 7 then
              6
            else
              if i < 8 then
                7
              else
                3
          else
            if i < 11 then
              if i < 10 then
                14
              else
                9
            else
              if i < 12 then
                19
              else
                12
      else
        if i < 20 then
          if i < 16 then
            if i < 14 then
              26
            else
              if i < 15 then
                26
              else
                8
          else
            if i < 18 then
              if i < 17 then
                10
              else
                0
            else
              if i < 19 then
                13
              else
                22
        else
          if i < 23 then
            if i < 21 then
              30
            else
              if i < 22 then
                19
              else
                7
          else
            if i < 25 then
              if i < 24 then
                12
              else
                40
            else
              if i < 26 then
                11
              else
                50
    else
      if i < 40 then
        if i < 33 then
          if i < 30 then
            if i < 28 then
              10
            else
              if i < 29 then
                18
              else
                22
          else
            if i < 31 then
              17
            else
              if i < 32 then
                28
              else
                51
        else
          if i < 36 then
            if i < 34 then
              35
            else
              if i < 35 then
                51
              else
                61
          else
            if i < 38 then
              if i < 37 then
                68
              else
                55
            else
              if i < 39 then
                54
              else
                46
      else
        if i < 47 then
          if i < 43 then
            if i < 41 then
              14
            else
              if i < 42 then
                74
              else
                81
          else
            if i < 45 then
              if i < 44 then
                63
              else
                13
            else
              if i < 46 then
                41
              else
                10
        else
          if i < 50 then
            if i < 48 then
              72
            else
              if i < 49 then
                8
              else
                64
          else
            if i < 52 then
              if i < 51 then
                72
              else
                30
            else
              if i < 53 then
                80
              else
                5
  }

  /** The carries of the sweep of round 11, by position. */
  function Cap16Carries11(i: int): int
  {
    if i < 27 then
      if i < 13 then
        if i < 6 then
          if i < 3 then
            if i < 1 then
              89
            else
              if i < 2 then
                9
              else
                14
          else
            if i < 4 then
              10
            else
              if i < 5 then
                11
              else
                9
        else
          if i < 9 then
            if i < 7 then
              15
            else
              if i < 8 then
                13
              else
                9
          else
            if i < 11 then
              if i < 10 then
                4
              else
                8
            else
              if i < 12 then
                7
              else
                10
      else
        if i < 20 then
          if i < 16 then
            if i < 14 then
              14
            else
              if i < 15 then
                16
              else
                16
          else
            if i < 18 then
              if i < 17 then
                14
              else
                16
            else
              if i < 19 then
                15
              else
                12
        else
          if i < 23 then
            if i < 21 then
              7
            else
              if i < 22 then
                7
              else
                5
          else
            if i < 25 then
              if i < 24 then
                4
              else
                5
            else
              if i < 26 then
                9
              else
                10
    else
      if i < 41 then
        if i < 34 then
          if i < 30 then
            if i < 28 then
              10
            else
              if i < 29 then
                10
              else
                12
          else
            if i < 32 then
              if i < 31 then
                13
              else
                10
            else
              if i < 33 then
                4
              else
                7
        else
          if i < 37 then
            if i < 35 then
              6
            else
              if i < 36 then
                11
              else
                7
          else
            if i < 39 then
              if i < 38 then
                7
              else
                10
            else
              if i < 40 then
                6
              else
                4
      else
        if i < 48 then
          if i < 44 then
            if i < 42 then
              8
            else
              if i < 43 then
                4
              else
                7
          else
            if i < 46 then
              if i < 45 then
                8
              else
                5
            else
              if i < 47 then
                6
              else
                4
        else
          if i < 51 then
            if i < 49 then
              4
            else
              if i < 50 then
                4
              else
                8
          else
            if i < 53 then
              if i < 52 then
                10
              else
                5
            else
              if i < 54 then
                5
              else
                0
  }

  lemma Cap16Sweep11Part0(a: seq<int>, b: seq<int>, c: seq<int>)
    requires a == seq(54, Cap16Table10)[0 := 8] && b == seq(54, Cap16Table11) && c == seq(55, Cap16Carries11)
    ensures TraceOk(a, b, c, 0, 6)
  {
    assert TraceOk(a, b, c, 0, 1);
    assert TraceOk(a, b, c, 0, 2);
    assert TraceOk(a, b, c, 0, 3);
    assert TraceOk(a, b, c, 0, 4);
    assert TraceOk(a, b, c, 0, 5);
  }

  lemma Cap16Sweep11Part1(a: seq<int>, b: seq<int>, c: seq<int>)
    requires a == seq(54, Cap16Table10)[0 := 8] && b == seq(54, Cap16Table11) && c == seq(55, Cap16Carries11)
    ensures TraceOk(a, b, c, 6, 12)
  {
    assert TraceOk(a, b, c, 6, 7);
    assert TraceOk(a, b, c, 6, 8);
    assert TraceOk(a, b, c, 6, 9);
    assert TraceOk(a, b, c, 6, 10);
    assert TraceOk(a, b, c, 6, 11);
  }

  lemma Cap16Sweep11Upto1(a: seq<int>, b: seq<int>, c: seq<int>)
    requires a == seq(54, Cap16Table10)[0 := 8] && b == seq(54, Cap16Table11) && c == seq(55, Cap16Carries11)
    ensures TraceOk(a, b, c, 0, 12)
  {
    Cap16Sweep11Part0(a, b, c);
    Cap16Sweep11Part1(a, b, c);
    TraceJoin(a, b, c, 0, 6, 12);
  }

  lemma Cap16Sweep11Part2(a: seq<int>, b: seq<int>, c: seq<int>)
    requires a == seq(54, Cap16Table10)[0 := 8] && b == seq(54, Cap16Table11) && c == seq(55, Cap16Carries11)
    ensures TraceOk(a, b, c, 12, 18)
  {
    assert TraceOk(a, b, c, 12, 13);
    assert TraceOk(a, b, c, 12, 14);
    assert TraceOk(a, b, c, 12, 15);
    assert TraceOk(a, b, c, 12, 16);
    assert TraceOk(a, b, c, 12, 17);
  }

  lemma Cap16Sweep11Upto2(a: seq<int>, b: seq<int>, c: seq<int>)
    requires a == seq(54, Cap16Table10)[0 := 8] && b == seq(54, Cap16Table11) && c == seq(55, Cap16Carries11)
    ensures TraceOk(a, b, c, 0, 18)
  {
    Cap16Sweep11Upto1(a, b, c);
    Cap16Sweep11Part2(a, b, c);
    TraceJoin(a, b, c, 0, 12, 18);
  }

  lemma Cap16Sweep11Part3(a: seq<int>, b: seq<int>, c: seq<int>)
    requires a == seq(54, Cap16Table10)[0 := 8] && b == seq(54, Cap16Table11) && c == seq(55, Cap16Carries11)
    ensures TraceOk(a, b, c, 18, 24)
  {
    assert TraceOk(a, b, c, 18, 19);
    assert TraceOk(a, b, c, 18, 20);
    assert TraceOk(a, b, c, 18, 21);
    assert TraceOk(a, b, c, 18, 22);
    assert TraceOk(a, b, c, 18, 23);
  }

  lemma Cap16Sweep11Upto3(a: seq<int>, b: seq<int>, c: seq<int>)
    requires a == seq(54, Cap16Table10)[0 := 8] && b == seq(54, Cap16Table11) && c == seq(55, Cap16Carries11)
    ensures TraceOk(a, b, c, 0, 24)
  {
    Cap16Sweep11Upto2(a, b, c);
    Cap16Sweep11Part3(a, b, c);
    TraceJoin(a, b, c, 0, 18, 24);
  }

  lemma Cap16Sweep11Part4(a: seq<int>, b: seq<int>, c: seq<int>)
    requires a == seq(54, Cap16Table10)[0 := 8] && b == seq(54, Cap16Table11) && c == seq(55, Cap16Carries11)
    ensures TraceOk(a, b, c, 24, 30)
  {
    assert TraceOk(a, b, c, 24, 25);
    assert TraceOk(a, b, c, 24, 26);
    assert TraceOk(a, b, c, 24, 27);
    assert TraceOk(a, b, c, 24, 28);
    assert TraceOk(a, b, c, 24, 29);
  }

  lemma Cap16Sweep11Upto4(a: seq<int>, b: seq<int>, c: seq<int>)
    requires a == seq(54, Cap16Table10)[0 := 8] && b == seq(54, Cap16Table11) && c == seq(55, Cap16Carries11)
    ensures TraceOk(a, b, c, 0, 30)
  {
    Cap16Sweep11Upto3(a, b, c);
    Cap16Sweep11Part4(a, b, c);
    TraceJoin(a, b, c, 0, 24, 30);
  }

  lemma Cap16Sweep11Part5(a: seq<int>, b: seq<int>, c: seq<int>)
    requires a == seq(54, Cap16Table10)[0 := 8] && b == seq(54, Cap16Table11) && c == seq(55, Cap16Carries11)
    ensures TraceOk(a, b, c, 30, 36)
  {
    assert TraceOk(a, b, c, 30, 31);
    assert TraceOk(a, b, c, 30, 32);
    assert TraceOk(a, b, c, 30, 33);
    assert TraceOk(a, b, c, 30, 34);
    assert TraceOk(a, b, c, 30, 35);
  }

  lemma Cap16Sweep11Upto5(a: seq<int>, b: seq<int>, c: seq<int>)
    requires a == seq(54, Cap16Table10)[0 := 8] && b == seq(54, Cap16Table11) && c == seq(55, Cap16Carries11)
    ensures TraceOk(a, b, c, 0, 36)
  {
    Cap16Sweep11Upto4(a, b, c);
    Cap16Sweep11Part5(a, b, c);
    TraceJoin(a, b, c, 0, 30, 36);
  }

  lemma Cap16Sweep11Part6(a: seq<int>, b: seq<int>, c: seq<int>)
    requires a == seq(54, Cap16Table10)[0 := 8] && b == seq(54, Cap16Table11) && c == seq(55, Cap16Carries11)
    ensures TraceOk(a, b, c, 36, 42)
  {
    assert TraceOk(a, b, c, 36, 37);
    assert TraceOk(a, b, c, 36, 38);
    assert TraceOk(a, b, c, 36, 39);
    assert TraceOk(a, b, c, 36, 40);
    assert TraceOk(a, b, c, 36, 41);
  }

  lemma Cap16Sweep11Upto6(a: seq<int>, b: seq<int>, c: seq<int>)
    requires a == seq(54, Cap16Table10)[0 := 8] && b == seq(54, Cap16Table11) && c == seq(55, Cap16Carries11)
    ensures TraceOk(a, b, c, 0, 42)
  {
    Cap16Sweep11Upto5(a, b, c);
    Cap16Sweep11Part6(a, b, c);
    TraceJoin(a, b, c, 0, 36, 42);
  }

  lemma Cap16Sweep11Part7(a: seq<int>, b: seq<int>, c: seq<int>)
    requires a == seq(54, Cap16Table10)[0 := 8] && b == seq(54, Cap16Table11) && c == seq(55, Cap16Carries11)
    ensures TraceOk(a, b, c, 42, 48)
  {
    assert TraceOk(a, b, c, 42, 43);
    assert TraceOk(a, b, c, 42, 44);
    assert TraceOk(a, b, c, 42, 45);
    assert TraceOk(a, b, c, 42, 46);
    assert TraceOk(a, b, c, 42, 47);
  }

  lemma Cap16Sweep11Upto7(a: seq<int>, b: seq<int>, c: seq<int>)
    requires a == seq(54, Cap16Table10)[0 := 8] && b == seq(54, Cap16Table11) && c == seq(55, Cap16Carries11)
    ensures TraceOk(a, b, c, 0, 48)
  {
    Cap16Sweep11Upto6(a, b, c);
    Cap16Sweep11Part7(a, b, c);
    TraceJoin(a, b, c, 0, 42, 48);
  }

  lemma Cap16Sweep11Part8(a: seq<int>, b: seq<int>, c: seq<int>)
    requires a == seq(54, Cap16Table10)[0 := 8] && b == seq(54, Cap16Table11) && c == seq(55, Cap16Carries11)
    ensures TraceOk(a, b, c, 48, 54)
  {
    assert TraceOk(a, b, c, 48, 49);
    assert TraceOk(a, b, c, 48, 50);
    assert TraceOk(a, b, c, 48, 51);
    assert TraceOk(a, b, c, 48, 52);
    assert TraceOk(a, b, c, 48, 53);
  }

  lemma Cap16Sweep11Upto8(a: seq<int>, b: seq<int>, c: seq<int>)
    requires a == seq(54, Cap16Table10)[0 := 8] && b == seq(54, Cap16Table11) && c == seq(55, Cap16Carries11)
    ensures TraceOk(a, b, c, 0, 54)
  {
    Cap16Sweep11Upto7(a, b, c);
    Cap16Sweep11Part8(a, b, c);
    TraceJoin(a, b, c, 0, 48, 54);
  }

  lemma Cap16Sweep11(a: seq<int>, b: seq<int>, c: seq<int>)
    requires a == seq(54, Cap16Table10)[0 := 8] && b == seq(54, Cap16Table11) && c == seq(55, Cap16Carries11)
    ensures Sweep(a, 54, 0) == (b, 89)
  {
    Cap16Sweep11Upto8(a, b, c);
    assert b[54..] == a[54..];
    SweepByTrace(a, b, c, 54);
  }

  lemma Cap16Settle11(s: State, b: seq<int>)
    requires |s.a| == 54 && s.queue == [] && s.nines == 0 && s.predigit == 5 && s.started == true
    requires b == seq(54, Cap16Table11) && SweptTable(s.a) == b[0 := 9] && Carry(s.a) == 8
    ensures Round(s) == State(seq(54, Cap16Table11)[0 := 9], [5], 0, 8, true)
  {
    SettleHold(5, 8);
    assert [] + [5] == [5];
  }

  lemma Cap16Round11(s: State)
    requires s == State(seq(54, Cap16Table10)[0 := 8], [], 0, 5, true)
    ensures Round(s) == State(seq(54, Cap16Table11)[0 := 9], [5], 0, 8, true)
  {
    var b, c := seq(54, Cap16Table11), seq(55, Cap16Carries11);
    Cap16Sweep11(s.a, b, c);
    SweepFacts(s.a, b, 89);
    QuotRemNonneg(89, 10);
    Cap16Settle11(s, b);
  }

  lemma Cap16Next10(s: State)
    requires s == State(seq(54, Cap16Table10)[0 := 8], [], 0, 5, true)
    ensures Next(s, 1) == Some((5, State(seq(54, Cap16Table11)[0 := 9], [], 0, 8, true)))
  {
    var t := s;
    Cap16Round11(t);
  }

  /** The table after the sweep of round 12. */
  function Cap16Table12(i: int): int
  {
    if i < 27 then
      if i < 13 then
        if i < 6 then
          if i < 3 then
            if i < 1 then
              0
            else
              if i < 2 then
                1
              else
                0
          else
            if i < 4 then
              6
            else
              if i < 5 then
                4
              else
                3
        else
          if i < 9 then
            if i < 7 then
              12
            else
              if i < 8 then
                14
              else
                11
          else
            if i < 11 then
              if i < 10 then
                3
              else
                13
            else
              if i < 12 then
                12
              else
                15
      else
        if i < 20 then
          if i < 16 then
            if i < 14 then
              9
            else
              if i < 15 then
                16
              else
                5
          else
            if i < 18 then
              if i < 17 then
                3
              else
                4
            else
              if i < 19 then
                24
              else
                30
        else
          if i < 23 then
            if i < 21 then
              16
            else
              if i < 22 then
                42
              else
                29
          else
            if i < 25 then
              if i < 24 then
                8
              else
                36
            else
              if i < 26 then
                39
              else
                25
    else
      if i < 40 then
        if i < 33 then
          if i < 30 then
            if i < 28 then
              48
            else
              if i < 29 then
                41
              else
                47
          else
            if i < 31 then
              23
            else
              if i < 32 then
                3
              else
                61
        else
          if i < 36 then
            if i < 34 then
              56
            else
              if i < 35 then
                35
              else
                14
          else
            if i < 38 then
              if i < 37 then
                66
              else
                31
            else
              if i < 39 then
                6
              else
                30
      else
        if i < 47 then
          if i < 43 then
            if i < 41 then
              67
            else
              if i < 42 then
                0
              else
                7
          else
            if i < 45 then
              if i < 44 then
                67
              else
                0
            else
              if i < 46 then
                49
              else
                12
        else
          if i < 50 then
            if i < 48 then
              58
            else
              if i < 49 then
                37
              else
                51
          else
            if i < 52 then
              if i < 51 then
                16
              else
                46
            else
              if i < 53 then
                65
              else
                50
  }

  /** The carries of the sweep of round 12, by position. */
  function Cap16Carries12(i: int): int
  {
    if i < 27 then
      if i < 13 then
        if i < 6 then
          if i < 3 then
            if i < 1 then
              97
            else
              if i < 2 then
                7
              else
                6
          else
            if i < 4 then
              10
            else
              if i < 5 then
                9
              else
                5
        else
          if i < 9 then
            if i < 7 then
              8
            else
              if i < 8 then
                8
              else
                8
          else
            if i < 11 then
              if i < 10 then
                13
              else
                11
            else
              if i < 12 then
                14
              else
                12
      else
        if i < 20 then
          if i < 16 then
            if i < 14 then
              15
            else
              if i < 15 then
                11
              else
                5
          else
            if i < 18 then
              if i < 17 then
                5
              else
                4
            else
              if i < 19 then
                8
              else
                10
        else
          if i < 23 then
            if i < 21 then
              10
            else
              if i < 22 then
                6
              else
                5
          else
            if i < 25 then
              if i < 24 then
                8
              else
                11
            else
              if i < 26 then
                7
              else
                11
    else
      if i < 41 then
        if i < 34 then
          if i < 30 then
            if i < 28 then
              4
            else
              if i < 29 then
                6
              else
                7
          else
            if i < 32 then
              if i < 31 then
                8
              else
                11
            else
              if i < 33 then
                13
              else
                12
        else
          if i < 37 then
            if i < 35 then
              15
            else
              if i < 36 then
                16
              else
                15
          else
            if i < 39 then
              if i < 38 then
                13
              else
                12
            else
              if i < 40 then
                10
              else
                9
      else
        if i < 48 then
          if i < 44 then
            if i < 42 then
              16
            else
              if i < 43 then
                14
              else
                9
          else
            if i < 46 then
              if i < 45 then
                5
              else
                7
            else
              if i < 47 then
                6
              else
                10
        else
          if i < 51 then
            if i < 49 then
              6
            else
              if i < 50 then
                11
              else
                10
          else
            if i < 53 then
              if i < 52 then
                6
              else
                7
            else
              if i < 54 then
                0
              else
                0
  }

  lemma Cap16Sweep12Part0(a: seq<int>, b: seq<int>, c: seq<int>)
    requires a == seq(54, Cap16Table11)[0 := 9] && b == seq(54, Cap16Table12) && c == seq(55, Cap16Carries12)
    ensures TraceOk(a, b, c, 0, 6)
  {
    assert TraceOk(a, b, c, 0, 1);
    assert TraceOk(a, b, c, 0, 2);
    assert TraceOk(a, b, c, 0, 3);
    assert TraceOk(a, b, c, 0, 4);
    assert TraceOk(a, b, c, 0, 5);
  }

  lemma Cap16Sweep12Part1(a: seq<int>, b: seq<int>, c: seq<int>)
    requires a == seq(54, Cap16Table11)[0 := 9] && b == seq(54, Cap16Table12) && c == seq(55, Cap16Carries12)
    ensures TraceOk(a, b, c, 6, 12)
  {
    assert TraceOk(a, b, c, 6, 7);
    assert TraceOk(a, b, c, 6, 8);
    assert TraceOk(a, b, c, 6, 9);
    assert TraceOk(a, b, c, 6, 10);
    assert TraceOk(a, b, c, 6, 11);
  }

  lemma Cap16Sweep12Upto1(a: seq<int>, b: seq<int>, c: seq<int>)
    requires a == seq(54, Cap16Table11)[0 := 9] && b == seq(54, Cap16Table12) && c == seq(55, Cap16Carries12)
    ensures TraceOk(a, b, c, 0, 12)
  {
    Cap16Sweep12Part0(a, b, c);
    Cap16Sweep12Part1(a, b, c);
    TraceJoin(a, b, c, 0, 6, 12);
  }

  lemma Cap16Sweep12Part2(a: seq<int>, b: seq<int>, c: seq<int>)
    requires a == seq(54, Cap16Table11)[0 := 9] && b == seq(54, Cap16Table12) && c == seq(55, Cap16Carries12)
    ensures TraceOk(a, b, c, 12, 18)
  {
    assert TraceOk(a, b, c, 12, 13);
    assert TraceOk(a, b, c, 12, 14);
    assert TraceOk(a, b, c, 12, 15);
    assert TraceOk(a, b, c, 12, 16);
    assert TraceOk(a, b, c, 12, 17);
  }

  lemma Cap16Sweep12Upto2(a: seq<int>, b: seq<int>, c: seq<int>)
    requires a == seq(54, Cap16Table11)[0 := 9] && b == seq(54, Cap16Table12) && c == seq(55, Cap16Carries12)
    ensures TraceOk(a, b, c, 0, 18)
  {
    Cap16Sweep12Upto1(a, b, c);
    Cap16Sweep12Part2(a, b, c);
    TraceJoin(a, b, c, 0, 12, 18);
  }

  lemma Cap16Sweep12Part3(a: seq<int>, b: seq<int>, c: seq<int>)
    requires a == seq(54, Cap16Table11)[0 := 9] && b == seq(54, Cap16Table12) && c == seq(55, Cap16Carries12)
    ensures TraceOk(a, b, c, 18, 24)
  {
    assert TraceOk(a, b, c, 18, 19);
    assert TraceOk(a, b, c, 18, 20);
    assert TraceOk(a, b, c, 18, 21);
    assert TraceOk(a, b, c, 18, 22);
    assert TraceOk(a, b, c, 18, 23);
  }

  lemma Cap16Sweep12Upto3(a: seq<int>, b: seq<int>, c: seq<int>)
    requires a == seq(54, Cap16Table11)[0 := 9] && b == seq(54, Cap16Table12) && c == seq(55, Cap16Carries12)
    ensures TraceOk(a, b, c, 0, 24)
  {
    Cap16Sweep12Upto2(a, b, c);
    Cap16Sweep12Part3(a, b, c);
    TraceJoin(a, b, c, 0, 18, 24);
  }

  lemma Cap16Sweep12Part4(a: seq<int>, b: seq<int>, c: seq<int>)
    requires a == seq(54, Cap16Table11)[0 := 9] && b == seq(54, Cap16Table12) && c == seq(55, Cap16Carries12)
    ensures TraceOk(a, b, c, 24, 30)
  {
    assert TraceOk(a, b, c, 24, 25);
    assert TraceOk(a, b, c, 24, 26);
    assert TraceOk(a, b, c, 24, 27);
    assert TraceOk(a, b, c, 24, 28);
    assert TraceOk(a, b, c, 24, 29);
  }

  lemma Cap16Sweep12Upto4(a: seq<int>, b: seq<int>, c: seq<int>)
    requires a == seq(54, Cap16Table11)[0 := 9] && b == seq(54, Cap16Table12) && c == seq(55, Cap16Carries12)
    ensures TraceOk(a, b, c, 0, 30)
  {
    Cap16Sweep12Upto3(a, b, c);
    Cap16Sweep12Part4(a, b, c);
    TraceJoin(a, b, c, 0, 24, 30);
  }

  lemma Cap16Sweep12Part5(a: seq<int>, b: seq<int>, c: seq<int>)
    requires a == seq(54, Cap16Table11)[0 := 9] && b == seq(54, Cap16Table12) && c == seq(55, Cap16Carries12)
    ensures TraceOk(a, b, c, 30, 36)
  {
    assert TraceOk(a, b, c, 30, 31);
    assert TraceOk(a, b, c, 30, 32);
    assert TraceOk(a, b, c, 30, 33);
    assert TraceOk(a, b, c, 30, 34);
    assert TraceOk(a, b, c, 30, 35);
  }

  lemma Cap16Sweep12Upto5(a: seq<int>, b: seq<int>, c: seq<int>)
    requires a == seq(54, Cap16Table11)[0 := 9] && b == seq(54, Cap16Table12) && c == seq(55, Cap16Carries12)
    ensures TraceOk(a, b, c, 0, 36)
  {
    Cap16Sweep12Upto4(a, b, c);
    Cap16Sweep12Part5(a, b, c);
    TraceJoin(a, b, c, 0, 30, 36);
  }

  lemma Cap16Sweep12Part6(a: seq<int>, b: seq<int>, c: seq<int>)
    requires a == seq(54, Cap16Table11)[0 := 9] && b == seq(54, Cap16Table12) && c == seq(55, Cap16Carries12)
    ensures TraceOk(a, b, c, 36, 42)
  {
    assert TraceOk(a, b, c, 36, 37);
    assert TraceOk(a, b, c, 36, 38);
    assert TraceOk(a, b, c, 36, 39);
    assert TraceOk(a, b, c, 36, 40);
    assert TraceOk(a, b, c, 36, 41);
  }

  lemma Cap16Sweep12Upto6(a: seq<int>, b: seq<int>, c: seq<int>)
    requires a == seq(54, Cap16Table11)[0 := 9] && b == seq(54, Cap16Table12) && c == seq(55, Cap16Carries12)
    ensures TraceOk(a, b, c, 0, 42)
  {
    Cap16Sweep12Upto5(a, b, c);
    Cap16Sweep12Part6(a, b, c);
    TraceJoin(a, b, c, 0, 36, 42);
  }

  lemma Cap16Sweep12Part7(a: seq<int>, b: seq<int>, c: seq<int>)
    requires a == seq(54, Cap16Table11)[0 := 9] && b == seq(54, Cap16Table12) && c == seq(55, Cap16Carries12)
    ensures TraceOk(a, b, c, 42, 48)
  {
    assert TraceOk(a, b, c, 42, 43);
    assert TraceOk(a, b, c, 42, 44);
    assert TraceOk(a, b, c, 42, 45);
    assert TraceOk(a, b, c, 42, 46);
    assert TraceOk(a, b, c, 42, 47);
  }

  lemma Cap16Sweep12Upto7(a: seq<int>, b: seq<int>, c: seq<int>)
    requires a == seq(54, Cap16Table11)[0 := 9] && b == seq(54, Cap16Table12) && c == seq(55, Cap16Carries12)
    ensures TraceOk(a, b, c, 0, 48)
  {
    Cap16Sweep12Upto6(a, b, c);
    Cap16Sweep12Part7(a, b, c);
    TraceJoin(a, b, c, 0, 42, 48);
  }

  lemma Cap16Sweep12Part8(a: seq<int>, b: seq<int>, c: seq<int>)
    requires a == seq(54, Cap16Table11)[0 := 9] && b == seq(54, Cap16Table12) && c == seq(55, Cap16Carries12)
    ensures TraceOk(a, b, c, 48, 54)
  {
    assert TraceOk(a, b, c, 48, 49);
    assert TraceOk(a, b, c, 48, 50);
    assert TraceOk(a, b, c, 48, 51);
    assert TraceOk(a, b, c, 48, 52);
    assert TraceOk(a, b, c, 48, 53);
  }

  lemma Cap16Sweep12Upto8(a: seq<int>, b: seq<int>, c: seq<int>)
    requires a == seq(54, Cap16Table11)[0 := 9] && b == seq(54, Cap16Table12) && c == seq(55, Cap16Carries12)
    ensures TraceOk(a, b, c, 0, 54)
  {
    Cap16Sweep12Upto7(a, b, c);
    Cap16Sweep12Part8(a, b, c);
    TraceJoin(a, b, c, 0, 48, 54);
  }

  lemma Cap16Sweep12(a: seq<int>, b: seq<int>, c: seq<int>)
    requires a == seq(54, Cap16Table11)[0 := 9] && b == seq(54, Cap16Table12) && c == seq(55, Cap16Carries12)
    ensures Sweep(a, 54, 0) == (b, 97)
  {
    Cap16Sweep12Upto8(a, b, c);
    assert b[54..] == a[54..];
    SweepByTrace(a, b, c, 54);
  }

  lemma Cap16Settle12(s: State, b: seq<int>)
    requires |s.a| == 54 && s.queue == [] && s.nines == 0 && s.predigit == 8 && s.started == true
    requires b == seq(54, Cap16Table12) && SweptTable(s.a) == b[0 := 7] && Carry(s.a) == 9
    ensures Round(s) == State(seq(54, Cap16Table12)[0 := 7], [], 1, 8, true)
  {
    assert s.queue + [] == s.queue;
  }

  lemma Cap16Round12(s: State)
    requires s == State(seq(54, Cap16Table11)[0 := 9], [], 0, 8, true)
    ensures Round(s) == State(seq(54, Cap16Table12)[0 := 7], [], 1, 8, true)
  {
    var b, c := seq(54, Cap16Table12), seq(55, Cap16Carries12);
    Cap16Sweep12(s.a, b, c);
    SweepFacts(s.a, b, 97);
    QuotRemNonneg(97, 10);
    Cap16Settle12(s, b);
  }

  /** The table after the sweep of round 13. */
  function Cap16Table13(i: int): int
  {
    if i < 27 then
      if i < 13 then
        if i < 6 then
          if i < 3 then
            if i < 1 then
              0
            else
              if i < 2 then
                2
              else
                2
          else
            if i < 4 then
              2
            else
              if i < 5 then
                5
              else
                5
        else
          if i < 9 then
            if i < 7 then
              10
            else
              if i < 8 then
                2
              else
                11
          else
            if i < 11 then
              if i < 10 then
                16
              else
                19
            else
              if i < 12 then
                21
              else
                3
      else
        if i < 20 then
          if i < 16 then
            if i < 14 then
              26
            else
              if i < 15 then
                2
              else
                21
          else
            if i < 18 then
              if i < 17 then
                17
              else
                29
            else
              if i < 19 then
                6
              else
                13
        else
          if i < 23 then
            if i < 21 then
              3
            else
              if i < 22 then
                38
              else
                24
          else
            if i < 25 then
              if i < 24 then
                16
              else
                48
            else
              if i < 26 then
                13
              else
                45
    else
      if i < 40 then
        if i < 33 then
          if i < 30 then
            if i < 28 then
              46
            else
              if i < 29 then
                45
              else
                31
          else
            if i < 31 then
              51
            else
              if i < 32 then
                6
              else
                31
        else
          if i < 36 then
            if i < 34 then
              62
            else
              if i < 35 then
                9
              else
                4
          else
            if i < 38 then
              if i < 37 then
                6
              else
                12
            else
              if i < 39 then
                64
              else
                28
      else
        if i < 47 then
          if i < 43 then
            if i < 41 then
              23
            else
              if i < 42 then
                44
              else
                32
          else
            if i < 45 then
              if i < 44 then
                19
              else
                48
            else
              if i < 46 then
                83
              else
                78
        else
          if i < 50 then
            if i < 48 then
              61
            else
              if i < 49 then
                34
              else
                67
          else
            if i < 52 then
              if i < 51 then
                63
              else
                52
            else
              if i < 53 then
                22
              else
                72
  }

  /** The carries of the sweep of round 13, by position. */
  function Cap16Carries13(i: int): int
  {
    if i < 27 then
      if i < 13 then
        if i < 6 then
          if i < 3 then
            if i < 1 then
              78
            else
              if i < 2 then
                8
              else
                8
          else
            if i < 4 then
              14
            else
              if i < 5 then
                10
              else
                11
        else
          if i < 9 then
            if i < 7 then
              16
            else
              if i < 8 then
                14
              else
                9
          else
            if i < 11 then
              if i < 10 then
                6
              else
                10
            else
              if i < 12 then
                9
              else
                9
      else
        if i < 20 then
          if i < 16 then
            if i < 14 then
              6
            else
              if i < 15 then
                7
              else
                3
          else
            if i < 18 then
              if i < 17 then
                4
              else
                7
            else
              if i < 19 then
                13
              else
                13
        else
          if i < 23 then
            if i < 21 then
              11
            else
              if i < 22 then
                14
              else
                10
          else
            if i < 25 then
              if i < 24 then
                8
              else
                13
            else
              if i < 26 then
                13
              else
                11
    else
      if i < 41 then
        if i < 34 then
          if i < 30 then
            if i < 28 then
              14
            else
              if i < 29 then
                12
              else
                11
          else
            if i < 32 then
              if i < 31 then
                7
              else
                8
            else
              if i < 33 then
                15
              else
                12
        else
          if i < 37 then
            if i < 35 then
              9
            else
              if i < 36 then
                8
              else
                12
          else
            if i < 39 then
              if i < 38 then
                6
              else
                4
            else
              if i < 40 then
                8
              else
                9
      else
        if i < 48 then
          if i < 44 then
            if i < 42 then
              2
            else
              if i < 43 then
                5
              else
                9
          else
            if i < 46 then
              if i < 45 then
                3
              else
                7
            else
              if i < 47 then
                5
              else
                9
        else
          if i < 51 then
            if i < 49 then
              7
            else
              if i < 50 then
                7
              else
                5
          else
            if i < 53 then
              if i < 52 then
                8
              else
                8
            else
              if i < 54 then
                4
              else
                0
  }

  lemma Cap16Sweep13Part0(a: seq<int>, b: seq<int>, c: seq<int>)
    requires a == seq(54, Cap16Table12)[0 := 7] && b == seq(54, Cap16Table13) && c == seq(55, Cap16Carries13)
    ensures TraceOk(a, b, c, 0, 6)
  {
    assert TraceOk(a, b, c, 0, 1);
    assert TraceOk(a, b, c, 0, 2);
    assert TraceOk(a, b, c, 0, 3);
    assert TraceOk(a, b, c, 0, 4);
    assert TraceOk(a, b, c, 0, 5);
  }

  lemma Cap16Sweep13Part1(a: seq<int>, b: seq<int>, c: seq<int>)
    requires a == seq(54, Cap16Table12)[0 := 7] && b == seq(54, Cap16Table13) && c == seq(55, Cap16Carries13)
    ensures TraceOk(a, b, c, 6, 12)
  {
    assert TraceOk(a, b, c, 6, 7);
    assert TraceOk(a, b, c, 6, 8);
    assert TraceOk(a, b, c, 6, 9);
    assert TraceOk(a, b, c, 6, 10);
    assert TraceOk(a, b, c, 6, 11);
  }

  lemma Cap16Sweep13Upto1(a: seq<int>, b: seq<int>, c: seq<int>)
    requires a == seq(54, Cap16Table12)[0 := 7] && b == seq(54, Cap16Table13) && c == seq(55, Cap16Carries13)
    ensures TraceOk(a, b, c, 0, 12)
  {
    Cap16Sweep13Part0(a, b, c);
    Cap16Sweep13Part1(a, b, c);
    TraceJoin(a, b, c, 0, 6, 12);
  }

  lemma Cap16Sweep13Part2(a: seq<int>, b: seq<int>, c: seq<int>)
    requires a == seq(54, Cap16Table12)[0 := 7] && b == seq(54, Cap16Table13) && c == seq(55, Cap16Carries13)
    ensures TraceOk(a, b, c, 12, 18)
  {
    assert TraceOk(a, b, c, 12, 13);
    assert TraceOk(a, b, c, 12, 14);
    assert TraceOk(a, b, c, 12, 15);
    assert TraceOk(a, b, c, 12, 16);
    assert TraceOk(a, b, c, 12, 17);
  }

  lemma Cap16Sweep13Upto2(a: seq<int>, b: seq<int>, c: seq<int>)
    requires a == seq(54, Cap16Table12)[0 := 7] && b == seq(54, Cap16Table13) && c == seq(55, Cap16Carries13)
    ensures TraceOk(a, b, c, 0, 18)
  {
    Cap16Sweep13Upto1(a, b, c);
    Cap16Sweep13Part2(a, b, c);
    TraceJoin(a, b, c, 0, 12, 18);
  }

  lemma Cap16Sweep13Part3(a: seq<int>, b: seq<int>, c: seq<int>)
    requires a == seq(54, Cap16Table12)[0 := 7] && b == seq(54, Cap16Table13) && c == seq(55, Cap16Carries13)
    ensures TraceOk(a, b, c, 18, 24)
  {
    assert TraceOk(a, b, c, 18, 19);
    assert TraceOk(a, b, c, 18, 20);
    assert TraceOk(a, b, c, 18, 21);
    assert TraceOk(a, b, c, 18, 22);
    assert TraceOk(a, b, c, 18, 23);
  }

  lemma Cap16Sweep13Upto3(a: seq<int>, b: seq<int>, c: seq<int>)
    requires a == seq(54, Cap16Table12)[0 := 7] && b == seq(54, Cap16Table13) && c == seq(55, Cap16Carries13)
    ensures TraceOk(a, b, c, 0, 24)
  {
    Cap16Sweep13Upto2(a, b, c);
    Cap16Sweep13Part3(a, b, c);
    TraceJoin(a, b, c, 0, 18, 24);
  }

  lemma Cap16Sweep13Part4(a: seq<int>, b: seq<int>, c: seq<int>)
    requires a == seq(54, Cap16Table12)[0 := 7] && b == seq(54, Cap16Table13) && c == seq(55, Cap16Carries13)
    ensures TraceOk(a, b, c, 24, 30)
  {
    assert TraceOk(a, b, c, 24, 25);
    assert TraceOk(a, b, c, 24, 26);
    assert TraceOk(a, b, c, 24, 27);
    assert TraceOk(a, b, c, 24, 28);
    assert TraceOk(a, b, c, 24, 29);
  }

  lemma Cap16Sweep13Upto4(a: seq<int>, b: seq<int>, c: seq<int>)
    requires a == seq(54, Cap16Table12)[0 := 7] && b == seq(54, Cap16Table13) && c == seq(55, Cap16Carries13)
    ensures TraceOk(a, b, c, 0, 30)
  {
    Cap16Sweep13Upto3(a, b, c);
    Cap16Sweep13Part4(a, b, c);
    TraceJoin(a, b, c, 0, 24, 30);
  }

  lemma Cap16Sweep13Part5(a: seq<int>, b: seq<int>, c: seq<int>)
    requires a == seq(54, Cap16Table12)[0 := 7] && b == seq(54, Cap16Table13) && c == seq(55, Cap16Carries13)
    ensures TraceOk(a, b, c, 30, 36)
  {
    assert TraceOk(a, b, c, 30, 31);
    assert TraceOk(a, b, c, 30, 32);
    assert TraceOk(a, b, c, 30, 33);
    assert TraceOk(a, b, c, 30, 34);
    assert TraceOk(a, b, c, 30, 35);
  }

  lemma Cap16Sweep13Upto5(a: seq<int>, b: seq<int>, c: seq<int>)
    requires a == seq(54, Cap16Table12)[0 := 7] && b == seq(54, Cap16Table13) && c == seq(55, Cap16Carries13)
    ensures TraceOk(a, b, c, 0, 36)
  {
    Cap16Sweep13Upto4(a, b, c);
    Cap16Sweep13Part5(a, b, c);
    TraceJoin(a, b, c, 0, 30, 36);
  }

  lemma Cap16Sweep13Part6(a: seq<int>, b: seq<int>, c: seq<int>)
    requires a == seq(54, Cap16Table12)[0 := 7] && b == seq(54, Cap16Table13) && c == seq(55, Cap16Carries13)
    ensures TraceOk(a, b, c, 36, 42)
  {
    assert TraceOk(a, b, c, 36, 37);
    assert TraceOk(a, b, c, 36, 38);
    assert TraceOk(a, b, c, 36, 39);
    assert TraceOk(a, b, c, 36, 40);
    assert TraceOk(a, b, c, 36, 41);
  }

  lemma Cap16Sweep13Upto6(a: seq<int>, b: seq<int>, c: seq<int>)
    requires a == seq(54, Cap16Table12)[0 := 7] && b == seq(54, Cap16Table13) && c == seq(55, Cap16Carries13)
    ensures TraceOk(a, b, c, 0, 42)
  {
    Cap16Sweep13Upto5(a, b, c);
    Cap16Sweep13Part6(a, b, c);
    TraceJoin(a, b, c, 0, 36, 42);
  }

  lemma Cap16Sweep13Part7(a: seq<int>, b: seq<int>, c: seq<int>)
    requires a == seq(54, Cap16Table12)[0 := 7] && b == seq(54, Cap16Table13) && c == seq(55, Cap16Carries13)
    ensures TraceOk(a, b, c, 42, 48)
  {
    assert TraceOk(a, b, c, 42, 43);
    assert TraceOk(a, b, c, 42, 44);
    assert TraceOk(a, b, c, 42, 45);
    assert TraceOk(a, b, c, 42, 46);
    assert TraceOk(a, b, c, 42, 47);
  }

  lemma Cap16Sweep13Upto7(a: seq<int>, b: seq<int>, c: seq<int>)
    requires a == seq(54, Cap16Table12)[0 := 7] && b == seq(54, Cap16Table13) && c == seq(55, Cap16Carries13)
    ensures TraceOk(a, b, c, 0, 48)
  {
    Cap16Sweep13Upto6(a, b, c);
    Cap16Sweep13Part7(a, b, c);
    TraceJoin(a, b, c, 0, 42, 48);
  }

  lemma Cap16Sweep13Part8(a: seq<int>, b: seq<int>, c: seq<int>)
    requires a == seq(54, Cap16Table12)[0 := 7] && b == seq(54, Cap16Table13) && c == seq(55, Cap16Carries13)
    ensures TraceOk(a, b, c, 48, 54)
  {
    assert TraceOk(a, b, c, 48, 49);
    assert TraceOk(a, b, c, 48, 50);
    assert TraceOk(a, b, c, 48, 51);
    assert TraceOk(a, b, c, 48, 52);
    assert TraceOk(a, b, c, 48, 53);
  }

  lemma Cap16Sweep13Upto8(a: seq<int>, b: seq<int>, c: seq<int>)
    requires a == seq(54, Cap16Table12)[0 := 7] && b == seq(54, Cap16Table13) && c == seq(55, Cap16Carries13)
    ensures TraceOk(a, b, c, 0, 54)
  {
    Cap16Sweep13Upto7(a, b, c);
    Cap16Sweep13Part8(a, b, c);
    TraceJoin(a, b, c, 0, 48, 54);
  }

  lemma Cap16Sweep13(a: seq<int>, b: seq<int>, c: seq<int>)
    requires a == seq(54, Cap16Table12)[0 := 7] && b == seq(54, Cap16Table13) && c == seq(55, Cap16Carries13)
    ensures Sweep(a, 54, 0) == (b, 78)
  {
    Cap16Sweep13Upto8(a, b, c);
    assert b[54..] == a[54..];
    SweepByTrace(a, b, c, 54);
  }

  lemma Cap16Settle13(s: State, b: seq<int>)
    requires |s.a| == 54 && s.queue == [] && s.nines == 1 && s.predigit == 8 && s.started == true
    requires b == seq(54, Cap16Table13) && SweptTable(s.a) == b[0 := 8] && Carry(s.a) == 7
    ensures Round(s) == State(seq(54, Cap16Table13)[0 := 8], [8, 9], 0, 7, true)
  {
    SettleRelease(8, 7);
    assert [] + [8, 9] == [8, 9];
  }

  lemma Cap16Round13(s: State)
    requires s == State(seq(54, Cap16Table12)[0 := 7], [], 1, 8, true)
    ensures Round(s) == State(seq(54, Cap16Table13)[0 := 8], [8, 9], 0, 7, true)
  {
    var b, c := seq(54, Cap16Table13), seq(55, Cap16Carries13);
    Cap16Sweep13(s.a, b, c);
    SweepFacts(s.a, b, 78);
    QuotRemNonneg(78, 10);
    Cap16Settle13(s, b);
  }

  lemma Cap16Next11(s: State)
    requires s == State(seq(54, Cap16Table11)[0 := 9], [], 0, 8, true)
    ensures Next(s, 1) == Some((8, State(seq(54, Cap16Table13)[0 := 8], [9], 0, 7, true)))
  {
    var t := s;
    Cap16Round12(t);
    t := Suppress(Round(t));
    Cap16Round13(t);
  }

  lemma Cap16Next12(s: State)
    requires s == State(seq(54, Cap16Table13)[0 := 8], [9], 0, 7, true)
    ensures Next(s, 1) == Some((9, State(seq(54, Cap16Table13)[0 := 8], [], 0, 7, true)))
  {
    assert s.queue[1..] == [];
  }

  /** The table after the sweep of round 14. */
  function Cap16Table14(i: int): int
  {
    if i < 27 then
      if i < 13 then
        if i < 6 then
          if i < 3 then
            if i < 1 then
              0
            else
              if i < 2 then
                2
              else
                2
          else
            if i < 4 then
              1
            else
              if i < 5 then
                6
              else
                1
        else
          if i < 9 then
            if i < 7 then
              0
            else
              if i < 8 then
                12
              else
                16
          else
            if i < 11 then
              if i < 10 then
                6
              else
                7
            else
              if i < 12 then
                18
              else
                11
      else
        if i < 20 then
          if i < 16 then
            if i < 14 then
              20
            else
              if i < 15 then
                11
              else
                29
          else
            if i < 18 then
              if i < 17 then
                10
              else
                12
            else
              if i < 19 then
                26
              else
                36
        else
          if i < 23 then
            if i < 21 then
              16
            else
              if i < 22 then
                41
              else
                20
          else
            if i < 25 then
              if i < 24 then
                26
              else
                44
            else
              if i < 26 then
                10
              else
                33
    else
      if i < 40 then
        if i < 33 then
          if i < 30 then
            if i < 28 then
              26
            else
              if i < 29 then
                56
              else
                20
          else
            if i < 31 then
              55
            else
              if i < 32 then
                33
              else
                55
        else
          if i < 36 then
            if i < 34 then
              18
            else
              if i < 35 then
                22
              else
                42
          else
            if i < 38 then
              if i < 37 then
                27
              else
                13
            else
              if i < 39 then
                27
              else
                46
      else
        if i < 47 then
          if i < 43 then
            if i < 41 then
              72
            else
              if i < 42 then
                70
              else
                69
          else
            if i < 45 then
              if i < 44 then
                22
              else
                87
            else
              if i < 46 then
                63
              else
                41
        else
          if i < 50 then
            if i < 48 then
              92
            else
              if i < 49 then
                6
              else
                31
          else
            if i < 52 then
              if i < 51 then
                78
              else
                59
            else
              if i < 53 then
                13
              else
                78
  }

  /** The carries of the sweep of round 14, by position. */
  function Cap16Carries14(i: int): int
  {
    if i < 27 then
      if i < 13 then
        if i < 6 then
          if i < 3 then
            if i < 1 then
              92
            else
              if i < 2 then
                12
              else
                9
          else
            if i < 4 then
              9
            else
              if i < 5 then
                11
              else
                11
        else
          if i < 9 then
            if i < 7 then
              12
            else
              if i < 8 then
                8
              else
                14
          else
            if i < 11 then
              if i < 10 then
                16
              else
                15
            else
              if i < 12 then
                12
              else
                7
      else
        if i < 20 then
          if i < 16 then
            if i < 14 then
              12
            else
              if i < 15 then
                6
              else
                11
          else
            if i < 18 then
              if i < 17 then
                10
              else
                10
            else
              if i < 19 then
                4
              else
                6
        else
          if i < 23 then
            if i < 21 then
              7
            else
              if i < 22 then
                13
              else
                10
          else
            if i < 25 then
              if i < 24 then
                10
              else
                14
            else
              if i < 26 then
                10
              else
                15
    else
      if i < 41 then
        if i < 34 then
          if i < 30 then
            if i < 28 then
              14
            else
              if i < 29 then
                12
              else
                10
          else
            if i < 32 then
              if i < 31 then
                10
              else
                5
            else
              if i < 33 then
                9
              else
                10
        else
          if i < 37 then
            if i < 35 then
              2
            else
              if i < 36 then
                2
              else
                4
          else
            if i < 39 then
              if i < 38 then
                7
              else
                11
            else
              if i < 40 then
                6
              else
                6
      else
        if i < 48 then
          if i < 44 then
            if i < 42 then
              8
            else
              if i < 43 then
                7
              else
                8
          else
            if i < 46 then
              if i < 45 then
                12
              else
                15
            else
              if i < 47 then
                13
              else
                10
        else
          if i < 51 then
            if i < 49 then
              9
            else
              if i < 50 then
                11
              else
                9
          else
            if i < 53 then
              if i < 52 then
                7
              else
                5
            else
              if i < 54 then
                6
              else
                0
  }

  lemma Cap16Sweep14Part0(a: seq<int>, b: seq<int>, c: seq<int>)
    requires a == seq(54, Cap16Table13)[0 := 8] && b == seq(54, Cap16Table14) && c == seq(55, Cap16Carries14)
    ensures TraceOk(a, b, c, 0, 6)
  {
    assert TraceOk(a, b, c, 0, 1);
    assert TraceOk(a, b, c, 0, 2);
    assert TraceOk(a, b, c, 0, 3);
    assert TraceOk(a, b, c, 0, 4);
    assert TraceOk(a, b, c, 0, 5);
  }

  lemma Cap16Sweep14Part1(a: seq<int>, b: seq<int>, c: seq<int>)
    requires a == seq(54, Cap16Table13)[0 := 8] && b == seq(54, Cap16Table14) && c == seq(55, Cap16Carries14)
    ensures TraceOk(a, b, c, 6, 12)
  {
    assert TraceOk(a, b, c, 6, 7);
    assert TraceOk(a, b, c, 6, 8);
    assert TraceOk(a, b, c, 6, 9);
    assert TraceOk(a, b, c, 6, 10);
    assert TraceOk(a, b, c, 6, 11);
  }

  lemma Cap16Sweep14Upto1(a: seq<int>, b: seq<int>, c: seq<int>)
    requires a == seq(54, Cap16Table13)[0 := 8] && b == seq(54, Cap16Table14) && c == seq(55, Cap16Carries14)
    ensures TraceOk(a, b, c, 0, 12)
  {
    Cap16Sweep14Part0(a, b, c);
    Cap16Sweep14Part1(a, b, c);
    TraceJoin(a, b, c, 0, 6, 12);
  }

  lemma Cap16Sweep14Part2(a: seq<int>, b: seq<int>, c: seq<int>)
    requires a == seq(54, Cap16Table13)[0 := 8] && b == seq(54, Cap16Table14) && c == seq(55, Cap16Carries14)
    ensures TraceOk(a, b, c, 12, 18)
  {
    assert TraceOk(a, b, c, 12, 13);
    assert TraceOk(a, b, c, 12, 14);
    assert TraceOk(a, b, c, 12, 15);
    assert TraceOk(a, b, c, 12, 16);
    assert TraceOk(a, b, c, 12, 17);
  }

  lemma Cap16Sweep14Upto2(a: seq<int>, b: seq<int>, c: seq<int>)
    requires a == seq(54, Cap16Table13)[0 := 8] && b == seq(54, Cap16Table14) && c == seq(55, Cap16Carries14)
    ensures TraceOk(a, b, c, 0, 18)
  {
    Cap16Sweep14Upto1(a, b, c);
    Cap16Sweep14Part2(a, b, c);
    TraceJoin(a, b, c, 0, 12, 18);
  }

  lemma Cap16Sweep14Part3(a: seq<int>, b: seq<int>, c: seq<int>)
    requires a == seq(54, Cap16Table13)[0 := 8] && b == seq(54, Cap16Table14) && c == seq(55, Cap16Carries14)
    ensures TraceOk(a, b, c, 18, 24)
  {
    assert TraceOk(a, b, c, 18, 19);
    assert TraceOk(a, b, c, 18, 20);
    assert TraceOk(a, b, c, 18, 21);
    assert TraceOk(a, b, c, 18, 22);
    assert TraceOk(a, b, c, 18, 23);
  }

  lemma Cap16Sweep14Upto3(a: seq<int>, b: seq<int>, c: seq<int>)
    requires a == seq(54, Cap16Table13)[0 := 8] && b == seq(54, Cap16Table14) && c == seq(55, Cap16Carries14)
    ensures TraceOk(a, b, c, 0, 24)
  {
    Cap16Sweep14Upto2(a, b, c);
    Cap16Sweep14Part3(a, b, c);
    TraceJoin(a, b, c, 0, 18, 24);
  }

  lemma Cap16Sweep14Part4(a: seq<int>, b: seq<int>, c: seq<int>)
    requires a == seq(54, Cap16Table13)[0 := 8] && b == seq(54, Cap16Table14) && c == seq(55, Cap16Carries14)
    ensures TraceOk(a, b, c, 24, 30)
  {
    assert TraceOk(a, b, c, 24, 25);
    assert TraceOk(a, b, c, 24, 26);
    assert TraceOk(a, b, c, 24, 27);
    assert TraceOk(a, b, c, 24, 28);
    assert TraceOk(a, b, c, 24, 29);
  }

  lemma Cap16Sweep14Upto4(a: seq<int>, b: seq<int>, c: seq<int>)
    requires a == seq(54, Cap16Table13)[0 := 8] && b == seq(54, Cap16Table14) && c == seq(55, Cap16Carries14)
    ensures TraceOk(a, b, c, 0, 30)
  {
    Cap16Sweep14Upto3(a, b, c);
    Cap16Sweep14Part4(a, b, c);
    TraceJoin(a, b, c, 0, 24, 30);
  }

  lemma Cap16Sweep14Part5(a: seq<int>, b: seq<int>, c: seq<int>)
    requires a == seq(54, Cap16Table13)[0 := 8] && b == seq(54, Cap16Table14) && c == seq(55, Cap16Carries14)
    ensures TraceOk(a, b, c, 30, 36)
  {
    assert TraceOk(a, b, c, 30, 31);
    assert TraceOk(a, b, c, 30, 32);
    assert TraceOk(a, b, c, 30, 33);
    assert TraceOk(a, b, c, 30, 34);
    assert TraceOk(a, b, c, 30, 35);
  }

  lemma Cap16Sweep14Upto5(a: seq<int>, b: seq<int>, c: seq<int>)
    requires a == seq(54, Cap16Table13)[0 := 8] && b == seq(54, Cap16Table14) && c == seq(55, Cap16Carries14)
    ensures TraceOk(a, b, c, 0, 36)
  {
    Cap16Sweep14Upto4(a, b, c);
    Cap16Sweep14Part5(a, b, c);
    TraceJoin(a, b, c, 0, 30, 36);
  }

  lemma Cap16Sweep14Part6(a: seq<int>, b: seq<int>, c: seq<int>)
    requires a == seq(54, Cap16Table13)[0 := 8] && b == seq(54, Cap16Table14) && c == seq(55, Cap16Carries14)
    ensures TraceOk(a, b, c, 36, 42)
  {
    assert TraceOk(a, b, c, 36, 37);
    assert TraceOk(a, b, c, 36, 38);
    assert TraceOk(a, b, c, 36, 39);
    assert TraceOk(a, b, c, 36, 40);
    assert TraceOk(a, b, c, 36, 41);
  }

  lemma Cap16Sweep14Upto6(a: seq<int>, b: seq<int>, c: seq<int>)
    requires a == seq(54, Cap16Table13)[0 := 8] && b == seq(54, Cap16Table14) && c == seq(55, Cap16Carries14)
    ensures TraceOk(a, b, c, 0, 42)
  {
    Cap16Sweep14Upto5(a, b, c);
    Cap16Sweep14Part6(a, b, c);
    TraceJoin(a, b, c, 0, 36, 42);
  }

  lemma Cap16Sweep14Part7(a: seq<int>, b: seq<int>, c: seq<int>)
    requires a == seq(54, Cap16Table13)[0 := 8] && b == seq(54, Cap16Table14) && c == seq(55, Cap16Carries14)
    ensures TraceOk(a, b, c, 42, 48)
  {
    assert TraceOk(a, b, c, 42, 43);
    assert TraceOk(a, b, c, 42, 44);
    assert TraceOk(a, b, c, 42, 45);
    assert TraceOk(a, b, c, 42, 46);
    assert TraceOk(a, b, c, 42, 47);
  }

  lemma Cap16Sweep14Upto7(a: seq<int>, b: seq<int>, c: seq<int>)
    requires a == seq(54, Cap16Table13)[0 := 8] && b == seq(54, Cap16Table14) && c == seq(55, Cap16Carries14)
    ensures TraceOk(a, b, c, 0, 48)
  {
    Cap16Sweep14Upto6(a, b, c);
    Cap16Sweep14Part7(a, b, c);
    TraceJoin(a, b, c, 0, 42, 48);
  }

  lemma Cap16Sweep14Part8(a: seq<int>, b: seq<int>, c: seq<int>)
    requires a == seq(54, Cap16Table13)[0 := 8] && b == seq(54, Cap16Table14) && c == seq(55, Cap16Carries14)
    ensures TraceOk(a, b, c, 48, 54)
  {
    assert TraceOk(a, b, c, 48, 49);
    assert TraceOk(a, b, c, 48, 50);
    assert TraceOk(a, b, c, 48, 51);
    assert TraceOk(a, b, c, 48, 52);
    assert TraceOk(a, b, c, 48, 53);
  }

  lemma Cap16Sweep14Upto8(a: seq<int>, b: seq<int>, c: seq<int>)
    requires a == seq(54, Cap16Table13)[0 := 8] && b == seq(54, Cap16Table14) && c == seq(55, Cap16Carries14)
    ensures TraceOk(a, b, c, 0, 54)
  {
    Cap16Sweep14Upto7(a, b, c);
    Cap16Sweep14Part8(a, b, c);
    TraceJoin(a, b, c, 0, 48, 54);
  }

  lemma Cap16Sweep14(a: seq<int>, b: seq<int>, c: seq<int>)
    requires a == seq(54, Cap16Table13)[0 := 8] && b == seq(54, Cap16Table14) && c == seq(55, Cap16Carries14)
    ensures Sweep(a, 54, 0) == (b, 92)
  {
    Cap16Sweep14Upto8(a, b, c);
    assert b[54..] == a[54..];
    SweepByTrace(a, b, c, 54);
  }

  lemma Cap16Settle14(s: State, b: seq<int>)
    requires |s.a| == 54 && s.queue == [] && s.nines == 0 && s.predigit == 7 && s.started == true
    requires b == seq(54, Cap16Table14) && SweptTable(s.a) == b[0 := 2] && Carry(s.a) == 9
    ensures Round(s) == State(seq(54, Cap16Table14)[0 := 2], [], 1, 7, true)
  {
    assert s.queue + [] == s.queue;
  }

  lemma Cap16Round14(s: State)
    requires s == State(seq(54, Cap16Table13)[0 := 8], [], 0, 7, true)
    ensures Round(s) == State(seq(54, Cap16Table14)[0 := 2], [], 1, 7, true)
  {
    var b, c := seq(54, Cap16Table14), seq(55, Cap16Carries14);
    Cap16Sweep14(s.a, b, c);
    SweepFacts(s.a, b, 92);
    QuotRemNonneg(92, 10);
    Cap16Settle14(s, b);
  }

  /** The table after the sweep of round 15. */
  function Cap16Table15(i: int): int
  {
    if i < 27 then
      if i < 13 then
        if i < 6 then
          if i < 3 then
            if i < 1 then
              0
            else
              if i < 2 then
                1
              else
                3
          else
            if i < 4 then
              0
            else
              if i < 5 then
                8
              else
                8
        else
          if i < 9 then
            if i < 7 then
              7
            else
              if i < 8 then
                14
              else
                11
          else
            if i < 11 then
              if i < 10 then
                8
              else
                3
            else
              if i < 12 then
                1
              else
                16
      else
        if i < 20 then
          if i < 16 then
            if i < 14 then
              16
            else
              if i < 15 then
                15
              else
                15
          else
            if i < 18 then
              if i < 17 then
                6
              else
                22
            else
              if i < 19 then
                8
              else
                34
        else
          if i < 23 then
            if i < 21 then
              3
            else
              if i < 22 then
                28
              else
                3
          else
            if i < 25 then
              if i < 24 then
                31
              else
                27
            else
              if i < 26 then
                29
              else
                44
    else
      if i < 40 then
        if i < 33 then
          if i < 30 then
            if i < 28 then
              47
            else
              if i < 29 then
                52
              else
                30
          else
            if i < 31 then
              6
            else
              if i < 32 then
                52
              else
                33
        else
          if i < 36 then
            if i < 34 then
              16
            else
              if i < 35 then
                17
              else
                68
          else
            if i < 38 then
              if i < 37 then
                54
              else
                60
            else
              if i < 39 then
                7
              else
                73
      else
        if i < 47 then
          if i < 43 then
            if i < 41 then
              39
            else
              if i < 42 then
                1
              else
                15
          else
            if i < 45 then
              if i < 44 then
                10
              else
                30
            else
              if i < 46 then
                43
              else
                90
        else
          if i < 50 then
            if i < 48 then
              67
            else
              if i < 49 then
                64
              else
                68
          else
            if i < 52 then
              if i < 51 then
                26
              else
                77
            else
              if i < 53 then
                81
              else
                31
  }

  /** The carries of the sweep of round 15, by position. */
  function Cap16Carries15(i: int): int
  {
    if i < 27 then
      if i < 13 then
        if i < 6 then
          if i < 3 then
            if i < 1 then
              31
            else
              if i < 2 then
                11
              else
                7
          else
            if i < 4 then
              6
            else
              if i < 5 then
                8
              else
                4
        else
          if i < 9 then
            if i < 7 then
              7
            else
              if i < 8 then
                14
              else
                13
          else
            if i < 11 then
              if i < 10 then
                8
              else
                10
            else
              if i < 12 then
                13
              else
                10
      else
        if i < 20 then
          if i < 16 then
            if i < 14 then
              12
            else
              if i < 15 then
                10
              else
                13
          else
            if i < 18 then
              if i < 17 then
                8
              else
                10
            else
              if i < 19 then
                14
              else
                14
        else
          if i < 23 then
            if i < 21 then
              11
            else
              if i < 22 then
                14
              else
                10
          else
            if i < 25 then
              if i < 24 then
                11
              else
                12
            else
              if i < 26 then
                7
              else
                11
    else
      if i < 41 then
        if i < 34 then
          if i < 30 then
            if i < 28 then
              11
            else
              if i < 29 then
                14
              else
                10
          else
            if i < 32 then
              if i < 31 then
                14
              else
                10
            else
              if i < 33 then
                11
              else
                6
        else
          if i < 37 then
            if i < 35 then
              7
            else
              if i < 36 then
                8
              else
                6
          else
            if i < 39 then
              if i < 38 then
                6
              else
                10
            else
              if i < 40 then
                13
              else
                16
      else
        if i < 48 then
          if i < 44 then
            if i < 42 then
              15
            else
              if i < 43 then
                13
              else
                10
          else
            if i < 46 then
              if i < 45 then
                15
              else
                11
            else
              if i < 47 then
                9
              else
                11
        else
          if i < 51 then
            if i < 49 then
              4
            else
              if i < 50 then
                8
              else
                11
          else
            if i < 53 then
              if i < 52 then
                7
              else
                4
            else
              if i < 54 then
                7
              else
                0
  }

  lemma Cap16Sweep15Part0(a: seq<int>, b: seq<int>, c: seq<int>)
    requires a == seq(54, Cap16Table14)[0 := 2] && b == seq(54, Cap16Table15) && c == seq(55, Cap16Carries15)
    ensures TraceOk(a, b, c, 0, 6)
  {
    assert TraceOk(a, b, c, 0, 1);
    assert TraceOk(a, b, c, 0, 2);
    assert TraceOk(a, b, c, 0, 3);
    assert TraceOk(a, b, c, 0, 4);
    assert TraceOk(a, b, c, 0, 5);
  }

  lemma Cap16Sweep15Part1(a: seq<int>, b: seq<int>, c: seq<int>)
    requires a == seq(54, Cap16Table14)[0 := 2] && b == seq(54, Cap16Table15) && c == seq(55, Cap16Carries15)
    ensures TraceOk(a, b, c, 6, 12)
  {
    assert TraceOk(a, b, c, 6, 7);
    assert TraceOk(a, b, c, 6, 8);
    assert TraceOk(a, b, c, 6, 9);
    assert TraceOk(a, b, c, 6, 10);
    assert TraceOk(a, b, c, 6, 11);
  }

  lemma Cap16Sweep15Upto1(a: seq<int>, b: seq<int>, c: seq<int>)
    requires a == seq(54, Cap16Table14)[0 := 2] && b == seq(54, Cap16Table15) && c == seq(55, Cap16Carries15)
    ensures TraceOk(a, b, c, 0, 12)
  {
    Cap16Sweep15Part0(a, b, c);
    Cap16Sweep15Part1(a, b, c);
    TraceJoin(a, b, c, 0, 6, 12);
  }

  lemma Cap16Sweep15Part2(a: seq<int>, b: seq<int>, c: seq<int>)
    requires a == seq(54, Cap16Table14)[0 := 2] && b == seq(54, Cap16Table15) && c == seq(55, Cap16Carries15)
    ensures TraceOk(a, b, c, 12, 18)
  {
    assert TraceOk(a, b, c, 12, 13);
    assert TraceOk(a, b, c, 12, 14);
    assert TraceOk(a, b, c, 12, 15);
    assert TraceOk(a, b, c, 12, 16);
    assert TraceOk(a, b, c, 12, 17);
  }

  lemma Cap16Sweep15Upto2(a: seq<int>, b: seq<int>, c: seq<int>)
    requires a == seq(54, Cap16Table14)[0 := 2] && b == seq(54, Cap16Table15) && c == seq(55, Cap16Carries15)
    ensures TraceOk(a, b, c, 0, 18)
  {
    Cap16Sweep15Upto1(a, b, c);
    Cap16Sweep15Part2(a, b, c);
    TraceJoin(a, b, c, 0, 12, 18);
  }

  lemma Cap16Sweep15Part3(a: seq<int>, b: seq<int>, c: seq<int>)
    requires a == seq(54, Cap16Table14)[0 := 2] && b == seq(54, Cap16Table15) && c == seq(55, Cap16Carries15)
    ensures TraceOk(a, b, c, 18, 24)
  {
    assert TraceOk(a, b, c, 18, 19);
    assert TraceOk(a, b, c, 18, 20);
    assert TraceOk(a, b, c, 18, 21);
    assert TraceOk(a, b, c, 18, 22);
    assert TraceOk(a, b, c, 18, 23);
  }

  lemma Cap16Sweep15Upto3(a: seq<int>, b: seq<int>, c: seq<int>)
    requires a == seq(54, Cap16Table14)[0 := 2] && b == seq(54, Cap16Table15) && c == seq(55, Cap16Carries15)
    ensures TraceOk(a, b, c, 0, 24)
  {
    Cap16Sweep15Upto2(a, b, c);
    Cap16Sweep15Part3(a, b, c);
    TraceJoin(a, b, c, 0, 18, 24);
  }

  lemma Cap16Sweep15Part4(a: seq<int>, b: seq<int>, c: seq<int>)
    requires a == seq(54, Cap16Table14)[0 := 2] && b == seq(54, Cap16Table15) && c == seq(55, Cap16Carries15)
    ensures TraceOk(a, b, c, 24, 30)
  {
    assert TraceOk(a, b, c, 24, 25);
    assert TraceOk(a, b, c, 24, 26);
    assert TraceOk(a, b, c, 24, 27);
    assert TraceOk(a, b, c, 24, 28);
    assert TraceOk(a, b, c, 24, 29);
  }

  lemma Cap16Sweep15Upto4(a: seq<int>, b: seq<int>, c: seq<int>)
    requires a == seq(54, Cap16Table14)[0 := 2] && b == seq(54, Cap16Table15) && c == seq(55, Cap16Carries15)
    ensures TraceOk(a, b, c, 0, 30)
  {
    Cap16Sweep15Upto3(a, b, c);
    Cap16Sweep15Part4(a, b, c);
    TraceJoin(a, b, c, 0, 24, 30);
  }

  lemma Cap16Sweep15Part5(a: seq<int>, b: seq<int>, c: seq<int>)
    requires a == seq(54, Cap16Table14)[0 := 2] && b == seq(54, Cap16Table15) && c == seq(55, Cap16Carries15)
    ensures TraceOk(a, b, c, 30, 36)
  {
    assert TraceOk(a, b, c, 30, 31);
    assert TraceOk(a, b, c, 30, 32);
    assert TraceOk(a, b, c, 30, 33);
    assert TraceOk(a, b, c, 30, 34);
    assert TraceOk(a, b, c, 30, 35);
  }

  lemma Cap16Sweep15Upto5(a: seq<int>, b: seq<int>, c: seq<int>)
    requires a == seq(54, Cap16Table14)[0 := 2] && b == seq(54, Cap16Table15) && c == seq(55, Cap16Carries15)
    ensures TraceOk(a, b, c, 0, 36)
  {
    Cap16Sweep15Upto4(a, b, c);
    Cap16Sweep15Part5(a, b, c);
    TraceJoin(a, b, c, 0, 30, 36);
  }

  lemma Cap16Sweep15Part6(a: seq<int>, b: seq<int>, c: seq<int>)
    requires a == seq(54, Cap16Table14)[0 := 2] && b == seq(54, Cap16Table15) && c == seq(55, Cap16Carries15)
    ensures TraceOk(a, b, c, 36, 42)
  {
    assert TraceOk(a, b, c, 36, 37);
    assert TraceOk(a, b, c, 36, 38);
    assert TraceOk(a, b, c, 36, 39);
    assert TraceOk(a, b, c, 36, 40);
    assert TraceOk(a, b, c, 36, 41);
  }

  lemma Cap16Sweep15Upto6(a: seq<int>, b: seq<int>, c: seq<int>)
    requires a == seq(54, Cap16Table14)[0 := 2] && b == seq(54, Cap16Table15) && c == seq(55, Cap16Carries15)
    ensures TraceOk(a, b, c, 0, 42)
  {
    Cap16Sweep15Upto5(a, b, c);
    Cap16Sweep15Part6(a, b, c);
    TraceJoin(a, b, c, 0, 36, 42);
  }

  lemma Cap16Sweep15Part7(a: seq<int>, b: seq<int>, c: seq<int>)
    requires a == seq(54, Cap16Table14)[0 := 2] && b == seq(54, Cap16Table15) && c == seq(55, Cap16Carries15)
    ensures TraceOk(a, b, c, 42, 48)
  {
    assert TraceOk(a, b, c, 42, 43);
    assert TraceOk(a, b, c, 42, 44);
    assert TraceOk(a, b, c, 42, 45);
    assert TraceOk(a, b, c, 42, 46);
    assert TraceOk(a, b, c, 42, 47);
  }

  lemma Cap16Sweep15Upto7(a: seq<int>, b: seq<int>, c: seq<int>)
    requires a == seq(54, Cap16Table14)[0 := 2] && b == seq(54, Cap16Table15) && c == seq(55, Cap16Carries15)
    ensures TraceOk(a, b, c, 0, 48)
  {
    Cap16Sweep15Upto6(a, b, c);
    Cap16Sweep15Part7(a, b, c);
    TraceJoin(a, b, c, 0, 42, 48);
  }

  lemma Cap16Sweep15Part8(a: seq<int>, b: seq<int>, c: seq<int>)
    requires a == seq(54, Cap16Table14)[0 := 2] && b == seq(54, Cap16Table15) && c == seq(55, Cap16Carries15)
    ensures TraceOk(a, b, c, 48, 54)
  {
    assert TraceOk(a, b, c, 48, 49);
    assert TraceOk(a, b, c, 48, 50);
    assert TraceOk(a, b, c, 48, 51);
    assert TraceOk(a, b, c, 48, 52);
    assert TraceOk(a, b, c, 48, 53);
  }

  lemma Cap16Sweep15Upto8(a: seq<int>, b: seq<int>, c: seq<int>)
    requires a == seq(54, Cap16Table14)[0 := 2] && b == seq(54, Cap16Table15) && c == seq(55, Cap16Carries15)
    ensures TraceOk(a, b, c, 0, 54)
  {
    Cap16Sweep15Upto7(a, b, c);
    Cap16Sweep15Part8(a, b, c);
    TraceJoin(a, b, c, 0, 48, 54);
  }

  lemma Cap16Sweep15(a: seq<int>, b: seq<int>, c: seq<int>)
    requires a == seq(54, Cap16Table14)[0 := 2] && b == seq(54, Cap16Table15) && c == seq(55, Cap16Carries15)
    ensures Sweep(a, 54, 0) == (b, 31)
  {
    Cap16Sweep15Upto8(a, b, c);
    assert b[54..] == a[54..];
    SweepByTrace(a, b, c, 54);
  }

  lemma Cap16Settle15(s: State, b: seq<int>)
    requires |s.a| == 54 && s.queue == [] && s.nines == 1 && s.predigit == 7 && s.started == true
    requires b == seq(54, Cap16Table15) && SweptTable(s.a) == b[0 := 1] && Carry(s.a) == 3
    ensures Round(s) == State(seq(54, Cap16Table15)[0 := 1], [7, 9], 0, 3, true)
  {
    SettleRelease(7, 3);
    assert [] + [7, 9] == [7, 9];
  }

  lemma Cap16Round15(s: State)
    requires s == State(seq(54, Cap16Table14)[0 := 2], [], 1, 7, true)
    ensures Round(s) == State(seq(54, Cap16Table15)[0 := 1], [7, 9], 0, 3, true)
  {
    var b, c := seq(54, Cap16Table15), seq(55, Cap16Carries15);
    Cap16Sweep15(s.a, b, c);
    SweepFacts(s.a, b, 31);
    QuotRemNonneg(31, 10);
    Cap16Settle15(s, b);
  }

  lemma Cap16Next13(s: State)
    requires s == State(seq(54, Cap16Table13)[0 := 8], [], 0, 7, true)
    ensures Next(s, 1) == Some((7, State(seq(54, Cap16Table15)[0 := 1], [9], 0, 3, true)))
  {
    var t := s;
    Cap16Round14(t);
    t := Suppress(Round(t));
    Cap16Round15(t);
  }

  lemma Cap16Next14(s: State)
    requires s == State(seq(54, Cap16Table15)[0 := 1], [9], 0, 3, true)
    ensures Next(s, 1) == Some((9, State(seq(54, Cap16Table15)[0 := 1], [], 0, 3, true)))
  {
    assert s.queue[1..] == [];
  }

  /** The table after the sweep of round 16. */
  function Cap16Table16(i: int): int
  {
    if i < 27 then
      if i < 13 then
        if i < 6 then
          if i < 3 then
            if i < 1 then
              0
            else
              if i < 2 then
                2
              else
                2
          else
            if i < 4 then
              1
            else
              if i < 5 then
                1
              else
                9
        else
          if i < 9 then
            if i < 7 then
              12
            else
              if i < 8 then
                2
              else
                11
          else
            if i < 11 then
              if i < 10 then
                6
              else
                12
            else
              if i < 12 then
                4
              else
                15
      else
        if i < 20 then
          if i < 16 then
            if i < 14 then
              2
            else
              if i < 15 then
                23
              else
                29
          else
            if i < 18 then
              if i < 17 then
                15
              else
                31
            else
              if i < 19 then
                30
              else
                11
        else
          if i < 23 then
            if i < 21 then
              14
            else
              if i < 22 then
                25
              else
                36
          else
            if i < 25 then
              if i < 24 then
                34
              else
                7
            else
              if i < 26 then
                17
              else
                50
    else
      if i < 40 then
        if i < 33 then
          if i < 30 then
            if i < 28 then
              9
            else
              if i < 29 then
                11
              else
                38
          else
            if i < 31 then
              5
            else
              if i < 32 then
                20
              else
                41
        else
          if i < 36 then
            if i < 34 then
              31
            else
              if i < 35 then
                5
              else
                47
          else
            if i < 38 then
              if i < 37 then
                71
              else
                3
            else
              if i < 39 then
                37
              else
                61
      else
        if i < 47 then
          if i < 43 then
            if i < 41 then
              67
            else
              if i < 42 then
                12
              else
                25
          else
            if i < 45 then
              if i < 44 then
                61
              else
                39
            else
              if i < 46 then
                28
              else
                69
        else
          if i < 50 then
            if i < 48 then
              58
            else
              if i < 49 then
                63
              else
                90
          else
            if i < 52 then
              if i < 51 then
                13
              else
                53
            else
              if i < 53 then
                76
              else
                96
  }

  /** The carries of the sweep of round 16, by position. */
  function Cap16Carries16(i: int): int
  {
    if i < 27 then
      if i < 13 then
        if i < 6 then
          if i < 3 then
            if i < 1 then
              20
            else
              if i < 2 then
                10
              else
                11
          else
            if i < 4 then
              9
            else
              if i < 5 then
                16
              else
                13
        else
          if i < 9 then
            if i < 7 then
              12
            else
              if i < 8 then
                14
              else
                9
          else
            if i < 11 then
              if i < 10 then
                6
              else
                4
            else
              if i < 12 then
                6
              else
                11
      else
        if i < 20 then
          if i < 16 then
            if i < 14 then
              10
            else
              if i < 15 then
                8
              else
                7
          else
            if i < 18 then
              if i < 17 then
                6
              else
                9
            else
              if i < 19 then
                7
              else
                11
        else
          if i < 23 then
            if i < 21 then
              5
            else
              if i < 22 then
                9
              else
                6
          else
            if i < 25 then
              if i < 24 then
                12
              else
                12
            else
              if i < 26 then
                13
              else
                15
    else
      if i < 41 then
        if i < 34 then
          if i < 30 then
            if i < 28 then
              15
            else
              if i < 29 then
                13
              else
                8
          else
            if i < 32 then
              if i < 31 then
                7
              else
                12
            else
              if i < 33 then
                8
              else
                7
        else
          if i < 37 then
            if i < 35 then
              10
            else
              if i < 36 then
                15
              else
                12
          else
            if i < 39 then
              if i < 38 then
                11
              else
                6
            else
              if i < 40 then
                11
              else
                5
      else
        if i < 48 then
          if i < 44 then
            if i < 42 then
              2
            else
              if i < 43 then
                4
              else
                5
          else
            if i < 46 then
              if i < 45 then
                9
              else
                12
            else
              if i < 47 then
                15
              else
                12
        else
          if i < 51 then
            if i < 49 then
              11
            else
              if i < 50 then
                10
              else
                8
          else
            if i < 53 then
              if i < 52 then
                11
              else
                8
            else
              if i < 54 then
                2
              else
                0
  }

  lemma Cap16Sweep16Part0(a: seq<int>, b: seq<int>, c: seq<int>)
    requires a == seq(54, Cap16Table15)[0 := 1] && b == seq(54, Cap16Table16) && c == seq(55, Cap16Carries16)
    ensures TraceOk(a, b, c, 0, 6)
  {
    assert TraceOk(a, b, c, 0, 1);
    assert TraceOk(a, b, c, 0, 2);
    assert TraceOk(a, b, c, 0, 3);
    assert TraceOk(a, b, c, 0, 4);
    assert TraceOk(a, b, c, 0, 5);
  }

  lemma Cap16Sweep16Part1(a: seq<int>, b: seq<int>, c: seq<int>)
    requires a == seq(54, Cap16Table15)[0 := 1] && b == seq(54, Cap16Table16) && c == seq(55, Cap16Carries16)
    ensures TraceOk(a, b, c, 6, 12)
  {
    assert TraceOk(a, b, c, 6, 7);
    assert TraceOk(a, b, c, 6, 8);
    assert TraceOk(a, b, c, 6, 9);
    assert TraceOk(a, b, c, 6, 10);
    assert TraceOk(a, b, c, 6, 11);
  }

  lemma Cap16Sweep16Upto1(a: seq<int>, b: seq<int>, c: seq<int>)
    requires a == seq(54, Cap16Table15)[0 := 1] && b == seq(54, Cap16Table16) && c == seq(55, Cap16Carries16)
    ensures TraceOk(a, b, c, 0, 12)
  {
    Cap16Sweep16Part0(a, b, c);
    Cap16Sweep16Part1(a, b, c);
    TraceJoin(a, b, c, 0, 6, 12);
  }

  lemma Cap16Sweep16Part2(a: seq<int>, b: seq<int>, c: seq<int>)
    requires a == seq(54, Cap16Table15)[0 := 1] && b == seq(54, Cap16Table16) && c == seq(55, Cap16Carries16)
    ensures TraceOk(a, b, c, 12, 18)
  {
    assert TraceOk(a, b, c, 12, 13);
    assert TraceOk(a, b, c, 12, 14);
    assert TraceOk(a, b, c, 12, 15);
    assert TraceOk(a, b, c, 12, 16);
    assert TraceOk(a, b, c, 12, 17);
  }

  lemma Cap16Sweep16Upto2(a: seq<int>, b: seq<int>, c: seq<int>)
    requires a == seq(54, Cap16Table15)[0 := 1] && b == seq(54, Cap16Table16) && c == seq(55, Cap16Carries16)
    ensures TraceOk(a, b, c, 0, 18)
  {
    Cap16Sweep16Upto1(a, b, c);
    Cap16Sweep16Part2(a, b, c);
    TraceJoin(a, b, c, 0, 12, 18);
  }

  lemma Cap16Sweep16Part3(a: seq<int>, b: seq<int>, c: seq<int>)
    requires a == seq(54, Cap16Table15)[0 := 1] && b == seq(54, Cap16Table16) && c == seq(55, Cap16Carries16)
    ensures TraceOk(a, b, c, 18, 24)
  {
    assert TraceOk(a, b, c, 18, 19);
    assert TraceOk(a, b, c, 18, 20);
    assert TraceOk(a, b, c, 18, 21);
    assert TraceOk(a, b, c, 18, 22);
    assert TraceOk(a, b, c, 18, 23);
  }

  lemma Cap16Sweep16Upto3(a: seq<int>, b: seq<int>, c: seq<int>)
    requires a == seq(54, Cap16Table15)[0 := 1] && b == seq(54, Cap16Table16) && c == seq(55, Cap16Carries16)
    ensures TraceOk(a, b, c, 0, 24)
  {
    Cap16Sweep16Upto2(a, b, c);
    Cap16Sweep16Part3(a, b, c);
    TraceJoin(a, b, c, 0, 18, 24);
  }

  lemma Cap16Sweep16Part4(a: seq<int>, b: seq<int>, c: seq<int>)
    requires a == seq(54, Cap16Table15)[0 := 1] && b == seq(54, Cap16Table16) && c == seq(55, Cap16Carries16)
    ensures TraceOk(a, b, c, 24, 30)
  {
    assert TraceOk(a, b, c, 24, 25);
    assert TraceOk(a, b, c, 24, 26);
    assert TraceOk(a, b, c, 24, 27);
    assert TraceOk(a, b, c, 24, 28);
    assert TraceOk(a, b, c, 24, 29);
  }

  lemma Cap16Sweep16Upto4(a: seq<int>, b: seq<int>, c: seq<int>)
    requires a == seq(54, Cap16Table15)[0 := 1] && b == seq(54, Cap16Table16) && c == seq(55, Cap16Carries16)
    ensures TraceOk(a, b, c, 0, 30)
  {
    Cap16Sweep16Upto3(a, b, c);
    Cap16Sweep16Part4(a, b, c);
    TraceJoin(a, b, c, 0, 24, 30);
  }

  lemma Cap16Sweep16Part5(a: seq<int>, b: seq<int>, c: seq<int>)
    requires a == seq(54, Cap16Table15)[0 := 1] && b == seq(54, Cap16Table16) && c == seq(55, Cap16Carries16)
    ensures TraceOk(a, b, c, 30, 36)
  {
    assert TraceOk(a, b, c, 30, 31);
    assert TraceOk(a, b, c, 30, 32);
    assert TraceOk(a, b, c, 30, 33);
    assert TraceOk(a, b, c, 30, 34);
    assert TraceOk(a, b, c, 30, 35);
  }

  lemma Cap16Sweep16Upto5(a: seq<int>, b: seq<int>, c: seq<int>)
    requires a == seq(54, Cap16Table15)[0 := 1] && b == seq(54, Cap16Table16) && c == seq(55, Cap16Carries16)
    ensures TraceOk(a, b, c, 0, 36)
  {
    Cap16Sweep16Upto4(a, b, c);
    Cap16Sweep16Part5(a, b, c);
    TraceJoin(a, b, c, 0, 30, 36);
  }

  lemma Cap16Sweep16Part6(a: seq<int>, b: seq<int>, c: seq<int>)
    requires a == seq(54, Cap16Table15)[0 := 1] && b == seq(54, Cap16Table16) && c == seq(55, Cap16Carries16)
    ensures TraceOk(a, b, c, 36, 42)
  {
    assert TraceOk(a, b, c, 36, 37);
    assert TraceOk(a, b, c, 36, 38);
    assert TraceOk(a, b, c, 36, 39);
    assert TraceOk(a, b, c, 36, 40);
    assert TraceOk(a, b, c, 36, 41);
  }

  lemma Cap16Sweep16Upto6(a: seq<int>, b: seq<int>, c: seq<int>)
    requires a == seq(54, Cap16Table15)[0 := 1] && b == seq(54, Cap16Table16) && c == seq(55, Cap16Carries16)
    ensures TraceOk(a, b, c, 0, 42)
  {
    Cap16Sweep16Upto5(a, b, c);
    Cap16Sweep16Part6(a, b, c);
    TraceJoin(a, b, c, 0, 36, 42);
  }

  lemma Cap16Sweep16Part7(a: seq<int>, b: seq<int>, c: seq<int>)
    requires a == seq(54, Cap16Table15)[0 := 1] && b == seq(54, Cap16Table16) && c == seq(55, Cap16Carries16)
    ensures TraceOk(a, b, c, 42, 48)
  {
    assert TraceOk(a, b, c, 42, 43);
    assert TraceOk(a, b, c, 42, 44);
    assert TraceOk(a, b, c, 42, 45);
    assert TraceOk(a, b, c, 42, 46);
    assert TraceOk(a, b, c, 42, 47);
  }

  lemma Cap16Sweep16Upto7(a: seq<int>, b: seq<int>, c: seq<int>)
    requires a == seq(54, Cap16Table15)[0 := 1] && b == seq(54, Cap16Table16) && c == seq(55, Cap16Carries16)
    ensures TraceOk(a, b, c, 0, 48)
  {
    Cap16Sweep16Upto6(a, b, c);
    Cap16Sweep16Part7(a, b, c);
    TraceJoin(a, b, c, 0, 42, 48);
  }

  lemma Cap16Sweep16Part8(a: seq<int>, b: seq<int>, c: seq<int>)
    requires a == seq(54, Cap16Table15)[0 := 1] && b == seq(54, Cap16Table16) && c == seq(55, Cap16Carries16)
    ensures TraceOk(a, b, c, 48, 54)
  {
    assert TraceOk(a, b, c, 48, 49);
    assert TraceOk(a, b, c, 48, 50);
    assert TraceOk(a, b, c, 48, 51);
    assert TraceOk(a, b, c, 48, 52);
    assert TraceOk(a, b, c, 48, 53);
  }

  lemma Cap16Sweep16Upto8(a: seq<int>, b: seq<int>, c: seq<int>)
    requires a == seq(54, Cap16Table15)[0 := 1] && b == seq(54, Cap16Table16) && c == seq(55, Cap16Carries16)
    ensures TraceOk(a, b, c, 0, 54)
  {
    Cap16Sweep16Upto7(a, b, c);
    Cap16Sweep16Part8(a, b, c);
    TraceJoin(a, b, c, 0, 48, 54);
  }

  lemma Cap16Sweep16(a: seq<int>, b: seq<int>, c: seq<int>)
    requires a == seq(54, Cap16Table15)[0 := 1] && b == seq(54, Cap16Table16) && c == seq(55, Cap16Carries16)
    ensures Sweep(a, 54, 0) == (b, 20)
  {
    Cap16Sweep16Upto8(a, b, c);
    assert b[54..] == a[54..];
    SweepByTrace(a, b, c, 54);
  }

  lemma Cap16Settle16(s: State, b: seq<int>)
    requires |s.a| == 54 && s.queue == [] && s.nines == 0 && s.predigit == 3 && s.started == true
    requires b == seq(54, Cap16Table16) && SweptTable(s.a) == b[0 := 0] && Carry(s.a) == 2
    ensures Round(s) == State(seq(54, Cap16Table16)[0 := 0], [3], 0, 2, true)
  {
    SettleHold(3, 2);
    assert [] + [3] == [3];
  }

  lemma Cap16Round16(s: State)
    requires s == State(seq(54, Cap16Table15)[0 := 1], [], 0, 3, true)
    ensures Round(s) == State(seq(54, Cap16Table16)[0 := 0], [3], 0, 2, true)
  {
    var b, c := seq(54, Cap16Table16), seq(55, Cap16Carries16);
    Cap16Sweep16(s.a, b, c);
    SweepFacts(s.a, b, 20);
    QuotRemNonneg(20, 10);
    Cap16Settle16(s, b);
  }

  lemma Cap16Next15(s: State)
    requires s == State(seq(54, Cap16Table15)[0 := 1], [], 0, 3, true)
    ensures Next(s, 1) == Some((3, State(seq(54, Cap16Table16)[0 := 0], [], 0, 2, true)))
  {
    var t := s;
    Cap16Round16(t);
  }

  lemma Cap16Take1(s: State, t: State, ds: seq<int>)
    requires |s.a| >= 1 && Take(s, 0, 1) == Some((ds, t))
    requires t == State(seq(54, Two), [], 0, 0, false)
    ensures Take(s, 1, 1) == Some((ds + [3], State(seq(54, Cap16Table1)[0 := 3], [], 0, 1, true)))
  {
    Cap16Next0(t);
    TakeOneMore(s, 0, 1, ds, t, 3, Next(t, 1).value.1);
  }

  lemma Cap16Take2(s: State, t: State, ds: seq<int>)
    requires |s.a| >= 1 && Take(s, 1, 1) == Some((ds, t))
    requires t == State(seq(54, Cap16Table1)[0 := 3], [], 0, 1, true)
    ensures Take(s, 2, 1) == Some((ds + [1], State(seq(54, Cap16Table2)[0 := 1], [], 0, 4, true)))
  {
    Cap16Next1(t);
    TakeOneMore(s, 1, 1, ds, t, 1, Next(t, 1).value.1);
  }

  lemma Cap16Take3(s: State, t: State, ds: seq<int>)
    requires |s.a| >= 1 && Take(s, 2, 1) == Some((ds, t))
    requires t == State(seq(54, Cap16Table2)[0 := 1], [], 0, 4, true)
    ensures Take(s, 3, 1) == Some((ds + [4], State(seq(54, Cap16Table3)[0 := 5], [], 0, 1, true)))
  {
    Cap16Next2(t);
    TakeOneMore(s, 2, 1, ds, t, 4, Next(t, 1).value.1);
  }

  lemma Cap16Take4(s: State, t: State, ds: seq<int>)
    requires |s.a| >= 1 && Take(s, 3, 1) == Some((ds, t))
    requires t == State(seq(54, Cap16Table3)[0 := 5], [], 0, 1, true)
    ensures Take(s, 4, 1) == Some((ds + [1], State(seq(54, Cap16Table4)[0 := 8], [], 0, 5, true)))
  {
    Cap16Next3(t);
    TakeOneMore(s, 3, 1, ds, t, 1, Next(t, 1).value.1);
  }

  lemma Cap16Take5(s: State, t: State, ds: seq<int>)
    requires |s.a| >= 1 && Take(s, 4, 1) == Some((ds, t))
    requires t == State(seq(54, Cap16Table4)[0 := 8], [], 0, 5, true)
    ensures Take(s, 5, 1) == Some((ds + [5], State(seq(54, Cap16Table6)[0 := 6], [9], 0, 2, true)))
  {
    Cap16Next4(t);
    TakeOneMore(s, 4, 1, ds, t, 5, Next(t, 1).value.1);
  }

  lemma Cap16Take6(s: State, t: State, ds: seq<int>)
    requires |s.a| >= 1 && Take(s, 5, 1) == Some((ds, t))
    requires t == State(seq(54, Cap16Table6)[0 := 6], [9], 0, 2, true)
    ensures Take(s, 6, 1) == Some((ds + [9], State(seq(54, Cap16Table6)[0 := 6], [], 0, 2, true)))
  {
    Cap16Next5(t);
    TakeOneMore(s, 5, 1, ds, t, 9, Next(t, 1).value.1);
  }

  lemma Cap16Take7(s: State, t: State, ds: seq<int>)
    requires |s.a| >= 1 && Take(s, 6, 1) == Some((ds, t))
    requires t == State(seq(54, Cap16Table6)[0 := 6], [], 0, 2, true)
    ensures Take(s, 7, 1) == Some((ds + [2], State(seq(54, Cap16Table7)[0 := 4], [], 0, 6, true)))
  {
    Cap16Next6(t);
    TakeOneMore(s, 6, 1, ds, t, 2, Next(t, 1).value.1);
  }

  lemma Cap16Take8(s: State, t: State, ds: seq<int>)
    requires |s.a| >= 1 && Take(s, 7, 1) == Some((ds, t))
    requires t == State(seq(54, Cap16Table7)[0 := 4], [], 0, 6, true)
    ensures Take(s, 8, 1) == Some((ds + [6], State(seq(54, Cap16Table8)[0 := 3], [], 0, 5, true)))
  {
    Cap16Next7(t);
    TakeOneMore(s, 7, 1, ds, t, 6, Next(t, 1).value.1);
  }

  lemma Cap16Take9(s: State, t: State, ds: seq<int>)
    requires |s.a| >= 1 && Take(s, 8, 1) == Some((ds, t))
    requires t == State(seq(54, Cap16Table8)[0 := 3], [], 0, 5, true)
    ensures Take(s, 9, 1) == Some((ds + [5], State(seq(54, Cap16Table9)[0 := 5], [], 0, 3, true)))
  {
    Cap16Next8(t);
    TakeOneMore(s, 8, 1, ds, t, 5, Next(t, 1).value.1);
  }

  lemma Cap16Take10(s: State, t: State, ds: seq<int>)
    requires |s.a| >= 1 && Take(s, 9, 1) == Some((ds, t))
    requires t == State(seq(54, Cap16Table9)[0 := 5], [], 0, 3, true)
    ensures Take(s, 10, 1) == Some((ds + [3], State(seq(54, Cap16Table10)[0 := 8], [], 0, 5, true)))
  {
    Cap16Next9(t);
    TakeOneMore(s, 9, 1, ds, t, 3, Next(t, 1).value.1);
  }

  lemma Cap16Take11(s: State, t: State, ds: seq<int>)
    requires |s.a| >= 1 && Take(s, 10, 1) == Some((ds, t))
    requires t == State(seq(54, Cap16Table10)[0 := 8], [], 0, 5, true)
    ensures Take(s, 11, 1) == Some((ds + [5], State(seq(54, Cap16Table11)[0 := 9], [], 0, 8, true)))
  {
    Cap16Next10(t);
    TakeOneMore(s, 10, 1, ds, t, 5, Next(t, 1).value.1);
  }

  lemma Cap16Take12(s: State, t: State, ds: seq<int>)
    requires |s.a| >= 1 && Take(s, 11, 1) == Some((ds, t))
    requires t == State(seq(54, Cap16Table11)[0 := 9], [], 0, 8, true)
    ensures Take(s, 12, 1) == Some((ds + [8], State(seq(54, Cap16Table13)[0 := 8], [9], 0, 7, true)))
  {
    Cap16Next11(t);
    TakeOneMore(s, 11, 1, ds, t, 8, Next(t, 1).value.1);
  }

  lemma Cap16Take13(s: State, t: State, ds: seq<int>)
    requires |s.a| >= 1 && Take(s, 12, 1) == Some((ds, t))
    requires t == State(seq(54, Cap16Table13)[0 := 8], [9], 0, 7, true)
    ensures Take(s, 13, 1) == Some((ds + [9], State(seq(54, Cap16Table13)[0 := 8], [], 0, 7, true)))
  {
    Cap16Next12(t);
    TakeOneMore(s, 12, 1, ds, t, 9, Next(t, 1).value.1);
  }

  lemma Cap16Take14(s: State, t: State, ds: seq<int>)
    requires |s.a| >= 1 && Take(s, 13, 1) == Some((ds, t))
    requires t == State(seq(54, Cap16Table13)[0 := 8], [], 0, 7, true)
    ensures Take(s, 14, 1) == Some((ds + [7], State(seq(54, Cap16Table15)[0 := 1], [9], 0, 3, true)))
  {
    Cap16Next13(t);
    TakeOneMore(s, 13, 1, ds, t, 7, Next(t, 1).value.1);
  }

  lemma Cap16Take15(s: State, t: State, ds: seq<int>)
    requires |s.a| >= 1 && Take(s, 14, 1) == Some((ds, t))
    requires t == State(seq(54, Cap16Table15)[0 := 1], [9], 0, 3, true)
    ensures Take(s, 15, 1) == Some((ds + [9], State(seq(54, Cap16Table15)[0 := 1], [], 0, 3, true)))
  {
    Cap16Next14(t);
    TakeOneMore(s, 14, 1, ds, t, 9, Next(t, 1).value.1);
  }

  lemma Cap16Take16(s: State, t: State, ds: seq<int>)
    requires |s.a| >= 1 && Take(s, 15, 1) == Some((ds, t))
    requires t == State(seq(54, Cap16Table15)[0 := 1], [], 0, 3, true)
    ensures Take(s, 16, 1) == Some((ds + [3], State(seq(54, Cap16Table16)[0 := 0], [], 0, 2, true)))
  {
    Cap16Next15(t);
    TakeOneMore(s, 15, 1, ds, t, 3, Next(t, 1).value.1);
  }

  lemma Cap16DigitsList()
    ensures [] + [3] + [1] + [4] + [1] + [5] + [9] + [2] + [6] + [5] + [3] + [5] + [8] + [9] + [7] + [9] + [3] == [3, 1, 4, 1, 5, 9, 2, 6, 5, 3, 5, 8, 9, 7, 9, 3]
  {
  }

  /** Capacity 16 (a 54-entry table) yields 3, 1, 4, 1, 5, 9, 2, 6, 5, 3, 5, 8, 9, 7, 9, 3,
      the first sixteen digits of pi: the leading zero the first round decides is
      suppressed, and the deferred nines after 5, 8 and 7 are released in order. */
  lemma Cap16Digits(s: State)
    requires s == Fresh(16)
    ensures Take(s, 16, 1).Some?
    ensures Take(s, 16, 1).value.0 == [3, 1, 4, 1, 5, 9, 2, 6, 5, 3, 5, 8, 9, 7, 9, 3]
  {
    FreshTwos(s, 16);
    assert Take(s, 0, 1) == Some(([], s));
    var ds: seq<int> := [];
    Cap16Take1(s, s, ds);
    ds := ds + [3];
    Cap16Take2(s, State(seq(54, Cap16Table1)[0 := 3], [], 0, 1, true), ds);
    ds := ds + [1];
    Cap16Take3(s, State(seq(54, Cap16Table2)[0 := 1], [], 0, 4, true), ds);
    ds := ds + [4];
    Cap16Take4(s, State(seq(54, Cap16Table3)[0 := 5], [], 0, 1, true), ds);
    ds := ds + [1];
    Cap16Take5(s, State(seq(54, Cap16Table4)[0 := 8], [], 0, 5, true), ds);
    ds := ds + [5];
    Cap16Take6(s, State(seq(54, Cap16Table6)[0 := 6], [9], 0, 2, true), ds);
    ds := ds + [9];
    Cap16Take7(s, State(seq(54, Cap16Table6)[0 := 6], [], 0, 2, true), ds);
    ds := ds + [2];
    Cap16Take8(s, State(seq(54, Cap16Table7)[0 := 4], [], 0, 6, true), ds);
    ds := ds + [6];
    Cap16Take9(s, State(seq(54, Cap16Table8)[0 := 3], [], 0, 5, true), ds);
    ds := ds + [5];
    Cap16Take10(s, State(seq(54, Cap16Table9)[0 := 5], [], 0, 3, true), ds);
    ds := ds + [3];
    Cap16Take11(s, State(seq(54, Cap16Table10)[0 := 8], [], 0, 5, true), ds);
    ds := ds + [5];
    Cap16Take12(s, State(seq(54, Cap16Table11)[0 := 9], [], 0, 8, true), ds);
    ds := ds + [8];
    Cap16Take13(s, State(seq(54, Cap16Table13)[0 := 8], [9], 0, 7, true), ds);
    ds := ds + [9];
    Cap16Take14(s, State(seq(54, Cap16Table13)[0 := 8], [], 0, 7, true), ds);
    ds := ds + [7];
    Cap16Take15(s, State(seq(54, Cap16Table15)[0 := 1], [9], 0, 3, true), ds);
    ds := ds + [9];
    Cap16Take16(s, State(seq(54, Cap16Table15)[0 := 1], [], 0, 3, true), ds);
    ds := ds + [3];
    Cap16DigitsList();
  }

  lemma Cap16FirstTenList()
    ensures [] + [3] + [1] + [4] + [1] + [5] + [9] + [2] + [6] + [5] + [3] == [3, 1, 4, 1, 5, 9, 2, 6, 5, 3]
  {
  }

  /** The first ten calls at capacity 16: 3, 1, 4, 1, 5, 9, 2, 6, 5, 3. */
  lemma Cap16FirstTen(s: State)
    requires s == Fresh(16)
    ensures Take(s, 10, 1).Some?
    ensures Take(s, 10, 1).value.0 == [3, 1, 4, 1, 5, 9, 2, 6, 5, 3]
  {
    FreshTwos(s, 16);
    assert Take(s, 0, 1) == Some(([], s));
    var ds: seq<int> := [];
    Cap16Take1(s, s, ds);
    ds := ds + [3];
    Cap16Take2(s, State(seq(54, Cap16Table1)[0 := 3], [], 0, 1, true), ds);
    ds := ds + [1];
    Cap16Take3(s, State(seq(54, Cap16Table2)[0 := 1], [], 0, 4, true), ds);
    ds := ds + [4];
    Cap16Take4(s, State(seq(54, Cap16Table3)[0 := 5], [], 0, 1, true), ds);
    ds := ds + [1];
    Cap16Take5(s, State(seq(54, Cap16Table4)[0 := 8], [], 0, 5, true), ds);
    ds := ds + [5];
    Cap16Take6(s, State(seq(54, Cap16Table6)[0 := 6], [9], 0, 2, true), ds);
    ds := ds + [9];
    Cap16Take7(s, State(seq(54, Cap16Table6)[0 := 6], [], 0, 2, true), ds);
    ds := ds + [2];
    Cap16Take8(s, State(seq(54, Cap16Table7)[0 := 4], [], 0, 6, true), ds);
    ds := ds + [6];
    Cap16Take9(s, State(seq(54, Cap16Table8)[0 := 3], [], 0, 5, true), ds);
    ds := ds + [5];
    Cap16Take10(s, State(seq(54, Cap16Table9)[0 := 5], [], 0, 3, true), ds);
    ds := ds + [3];
    Cap16FirstTenList();
  }
}
