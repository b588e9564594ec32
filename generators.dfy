/**
 * The line generators of generatelines.go: `cycleGen` walks a palette round
 * and round, `singleCharGen` repeats one character, `piGen` maps successive
 * digits of the spigot onto the printable ASCII palette; `newGenerator`
 * picks one by mode. A line is a sequence of characters; every palette the
 * program builds is ASCII, so a character stands for one byte of it.
 */
module Generators {
  import opened Wrappers
  import opened Text
  import opened Spigot
  import opened SpigotEngine
  import opened SpigotDigits

  /** The printable ASCII characters, space (32) to tilde (126), in order. */
  function PrintableAscii(): (p: string)
    ensures |p| == 95
  {
    seq(95, k requires 0 <= k < 95 => (32 + k) as char)
  }

  /** `buildAsciiSequence`: appends the bytes 32 to 126 one by one. */
  method BuildAsciiSequence() returns (s: string)
    ensures |s| == 95 && forall k :: 0 <= k < 95 ==> s[k] as int == 32 + k
    ensures s == PrintableAscii()
  {
    s := [];
    var i := 32;
    while i <= 126
      invariant 32 <= i <= 127 && |s| == i - 32
      invariant forall k :: 0 <= k < |s| ==> s[k] as int == 32 + k
    {
      s := s + [i as char];
      i := i + 1;
    }
  }

  /** The `n` characters a cycling generator emits from position `start`:
      position p shows the palette entry p mod the palette's length. */
  function Cycle(palette: string, start: nat, n: nat): (r: string)
    requires |palette| > 0
    ensures |r| == n
    ensures forall i :: 0 <= i < n ==> r[i] == palette[(start + i) % |palette|]
    decreases n
  {
    if n == 0 then [] else Cycle(palette, start, n - 1) + [palette[(start + n - 1) % |palette|]]
  }

  /** Consecutive lines continue one another: a line of m characters followed by
      a line of n is the stream of m + n characters. */
  lemma CycleSplit(palette: string, start: nat, m: nat, n: nat)
    requires |palette| > 0
    ensures Cycle(palette, start, m + n) == Cycle(palette, start, m) + Cycle(palette, start + m, n)
  {
    var l := Cycle(palette, start, m) + Cycle(palette, start + m, n);
    forall i | m <= i < m + n
      ensures l[i] == palette[(start + i) % |palette|]
    {
      assert start + m + (i - m) == start + i;
    }
  }

  /** The stream repeats with the palette's length as its period. */
  lemma CyclePeriod(palette: string, start: nat, n: nat)
    requires |palette| > 0
    ensures Cycle(palette, start + |palette|, n) == Cycle(palette, start, n)
  {
    var l := Cycle(palette, start + |palette|, n);
    var l' := Cycle(palette, start, n);
    forall i | 0 <= i < n
      ensures l[i] == l'[i]
    {
      assert start + |palette| + i == (start + i) + |palette|;
      ModShift(start + i, |palette|);
    }
  }

  lemma ModShift(x: nat, m: nat)
    requires m > 0
    ensures (x + m) % m == x % m
  {
    var q := x / m;
    assert (q + 1) * m == q * m + m;
    UniqueDivision(x + m, m, q + 1, x % m);
  }

  /** Only the position modulo the palette's length matters. */
  lemma {:induction false} CycleRealign(palette: string, start: nat, n: nat)
    requires |palette| > 0
    ensures Cycle(palette, start, n) == Cycle(palette, start % |palette|, n)
    decreases start
  {
    if start >= |palette| {
      var back := start - |palette|;
      CycleRealign(palette, back, n);
      CyclePeriod(palette, back, n);
      ModShift(back, |palette|);
      assert back + |palette| == start;
    } else {
      UniqueDivision(start, |palette|, 0, start);
    }
  }

  /** A line as long as the palette that starts on a multiple of its length is
      the palette itself. */
  lemma CycleAligned(palette: string, start: nat)
    requires |palette| > 0 && start % |palette| == 0
    ensures Cycle(palette, start, |palette|) == palette
  {
    CycleRealign(palette, start, |palette|);
    CycleWhole(palette);
  }

  /** The first line as long as the palette is the palette. */
  lemma CycleWhole(palette: string)
    requires |palette| > 0
    ensures Cycle(palette, 0, |palette|) == palette
  {
    var l := Cycle(palette, 0, |palette|);
    forall i | 0 <= i < |palette|
      ensures l[i] == palette[i]
    {
      UniqueDivision(i, |palette|, 0, i);
    }
  }

  /** `cycleGen`: a palette and the position of the next character. */
  class CycleGen {
    const palette: string
    var pos: nat

    constructor(palette: string)
      requires |palette| > 0
      ensures this.palette == palette && pos == 0
    {
      this.palette := palette;
      pos := 0;
    }

    /** `NextLine`: fills a fresh line of `width` characters from the palette,
        advancing the position by one for each. */
    method NextLine(width: nat) returns (line: string)
      requires |palette| > 0
      modifies this
      ensures line == Cycle(palette, old(pos), width)
      ensures pos == old(pos) + width
    {
      var out := new char[width];
      var i := 0;
      while i < width
        invariant 0 <= i <= width
        invariant pos == old(pos) + i
        invariant out[..i] == Cycle(palette, old(pos), i)
      {
        out[i] := palette[pos % |palette|];
        pos := pos + 1;
        i := i + 1;
      }
      line := out[..];
    }
  }

  /** `singleCharGen.NextLine`: `width` copies of one character. */
  function SingleCharLine(ch: char, width: nat): (r: string)
    ensures |r| == width && forall i :: 0 <= i < width ==> r[i] == ch
  {
    Repeat(ch, width)
  }

  /** A single-character line is what a cycling generator over the one-character
      palette emits, from any position. */
  lemma SingleCharIsCycle(ch: char, start: nat, width: nat)
    ensures SingleCharLine(ch, width) == Cycle([ch], start, width)
  {
    var l := Cycle([ch], start, width);
    forall i | 0 <= i < width
      ensures l[i] == ch
    {
      assert (start + i) % 1 == 0;
    }
  }

  /** The characters `piGen` shows for the digits `ds`: digit d picks palette entry
      d mod the palette's length. */
  function Glyphs(palette: string, ds: seq<int>): (r: string)
    requires |palette| > 0 && Nonneg(ds)
    ensures |r| == |ds|
    ensures forall i :: 0 <= i < |ds| ==> r[i] == palette[ds[i] % |palette|]
  {
    if ds == [] then [] else Glyphs(palette, ds[..|ds| - 1]) + [palette[ds[|ds| - 1] % |palette|]]
  }

  /** On the printable ASCII palette digit d shows as the character with code
      32 + d (3 as '#', 1 as '!', 4 as '$'). */
  lemma AsciiGlyphCodes(ds: seq<int>)
    requires forall i :: 0 <= i < |ds| ==> 0 <= ds[i] < 95
    ensures forall i :: 0 <= i < |ds| ==> Glyphs(PrintableAscii(), ds)[i] as int == 32 + ds[i]
  {
    var p := PrintableAscii();
    var l := Glyphs(p, ds);
    forall i | 0 <= i < |ds|
      ensures l[i] as int == 32 + ds[i]
    {
      UniqueDivision(ds[i], 95, 0, ds[i]);
      assert p[ds[i]] == (32 + ds[i]) as char;
    }
  }

  /** One more digit adds its glyph at the end of the line. */
  lemma GlyphsSnoc(palette: string, ds: seq<int>, d: int)
    requires |palette| > 0 && Nonneg(ds) && d >= 0
    ensures Nonneg(ds + [d])
    ensures Glyphs(palette, ds + [d]) == Glyphs(palette, ds) + [palette[d % |palette|]]
  {
    assert (ds + [d])[..|ds|] == ds;
  }

  /** `piGen`: the printable ASCII palette and a spigot of its own. */
  class PiGen {
    const palette: string
    const spigot: PiSpigot

    /** The generator `newGenerator` builds for the pi mode, its spigot sized for
        `digits` digits. */
    constructor(palette: string, digits: nat)
      ensures this.palette == palette
      ensures fresh(spigot) && fresh(spigot.a) && spigot.Valid()
      ensures spigot.Model() == Fresh(digits)
    {
      this.palette := palette;
      spigot := new PiSpigot(digits);
    }

    /** `NextLine`: one `NextDigit` call per column, each digit shown as its
        palette character. The line is the glyphs of the next `width` digits of
        the stream and the spigot moves on past them. */
    method NextLine(width: nat, ghost fuel: nat) returns (line: string, ghost ds: seq<int>)
      requires |palette| > 0 && spigot.Valid() && Take(spigot.Model(), width, fuel).Some?
      modifies spigot, spigot.a
      ensures spigot.Valid() && spigot.a == old(spigot.a)
      ensures Take(old(spigot.Model()), width, fuel) == Some((ds, spigot.Model()))
      ensures Nonneg(ds) && line == Glyphs(palette, ds)
    {
      ghost var s0 := spigot.Model();
      ds := [];
      var out := new char[width];
      var i := 0;
      while i < width
        invariant 0 <= i <= width
        invariant spigot.Valid() && spigot.a == old(spigot.a)
        invariant Take(s0, i, fuel) == Some((ds, spigot.Model()))
        invariant Nonneg(ds) && out[..i] == Glyphs(palette, ds)
      {
        var c, d := NextGlyph(s0, i, width, fuel, ds);
        GlyphsSnoc(palette, ds, d);
        out[i] := c;
        assert out[..i + 1] == out[..i] + [c];
        ds := ds + [d];
        i := i + 1;
      }
      line := out[..];
    }

    /** One column: the digit that follows the first `i` of the `width` the line
        needs, and the palette character that shows it. */
    method NextGlyph(ghost s0: State, i: nat, width: nat, ghost fuel: nat, ghost ds: seq<int>)
      returns (c: char, d: int)
      requires |palette| > 0 && spigot.Valid() && |s0.a| >= 1
      requires i < width && Take(s0, width, fuel).Some?
      requires Take(s0, i, fuel) == Some((ds, spigot.Model()))
      modifies spigot, spigot.a
      ensures spigot.Valid() && spigot.a == old(spigot.a)
      ensures Take(s0, i + 1, fuel) == Some((ds + [d], spigot.Model()))
      ensures d >= 0 && c == palette[d % |palette|]
    {
      ghost var t := spigot.Model();
      TakeNext(s0, i, width, fuel, ds, t);
      d := spigot.NextDigit(fuel);
      TakeOneMore(s0, i, fuel, ds, t, d, spigot.Model());
      c := palette[d % |palette|];
    }
  }

  /** The generator of each mode. */
  datatype Generator =
    | CycleMode(cycle: CycleGen)
    | SingleCharMode(ch: char)
    | PiMode(pi: PiGen)

  datatype GenError = CharNeedsArg | UnknownMode

  /** `newGenerator`: ascii, digits and upper cycle over their palettes; char
      repeats the first character of the trimmed argument and fails when that
      is blank; pi streams the digits of a spigot sized for `totalChars`
      digits (at least one); any other mode fails. */
  method NewGenerator(mode: string, modeArg: string, totalChars: int) returns (r: Result<Generator, GenError>)
    ensures mode == "ascii" ==>
      r.Ok? && r.value.CycleMode? && fresh(r.value.cycle)
      && r.value.cycle.palette == PrintableAscii() && r.value.cycle.pos == 0
    ensures mode == "digits" ==>
      r.Ok? && r.value.CycleMode? && fresh(r.value.cycle)
      && r.value.cycle.palette == "0123456789" && r.value.cycle.pos == 0
    ensures mode == "upper" ==>
      r.Ok? && r.value.CycleMode? && fresh(r.value.cycle)
      && r.value.cycle.palette == "ABCDEFGHIJKLMNOPQRSTUVWXYZ" && r.value.cycle.pos == 0
    ensures mode == "char" ==>
      var arg := TrimSpace(modeArg);
      r == if arg == "" then Err(CharNeedsArg) else Ok(SingleCharMode(arg[0]))
    ensures mode == "pi" ==>
      r.Ok? && r.value.PiMode? && fresh(r.value.pi)
      && fresh(r.value.pi.spigot) && fresh(r.value.pi.spigot.a)
      && r.value.pi.palette == PrintableAscii() && r.value.pi.spigot.Valid()
      && r.value.pi.spigot.Model() == Fresh(if totalChars <= 0 then 1 else totalChars)
    ensures mode !in {"ascii", "digits", "upper", "char", "pi"} ==> r == Err(UnknownMode)
  {
    if mode == "ascii" {
      var p := BuildAsciiSequence();
      var g := new CycleGen(p);
      r := Ok(CycleMode(g));
    } else if mode == "digits" {
      var g := new CycleGen("0123456789");
      r := Ok(CycleMode(g));
    } else if mode == "upper" {
      var g := new CycleGen("ABCDEFGHIJKLMNOPQRSTUVWXYZ");
      r := Ok(CycleMode(g));
    } else if mode == "char" {
      var arg := TrimSpace(modeArg);
      if arg == "" {
        r := Err(CharNeedsArg);
      } else {
        r := Ok(SingleCharMode(arg[0]));
      }
    } else if mode == "pi" {
      var n := totalChars;
      if n <= 0 {
        n := 1;
      }
      var p := BuildAsciiSequence();
      var g := new PiGen(p, n);
      r := Ok(PiMode(g));
    } else {
      r := Err(UnknownMode);
    }
  }

  /** With a spigot sized for sixteen digits, the first pi line of width ten shows
      3, 1, 4, 1, 5, 9, 2, 6, 5, 3 as palette entries 3, 1, 4, ... of the
      printable ASCII palette: "#!$!%)\"&%#". */
  lemma PiFirstLine(s: State)
    requires s == Fresh(16)
    ensures Take(s, 10, 1).Some?
    ensures var ds := Take(s, 10, 1).value.0;
      Nonneg(ds) && Glyphs(PrintableAscii(), ds) == "#!$!%)\"&%#"
  {
    Cap16FirstTen(s);
    GlyphsOfDigits(Take(s, 10, 1).value.0);
  }

  lemma GlyphsOfDigits(ds: seq<int>)
    requires ds == [3, 1, 4, 1, 5, 9, 2, 6, 5, 3]
    ensures Nonneg(ds) && Glyphs(PrintableAscii(), ds) == "#!$!%)\"&%#"
  {
    AsciiGlyphCodes(ds);
    var l := Glyphs(PrintableAscii(), ds);
    assert l[0] as int == 35 && l[1] as int == 33 && l[2] as int == 36 && l[3] as int == 33;
    assert l[4] as int == 37 && l[5] as int == 41 && l[6] as int == 34 && l[7] as int == 38;
    assert l[8] as int == 37 && l[9] as int == 35;
  }
}
