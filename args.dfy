/**
 * The argument classifier of `getArgsOrPrompt` in generatelines.go: the two
 * required positional arguments (read from the terminal when missing), then
 * an optional overwrite token, an optional width, an optional mode and an
 * optional mode argument, each recognised by what it looks like; and the
 * token parsers it uses, `parsePositiveInt` (over `strconv.Atoi`),
 * `looksLikeYesNo` and `parseYesNo`.
 */
module Args {
  import opened Wrappers
  import opened Text

  /** The width used when none is given (`defaultWidth`). */
  const DefaultWidth: int := 80

  /** The range of Go's `int` on the 64-bit platforms the tool is built for. */
  const MaxInt: int := 0x7fff_ffff_ffff_ffff
  const MinInt: int := -0x8000_0000_0000_0000

  predicate IsDigit(c: char)
  {
    '0' <= c <= '9'
  }

  predicate AllDigits(s: string)
  {
    forall i :: 0 <= i < |s| ==> IsDigit(s[i])
  }

  /** The value of a string of ASCII decimal digits. */
  function DigitsValue(s: string): (n: nat)
    requires AllDigits(s)
    decreases |s|
  {
    if s == [] then 0
    else DigitsValue(s[..|s| - 1]) * 10 + (s[|s| - 1] as int - '0' as int)
  }

  /** `strconv.Atoi`: an optional '+' or '-' sign followed by at least one ASCII
      decimal digit; `None` for any other text (a syntax error) and for a value
      outside Go's `int` (a range error). */
  function Atoi(s: string): (r: Option<int>)
    ensures r.Some? ==> MinInt <= r.value <= MaxInt
    ensures r.Some? ==> |s| > 0 && (IsDigit(s[0]) || s[0] == '+' || s[0] == '-')
  {
    if |s| == 0 then None
    else
      var body := if s[0] == '+' || s[0] == '-' then s[1..] else s;
      if |body| == 0 || !AllDigits(body) then None
      else
        var m: int := DigitsValue(body);
        var v := if s[0] == '-' then -m else m;
        if MinInt <= v <= MaxInt then Some(v) else None
  }

  /** `parsePositiveInt`: `Atoi` of the trimmed text, rejected unless positive. */
  function ParsePositiveInt(s: string): (r: Option<int>)
    ensures r.Some? ==> 1 <= r.value <= MaxInt
  {
    match Atoi(TrimSpace(s))
    case None => None
    case Some(n) => if n <= 0 then None else Some(n)
  }

  /** The shortest decimal spelling of `n`. */
  function Decimal(n: nat): (s: string)
    ensures |s| > 0 && AllDigits(s)
    ensures n > 0 ==> s[0] != '0'
    ensures DigitsValue(s) == n
  {
    if n < 10 then ['0' + n as char]
    else
      var s := Decimal(n / 10) + ['0' + (n % 10) as char];
      assert s[..|s| - 1] == Decimal(n / 10);
      s
  }

  /** Every positive `int` is read back from its decimal spelling, with or
      without white space around it and with or without a '+' sign. */
  lemma ParsePositiveIntDecimal(n: int, w1: string, w2: string)
    requires 1 <= n <= MaxInt && AllSpace(w1) && AllSpace(w2)
    ensures ParsePositiveInt(w1 + Decimal(n) + w2) == Some(n)
    ensures ParsePositiveInt(w1 + "+" + Decimal(n) + w2) == Some(n)
  {
    var d := Decimal(n);
    var p := "+" + d;
    assert w1 + "+" + d + w2 == w1 + p + w2;
    TrimmedNumber(d, w1, w2);
    TrimmedNumber(p, w1, w2);
    AtoiDecimal(n);
  }

  lemma TrimmedNumber(d: string, w1: string, w2: string)
    requires |d| > 0 && !IsSpace(d[0]) && !IsSpace(d[|d| - 1])
    requires AllSpace(w1) && AllSpace(w2)
    ensures TrimSpace(w1 + d + w2) == d
  {
    TrimSpacePadded(w1, d, w2);
    TrimSpaceOfTrimmed(d);
  }

  lemma AtoiDecimal(n: int)
    requires 1 <= n <= MaxInt
    ensures Atoi(Decimal(n)) == Some(n)
    ensures Atoi("+" + Decimal(n)) == Some(n)
  {
    var d := Decimal(n);
    assert ("+" + d)[1..] == d;
  }

  /** A number's text: `ParsePositiveInt` accepts exactly an optional '+' and a
      run of ASCII digits, once trimmed, whose value is a positive `int`, and
      returns that value. */
  lemma ParsePositiveIntAccepts(s: string)
    ensures var t := TrimSpace(s);
      var body := if |t| > 0 && t[0] == '+' then t[1..] else t;
      ParsePositiveInt(s) ==
        if |body| > 0 && AllDigits(body) && 1 <= DigitsValue(body) <= MaxInt
        then Some(DigitsValue(body)) else None
  {
    var t := TrimSpace(s);
    if |t| > 0 && t[0] == '-' {
      assert !IsDigit(t[0]);
      var body := t[1..];
      if |body| > 0 && AllDigits(body) {
        var m: int := DigitsValue(body);
        assert -m <= 0;
      }
    }
  }

  /** `looksLikeYesNo`: the trimmed token is y, yes, n or no, in any case. */
  predicate LooksLikeYesNo(s: string)
  {
    var t := TrimSpace(s);
    EqualFold(t, "y") || EqualFold(t, "yes") || EqualFold(t, "n") || EqualFold(t, "no")
  }

  /** `parseYesNo`: the trimmed token is y or yes, in any case. */
  predicate ParseYesNo(s: string)
  {
    EqualFold(TrimSpace(s), "y") || EqualFold(TrimSpace(s), "yes")
  }

  /** An answer `parseYesNo` takes as yes is one `looksLikeYesNo` accepts, and
      `looksLikeYesNo` accepts exactly the yes answers and the no answers. */
  lemma YesNoAgree(s: string)
    ensures ParseYesNo(s) ==> LooksLikeYesNo(s)
    ensures LooksLikeYesNo(s) <==>
      ParseYesNo(s) || EqualFold(TrimSpace(s), "n") || EqualFold(TrimSpace(s), "no")
  {
  }

  /** No token is both an overwrite answer and a number, so the order in which
      the classifier tries them never matters. */
  lemma YesNoIsNotNumber(s: string)
    ensures LooksLikeYesNo(s) ==> ParsePositiveInt(s).None?
  {
    var t := TrimSpace(s);
    if LooksLikeYesNo(s) {
      assert FoldsTo(t[0], 'y') || FoldsTo(t[0], 'n');
      assert !IsDigit(t[0]) && t[0] != '+' && t[0] != '-';
    }
  }

  /** The words the mode switch accepts, aliases included. */
  const ModeWords: set<string> :=
    {"", "ascii", "digit", "digits", "upper", "uppercase", "char", "character", "pi"}

  /** The mode names the switch accepts and the canonical name of each; any
      other word is an unknown mode. */
  function NormalizeMode(m: string): (r: Option<string>)
    ensures r.None? <==> m !in ModeWords
    ensures r.Some? ==> IsMode(r.value)
    ensures IsMode(m) ==> r == Some(m)
    ensures r == Some("ascii") <==> m == "" || m == "ascii"
    ensures r == Some("digits") <==> m == "digit" || m == "digits"
    ensures r == Some("upper") <==> m == "upper" || m == "uppercase"
    ensures r == Some("char") <==> m == "char" || m == "character"
    ensures r == Some("pi") <==> m == "pi"
  {
    if m == "" || m == "ascii" then Some("ascii")
    else if m == "digit" || m == "digits" then Some("digits")
    else if m == "upper" || m == "uppercase" then Some("upper")
    else if m == "char" || m == "character" then Some("char")
    else if m == "pi" then Some("pi")
    else None
  }

  predicate IsMode(m: string)
  {
    m == "ascii" || m == "digits" || m == "upper" || m == "char" || m == "pi"
  }

  /** What `getArgsOrPrompt` returns when it succeeds. */
  datatype Config = Config(
    lines: int,
    filename: string,
    overwriteFlag: string,
    width: int,
    mode: string,
    modeArg: string,
    usedDefaultWidth: bool,
    usedDefaultMode: bool)

  /** Why `getArgsOrPrompt` fails. */
  datatype ArgError =
    | ReadFailed
    | InvalidLines(text: string)
    | EmptyFilename
    | UnknownMode(mode: string)
    | CharNeedsArg

  /** The two required values: from `args` when given, otherwise from the lines
      typed at the prompts (`input`), each trimmed as `promptLineR` does. A
      prompt with no line left to read fails. */
  function Required(args: seq<string>, input: seq<string>): (r: Option<(string, string)>)
    ensures |args| >= 2 ==> r == Some((args[0], args[1]))
    ensures |args| == 1 && |input| >= 1 ==> r == Some((args[0], TrimSpace(input[0])))
    ensures |args| == 0 && |input| >= 2 ==> r == Some((TrimSpace(input[0]), TrimSpace(input[1])))
    ensures r.None? <==> (|args| == 0 && |input| < 2) || (|args| == 1 && |input| < 1)
  {
    if |args| == 0 then
      if |input| < 2 then None else Some((TrimSpace(input[0]), TrimSpace(input[1])))
    else if |args| == 1 then
      if |input| < 1 then None else Some((args[0], TrimSpace(input[0])))
    else Some((args[0], args[1]))
  }

  /** `getArgsOrPrompt`, given the positional arguments and the lines the prompts
      would read. */
  function ParseArgs(args: seq<string>, input: seq<string>): (r: Result<Config, ArgError>)
  {
    match Required(args, input)
    case None => Err(ReadFailed)
    case Some((linesText, fileText)) =>
      match ParsePositiveInt(linesText)
      case None => Err(InvalidLines(TrimSpace(linesText)))
      case Some(lines) =>
        var filename := TrimSpace(fileText);
        if filename == "" then Err(EmptyFilename)
        else ClassifyTail(lines, filename, SplitTail(Optional(args)))
  }

  /** The optional arguments after the first two, as the classifier sorts them. */
  datatype Tail = Tail(flag: string, width: Option<int>, modeText: Option<string>, modeArg: string)

  /** Sorting the optional arguments, each recognised in turn: an overwrite
      answer, then a positive width, then a mode (trimmed and lower-cased),
      then the mode argument. A token is consumed only by the slot it fits. */
  function SplitTail(rest: seq<string>): (t: Tail)
    ensures t.flag == "" || LooksLikeYesNo(t.flag)
    ensures t.width.Some? ==> t.width.value >= 1
    ensures |rest| == 0 ==> t == Tail("", None, None, "")
  {
    if |rest| >= 1 && LooksLikeYesNo(rest[0]) then SplitWidth(rest[0], rest[1..])
    else SplitWidth("", rest)
  }

  /** After the flag slot: a positive number fills the width slot. */
  function SplitWidth(flag: string, rest: seq<string>): (t: Tail)
    ensures t.flag == flag
    ensures t.width.Some? ==> t.width.value >= 1
  {
    var width := if |rest| >= 1 then ParsePositiveInt(rest[0]) else None;
    SplitMode(flag, width, if width.Some? then rest[1..] else rest)
  }

  /** After the width slot: the next token is the mode, trimmed and
      lower-cased, and the one after it the mode argument. */
  function SplitMode(flag: string, width: Option<int>, rest: seq<string>): (t: Tail)
    ensures t.flag == flag && t.width == width
    ensures t.modeText.None? <==> |rest| == 0
  {
    if |rest| == 0 then Tail(flag, width, None, "")
    else Tail(flag, width, Some(ToLower(TrimSpace(rest[0]))), if |rest| >= 2 then rest[1] else "")
  }

  /** The end of the classifier: canonicalise the mode (ascii when none was
      given), demand a non-blank argument for the char mode, and fill in the
      default width. */
  function ClassifyTail(lines: int, filename: string, t: Tail): (r: Result<Config, ArgError>)
  {
    var modeText := if t.modeText.Some? then t.modeText.value else "ascii";
    match NormalizeMode(modeText)
    case None => Err(UnknownMode(modeText))
    case Some(mode) =>
      var arg := if mode == "char" then TrimSpace(t.modeArg) else t.modeArg;
      if mode == "char" && arg == "" then Err(CharNeedsArg)
      else if t.width.None? then
        Ok(Config(lines, filename, t.flag, DefaultWidth, mode, arg, true, t.modeText.None?))
      else
        Ok(Config(lines, filename, t.flag, t.width.value, mode, arg, false, t.modeText.None?))
  }

  /** A successful parse always yields what the generator needs: a positive line
      count and width, a non-empty trimmed file name, one of the five canonical
      modes, a non-empty trimmed argument for the char mode, an overwrite flag
      that is empty or a yes/no answer, and default flags that report the
      defaults actually used. */
  lemma ParseArgsValid(args: seq<string>, input: seq<string>)
    requires ParseArgs(args, input).Ok?
    ensures var c := ParseArgs(args, input).value;
      && 1 <= c.lines <= MaxInt && c.width >= 1
      && c.filename != "" && TrimSpace(c.filename) == c.filename
      && IsMode(c.mode)
      && (c.mode == "char" ==> c.modeArg != "" && TrimSpace(c.modeArg) == c.modeArg)
      && (c.overwriteFlag == "" || LooksLikeYesNo(c.overwriteFlag))
      && (c.usedDefaultWidth ==> c.width == DefaultWidth)
      && (c.usedDefaultMode ==> c.mode == "ascii")
  {
    ParseArgsUnfold(args, input);
    var (linesText, fileText) := Required(args, input).value;
    TrimSpaceIdempotent(fileText);
    ClassifyTailValid(ParsePositiveInt(linesText).value, TrimSpace(fileText), SplitTail(Optional(args)));
  }

  /** The arguments after the two required ones. */
  function Optional(args: seq<string>): (rest: seq<string>)
    ensures args[..if |args| < 2 then |args| else 2] + rest == args
  {
    if |args| >= 3 then args[2..] else []
  }

  /** A successful parse is the classification of the optional arguments. */
  lemma ParseArgsUnfold(args: seq<string>, input: seq<string>)
    requires ParseArgs(args, input).Ok?
    ensures Required(args, input).Some?
    ensures var (linesText, fileText) := Required(args, input).value;
      && ParsePositiveInt(linesText).Some? && TrimSpace(fileText) != ""
      && ParseArgs(args, input) ==
        ClassifyTail(ParsePositiveInt(linesText).value, TrimSpace(fileText), SplitTail(Optional(args)))
  {
  }

  lemma ClassifyTailValid(lines: int, filename: string, t: Tail)
    requires ClassifyTail(lines, filename, t).Ok?
    requires t.flag == "" || LooksLikeYesNo(t.flag)
    requires t.width.Some? ==> t.width.value >= 1
    ensures var c := ClassifyTail(lines, filename, t).value;
      && c.lines == lines && c.filename == filename && c.overwriteFlag == t.flag
      && IsMode(c.mode)
      && (c.mode == "char" ==> c.modeArg != "" && TrimSpace(c.modeArg) == c.modeArg)
      && (t.width.Some? ==> c.width == t.width.value && !c.usedDefaultWidth)
      && (t.width.None? ==> c.width == DefaultWidth && c.usedDefaultWidth)
      && (c.usedDefaultMode <==> t.modeText.None?)
      && (c.usedDefaultMode ==> c.mode == "ascii")
  {
    var c := ClassifyTail(lines, filename, t);
    if c.value.mode == "char" {
      TrimSpaceIdempotent(t.modeArg);
    }
  }

  /** The slots in order: an optional yes/no token, an optional positive
      number, a mode token and the mode argument after it. An optional slot
      takes only a token of its kind, so a token that fits no earlier slot
      moves on to the next one. */
  lemma SplitTailSlots(rest: seq<string>, f: seq<string>, w: seq<string>, m: seq<string>, x: seq<string>)
    requires rest == f + (w + (m + x))
    requires |f| <= 1 && |w| <= 1 && |m| <= 1 && (m == [] ==> x == [])
    requires |f| == 1 ==> LooksLikeYesNo(f[0])
    requires |w| == 1 ==> ParsePositiveInt(w[0]).Some?
    requires f == [] && w == [] && |m| == 1 ==> !LooksLikeYesNo(m[0])
    requires w == [] && |m| == 1 ==> ParsePositiveInt(m[0]).None?
    ensures SplitTail(rest) == Tail(
      if |f| == 1 then f[0] else "",
      if |w| == 1 then ParsePositiveInt(w[0]) else None,
      if |m| == 1 then Some(ToLower(TrimSpace(m[0]))) else None,
      if |x| >= 1 then x[0] else "")
  {
    var rest1 := w + (m + x);
    if |w| == 1 {
      assert rest1[0] == w[0];
      YesNoIsNotNumber(w[0]);
    } else if |m| == 1 {
      assert rest1[0] == m[0];
    }
    if |m| == 1 {
      assert (m + x)[0] == m[0];
    }
    var flag := if |f| == 1 then f[0] else "";
    FlagSlot(rest, f, rest1);
    WidthSlot(flag, rest1, w, m + x);
    ModeSlot(flag, if |w| == 1 then ParsePositiveInt(w[0]) else None, m, x);
  }

  lemma FlagSlot(rest: seq<string>, f: seq<string>, rest1: seq<string>)
    requires rest == f + rest1 && |f| <= 1
    requires |f| == 1 ==> LooksLikeYesNo(f[0])
    requires f == [] && |rest1| > 0 ==> !LooksLikeYesNo(rest1[0])
    ensures SplitTail(rest) == SplitWidth(if |f| == 1 then f[0] else "", rest1)
  {
    if |f| == 1 {
      assert rest[0] == f[0] && rest[1..] == rest1;
    }
  }

  lemma WidthSlot(flag: string, rest1: seq<string>, w: seq<string>, rest2: seq<string>)
    requires rest1 == w + rest2 && |w| <= 1
    requires |w| == 1 ==> ParsePositiveInt(w[0]).Some?
    requires w == [] && |rest2| > 0 ==> ParsePositiveInt(rest2[0]).None?
    ensures SplitWidth(flag, rest1) ==
      SplitMode(flag, if |w| == 1 then ParsePositiveInt(w[0]) else None, rest2)
  {
    if |w| == 1 {
      assert rest1[0] == w[0] && rest1[1..] == rest2;
    }
  }

  lemma ModeSlot(flag: string, width: Option<int>, m: seq<string>, x: seq<string>)
    requires |m| <= 1 && (m == [] ==> x == [])
    ensures SplitMode(flag, width, m + x) ==
      Tail(flag, width, if |m| == 1 then Some(ToLower(TrimSpace(m[0]))) else None, if |x| >= 1 then x[0] else "")
  {
    if |m| == 1 {
      assert (m + x)[0] == m[0];
      assert |x| >= 1 ==> (m + x)[1] == x[0];
    }
  }

  /** A mode word outside the switch's aliases, wherever it stands after the
      optional flag and width, fails the parse and is reported as the
      classifier lower-cased it. */
  lemma UnknownModeRejected(args: seq<string>, f: seq<string>, w: seq<string>, m: string, x: seq<string>)
    requires |args| >= 2 && ParsePositiveInt(args[0]).Some? && TrimSpace(args[1]) != ""
    requires args[2..] == f + (w + ([m] + x))
    requires |f| <= 1 && |w| <= 1
    requires |f| == 1 ==> LooksLikeYesNo(f[0])
    requires |w| == 1 ==> ParsePositiveInt(w[0]).Some?
    requires f == [] && w == [] ==> !LooksLikeYesNo(m)
    requires w == [] ==> ParsePositiveInt(m).None?
    requires ToLower(TrimSpace(m)) !in ModeWords
    ensures ParseArgs(args, []) == Err(UnknownMode(ToLower(TrimSpace(m))))
  {
    SplitTailSlots(Optional(args), f, w, [m], x);
  }

  /** The first optional argument is the overwrite flag exactly when it looks
      like a yes/no answer; otherwise no flag is recorded. */
  lemma OverwriteFlagRecognised(rest: seq<string>)
    ensures SplitTail(rest).flag == if |rest| >= 1 && LooksLikeYesNo(rest[0]) then rest[0] else ""
  {
  }

  /** Only the two required arguments: width and mode take their defaults and
      are reported as defaults. */
  lemma RequiredOnly(n: int, f: string)
    requires 1 <= n <= MaxInt && f != "" && TrimSpace(f) == f
    ensures ParseArgs([Decimal(n), f], []) == Ok(Config(n, f, "", DefaultWidth, "ascii", "", true, true))
  {
    var args := [Decimal(n), f];
    RequiredPair(args, n, f);
    assert Optional(args) == [];
    ClassifyDefaultMode(n, f, Tail("", None, None, ""));
  }

  /** A width and a canonical mode other than char, given explicitly, are used
      and not reported as defaults (80 and ascii included). */
  lemma ExplicitWidthMode(n: int, f: string, w: int, m: string)
    requires 1 <= n <= MaxInt && f != "" && TrimSpace(f) == f
    requires 1 <= w <= MaxInt && IsMode(m) && m != "char"
    ensures ParseArgs([Decimal(n), f, Decimal(w), m], []) == Ok(Config(n, f, "", w, m, "", false, false))
  {
    var args := [Decimal(n), f, Decimal(w), m];
    RequiredPair(args, n, f);
    assert Optional(args) == [Decimal(w), m];
    CanonicalModeWord(m);
    SplitWidthMode(Decimal(w), w, m);
  }

  /** An overwrite answer alone, in any case, is taken as the flag, and the
      defaults stay. */
  lemma FlagOnly(n: int, f: string, y: string)
    requires 1 <= n <= MaxInt && f != "" && TrimSpace(f) == f
    requires LooksLikeYesNo(y)
    ensures ParseArgs([Decimal(n), f, y], []) == Ok(Config(n, f, y, DefaultWidth, "ascii", "", true, true))
  {
    var args := [Decimal(n), f, y];
    RequiredPair(args, n, f);
    assert Optional(args) == [y];
    assert SplitTail([y]) == Tail(y, None, None, "");
    ClassifyDefaultMode(n, f, Tail(y, None, None, ""));
  }

  /** "Y" is an overwrite answer. */
  lemma UpperYIsAnswer()
    ensures LooksLikeYesNo("Y")
  {
    TrimSpaceOfTrimmed("Y");
    assert EqualFold("Y", "y");
  }

  /** The char mode without its argument is rejected. */
  lemma CharModeNeedsArg(n: int, f: string, w: int)
    requires 1 <= n <= MaxInt && f != "" && TrimSpace(f) == f && 1 <= w <= MaxInt
    ensures ParseArgs([Decimal(n), f, Decimal(w), "char"], []) == Err(CharNeedsArg)
  {
    var args := [Decimal(n), f, Decimal(w), "char"];
    RequiredPair(args, n, f);
    assert Optional(args) == [Decimal(w), "char"];
    CanonicalModeWord("char");
    SplitWidthMode(Decimal(w), w, "char");
    assert TrimSpace("") == "";
  }

  /** No arguments: the line count and the file name are the two lines typed at
      the prompts, their line breaks trimmed, and the defaults apply. */
  lemma InteractivePrompts(n: int, f: string)
    requires 1 <= n <= MaxInt && f != "" && TrimSpace(f) == f
    ensures ParseArgs([], [Decimal(n) + "\n", f + "\n"]) ==
      Ok(Config(n, f, "", DefaultWidth, "ascii", "", true, true))
  {
    var d := Decimal(n);
    assert AllSpace("\n");
    assert "" + d + "\n" == d + "\n" && "" + f + "\n" == f + "\n";
    TrimmedNumber(d, "", "\n");
    TrimSpacePadded("", f, "\n");
    WidthToken(d, n);
    ClassifyDefaultMode(n, f, Tail("", None, None, ""));
  }

  /** Two valid required arguments: the parse goes on to the optional ones. */
  lemma RequiredPair(args: seq<string>, n: int, f: string)
    requires 1 <= n <= MaxInt && f != "" && TrimSpace(f) == f
    requires |args| >= 2 && args[0] == Decimal(n) && args[1] == f
    ensures ParseArgs(args, []) == ClassifyTail(n, f, SplitTail(Optional(args)))
  {
    WidthToken(args[0], n);
  }

  /** No mode given: the ascii mode, with no char argument to trim. */
  lemma ClassifyDefaultMode(lines: int, filename: string, t: Tail)
    requires t.modeText.None? && t.width.None? && t.modeArg == ""
    ensures ClassifyTail(lines, filename, t) ==
      Ok(Config(lines, filename, t.flag, DefaultWidth, "ascii", "", true, true))
  {
    assert NormalizeMode("ascii") == Some("ascii");
  }

  lemma CanonicalModeWord(m: string)
    requires IsMode(m)
    ensures |m| > 0 && LowerAsciiWord(m)
  {
  }

  /** A width followed by a lower-case mode word. */
  lemma SplitWidthMode(w: string, n: int, m: string)
    requires 1 <= n <= MaxInt && w == Decimal(n)
    requires |m| > 0 && LowerAsciiWord(m)
    ensures SplitTail([w, m]) == Tail("", Some(n), Some(m), "")
  {
    WidthToken(w, n);
    ModeWord(m);
    var rest := [w, m];
    assert rest[1..] == [m];
  }

  lemma WidthToken(w: string, n: int)
    requires 1 <= n <= MaxInt && w == Decimal(n)
    ensures ParsePositiveInt(w) == Some(n) && !LooksLikeYesNo(w)
  {
    ParsePositiveIntDecimal(n, "", "");
    assert "" + w + "" == w;
    YesNoIsNotNumber(w);
  }

  lemma ModeWord(m: string)
    requires |m| > 0 && LowerAsciiWord(m)
    ensures ToLower(TrimSpace(m)) == m
  {
    TrimSpaceOfTrimmed(m);
    var l := ToLower(m);
    forall i | 0 <= i < |m|
      ensures l[i] == m[i]
    {
      assert 'a' <= m[i] <= 'z';
    }
    assert l == m;
  }

  /** A mode name typed in any mix of ASCII cases ("PI", "Upper") selects that
      mode. */
  lemma ModeAnyCase(u: string, m: string)
    requires IsMode(m) && |u| == |m|
    requires forall i :: 0 <= i < |u| ==> u[i] == m[i] || u[i] as int == m[i] as int - 32
    ensures NormalizeMode(ToLower(TrimSpace(u))) == Some(m)
  {
    CanonicalModeWord(m);
    assert !IsSpace(u[0]) && !IsSpace(u[|u| - 1]);
    TrimSpaceOfTrimmed(u);
    LowerAnyCase(u, m);
  }
}
