/** The SGR control sequence ANSIFmt emits: the 7-bit CSI introducer ESC '[',
    a parameter string of decimal parameters separated by ';' (section 5.4 of
    ECMA-48) and the final byte 'm' that selects SGR (section 8.3.117). */
module Sgr {
  import opened Codes
  import opened Decimal

  datatype Option<T> = None | Some(value: T)

  const Esc: char := '\U{1B}'

  /** `pref`: the control sequence introducer in its 7-bit form. */
  const Introducer: string := [Esc, '[']

  /** `reset`: an SGR sequence without parameters, which restores default rendition. */
  const ResetSeq: string := Introducer + "m"

  /** The decimal forms of `cs`, in order, separated by single ';'. */
  function Join(cs: seq<Code>): (s: string)
    ensures s == [] <==> cs == []
    ensures forall i :: 0 <= i < |s| ==> IsDigit(s[i]) || s[i] == ';'
  {
    if |cs| == 0 then ""
    else if |cs| == 1 then Itoa(cs[0])
    else Itoa(cs[0]) + ";" + Join(cs[1..])
  }

  /** The SGR sequence selecting the parameters `cs`. */
  function Render(cs: seq<Code>): string {
    Introducer + Join(cs) + "m"
  }

  /** Join grows at the end: one more code adds ';' and its decimal form. */
  lemma {:induction false} JoinSnoc(cs: seq<Code>, c: Code)
    requires cs != []
    ensures Join(cs + [c]) == Join(cs) + ";" + Itoa(c)
    decreases |cs|
  {
    if |cs| == 1 {
      assert (cs + [c])[1..] == [c];
    } else {
      assert (cs + [c])[1..] == cs[1..] + [c];
      JoinSnoc(cs[1..], c);
    }
  }

  /** The number of occurrences of `ch` in `s`. */
  function Occurrences(s: string, ch: char): nat {
    if s == [] then 0 else (if s[0] == ch then 1 else 0) + Occurrences(s[1..], ch)
  }

  lemma {:induction false} OccurrencesAppend(a: string, b: string, ch: char)
    ensures Occurrences(a + b, ch) == Occurrences(a, ch) + Occurrences(b, ch)
    decreases |a|
  {
    if a != [] {
      assert (a + b)[1..] == a[1..] + b;
      OccurrencesAppend(a[1..], b, ch);
    } else {
      assert a + b == b;
    }
  }

  lemma {:induction false} NoSemicolonInDigits(s: string)
    requires AllDigits(s)
    ensures Occurrences(s, ';') == 0
    decreases |s|
  {
    if s != [] {
      NoSemicolonInDigits(s[1..]);
    }
  }

  /** A non-empty parameter list is rendered with exactly one ';' fewer than it has codes. */
  lemma {:induction false} JoinSemicolons(cs: seq<Code>)
    requires cs != []
    ensures Occurrences(Join(cs), ';') == |cs| - 1
    decreases |cs|
  {
    NoSemicolonInDigits(Itoa(cs[0]));
    if |cs| > 1 {
      JoinSemicolons(cs[1..]);
      OccurrencesAppend(Itoa(cs[0]), ";", ';');
      OccurrencesAppend(Itoa(cs[0]) + ";", Join(cs[1..]), ';');
    }
  }

  /** Every parameter takes one to three characters, so a rendered sequence of n codes
      is at most 3 + 4n - 1 characters long and at least 3 + 2n - 1. */
  lemma {:induction false} JoinLength(cs: seq<Code>)
    requires cs != []
    ensures 2 * |cs| - 1 <= |Join(cs)| <= 4 * |cs| - 1
    decreases |cs|
  {
    ItoaWidth(cs[0]);
    if |cs| > 1 {
      JoinLength(cs[1..]);
    }
  }

  predicate IsAscii(s: string) {
    forall i :: 0 <= i < |s| ==> s[i] as int < 128
  }

  /** A rendered sequence is seven-bit text: ESC, '[', digits, ';' and 'm'. */
  lemma RenderIsAscii(cs: seq<Code>)
    ensures IsAscii(Render(cs))
  {
    var s := Render(cs);
    forall i | 0 <= i < |s| ensures s[i] as int < 128 {
      if 2 <= i < |s| - 1 {
        assert s[i] == Join(cs)[i - 2];
      }
    }
  }

  // ---- A decoder for the parameter strings Join produces.
  // It accepts digits and ';' only, each parameter non-empty and at most 255.

  /** The length of the run of digits at the start of `s`. */
  function DigitRun(s: string): (k: nat)
    ensures k <= |s|
    ensures forall i :: 0 <= i < k ==> IsDigit(s[i])
    ensures k < |s| ==> !IsDigit(s[k])
  {
    if s == [] || !IsDigit(s[0]) then 0 else 1 + DigitRun(s[1..])
  }

  /** The parameter list a parameter string denotes, or None when it is not one. */
  function ParseParams(s: string): Option<seq<Code>>
    decreases |s|
  {
    var k := DigitRun(s);
    if k == 0 || Value(s[..k]) > 255 then None
    else if k == |s| then Some([Value(s[..k])])
    else if s[k] != ';' then None
    else match ParseParams(s[k + 1..])
      case None => None
      case Some(rest) => Some([Value(s[..k]) as Code] + rest)
  }

  /** The parameter list an SGR sequence selects, or None when `s` is not an SGR sequence. */
  function ParseSgr(s: string): Option<seq<Code>> {
    if |s| < 3 || s[..2] != Introducer || s[|s| - 1] != 'm' then None
    else if |s| == 3 then Some([])
    else ParseParams(s[2..|s| - 1])
  }

  lemma DigitRunStopsAtSemicolon(d: string, t: string)
    requires AllDigits(d)
    ensures DigitRun(d + ";" + t) == |d|
  {
    var s := d + ";" + t;
    assert s[|d|] == ';';
  }

  /** A lone parameter decodes to itself. */
  lemma ParseLast(d: string)
    requires d != [] && AllDigits(d) && Value(d) < 256
    ensures ParseParams(d) == Some([Value(d)])
  {
    assert DigitRun(d) == |d|;
    assert d[..|d|] == d;
  }

  /** A parameter followed by ';' decodes to that parameter in front of what the rest decodes to. */
  lemma ParseNext(d: string, t: string)
    requires d != [] && AllDigits(d) && Value(d) < 256
    ensures ParseParams(d + ";" + t) ==
      match ParseParams(t)
      case None => None
      case Some(rest) => Some([Value(d) as Code] + rest)
  {
    var s := d + ";" + t;
    DigitRunStopsAtSemicolon(d, t);
    assert s[..|d|] == d;
    assert s[|d| + 1..] == t;
  }

  /** Decoding a joined parameter list returns it. */
  lemma {:induction false} ParseJoin(cs: seq<Code>)
    requires cs != []
    ensures ParseParams(Join(cs)) == Some(cs)
    decreases |cs|
  {
    var d := Itoa(cs[0]);
    ValueOfItoa(cs[0]);
    if |cs| == 1 {
      assert Join(cs) == d;
      ParseLast(d);
      assert cs == [cs[0]];
    } else {
      assert Join(cs) == d + ";" + Join(cs[1..]);
      ParseNext(d, Join(cs[1..]));
      ParseJoin(cs[1..]);
      assert cs == [cs[0]] + cs[1..];
    }
  }

  /** Decoding a rendered sequence returns the codes it was rendered from. */
  lemma ParseRender(cs: seq<Code>)
    ensures ParseSgr(Render(cs)) == Some(cs)
  {
    var s := Render(cs);
    assert s[..2] == Introducer;
    if cs != [] {
      assert s[2..|s| - 1] == Join(cs);
      ParseJoin(cs);
    }
  }

  /** Two code lists render alike only when they are equal: rendering loses nothing. */
  lemma RenderInjective(a: seq<Code>, b: seq<Code>)
    ensures Render(a) == Render(b) ==> a == b
  {
    ParseRender(a);
    ParseRender(b);
  }

  /** A rendered non-empty list holds exactly one ';' fewer than it has codes. */
  lemma RenderSemicolons(cs: seq<Code>)
    requires cs != []
    ensures Occurrences(Render(cs), ';') == |cs| - 1
  {
    JoinSemicolons(cs);
    OccurrencesAppend(Introducer, Join(cs), ';');
    OccurrencesAppend(Introducer + Join(cs), "m", ';');
  }

  /** An empty parameter list renders as the plain reset. */
  lemma RenderEmpty()
    ensures Render([]) == ResetSeq
  {
  }

  lemma JoinCons(c: Code, rest: seq<Code>)
    requires rest != []
    ensures Join([c] + rest) == Itoa(c) + ";" + Join(rest)
  {
    assert ([c] + rest)[1..] == rest;
  }

  /** Joining two non-empty lists is joining each and putting ';' between them. */
  lemma {:induction false} JoinAppend(a: seq<Code>, b: seq<Code>)
    requires a != [] && b != []
    ensures Join(a + b) == Join(a) + ";" + Join(b)
    decreases |a|
  {
    if |a| == 1 {
      assert (a + b)[1..] == b;
    } else {
      assert (a + b)[1..] == a[1..] + b;
      JoinAppend(a[1..], b);
    }
  }

  // ---- Renderings of short code lists the package's usage demo and log banners build.

  lemma JoinBoldRed()
    ensures Join([1, 31]) == "1;31"
  {
    assert Itoa(31) == "31" by { assert Itoa(3) == "3"; }
    JoinCons(1, [31]);
  }

  lemma RenderBoldRed()
    ensures Render([1, 31]) == "\U{1B}[1;31m"
  {
    JoinBoldRed();
  }

  lemma RenderBoldRedOnWhite()
    ensures Render([1, 31, 47]) == "\U{1B}[1;31;47m"
  {
    JoinBoldRed();
    assert Itoa(47) == "47" by { assert Itoa(4) == "4"; }
    JoinAppend([1, 31], [47]);
    assert [1, 31] + [47] == [1, 31, 47];
  }

  lemma RenderBrightBlue()
    ensures Render([94]) == "\U{1B}[94m"
  {
    assert Itoa(94) == "94" by { assert Itoa(9) == "9"; }
  }

  lemma RenderBlinkInvertBrightRed()
    ensures Render([91, 5, 7]) == "\U{1B}[91;5;7m"
  {
    assert Itoa(91) == "91" by { assert Itoa(9) == "9"; }
    JoinCons(5, [7]);
    JoinCons(91, [5, 7]);
  }

  /** Join of a three-code list, spelled out. */
  lemma JoinThree(a: Code, b: Code, c: Code)
    ensures Join([a, b, c]) == Itoa(a) + ";" + (Itoa(b) + ";" + Itoa(c))
  {
    JoinCons(b, [c]);
    JoinCons(a, [b, c]);
  }

  /** Join of a five-code list, spelled out. */
  lemma JoinFive(a: Code, b: Code, c: Code, d: Code, e: Code)
    ensures Join([a, b, c, d, e]) == Itoa(a) + ";" + (Itoa(b) + ";" + Join([c, d, e]))
  {
    JoinCons(b, [c, d, e]);
    JoinCons(a, [b, c, d, e]);
  }

  /** The decimal forms of the true-colour demo's codes. */
  lemma ItoaTrueColor()
    ensures Itoa(38) == "38" && Itoa(2) == "2" && Itoa(63) == "63"
    ensures Itoa(127) == "127" && Itoa(191) == "191"
  {
    assert Itoa(38) == "38" by { assert Itoa(3) == "3"; }
    assert Itoa(63) == "63" by { assert Itoa(6) == "6"; }
    assert Itoa(127) == "127" by { assert Itoa(12) == "12" by { assert Itoa(1) == "1"; } }
    assert Itoa(191) == "191" by { assert Itoa(19) == "19" by { assert Itoa(1) == "1"; } }
  }

  /** The decimal forms of the palette background's codes. */
  lemma ItoaPaletteBack()
    ensures Itoa(48) == "48" && Itoa(5) == "5" && Itoa(239) == "239"
  {
    assert Itoa(48) == "48" by { assert Itoa(4) == "4"; }
    assert Itoa(239) == "239" by { assert Itoa(23) == "23" by { assert Itoa(2) == "2"; } }
  }

  /** The codes `SetFore24bitColor(63, 127, 191)` stores in the usage demo. */
  const DemoTrueColor: seq<Code> := [38, 2, 63, 127, 191]

  /** The codes `WithBack8bitColor(239)` appends after them. */
  const DemoPaletteBack: seq<Code> := [48, 5, 239]

  lemma DemoCodes()
    ensures DemoTrueColor == [38, 2, 63, 127, 191] && DemoPaletteBack == [48, 5, 239]
    ensures DemoTrueColor + DemoPaletteBack == [38, 2, 63, 127, 191, 48, 5, 239]
  {
  }

  lemma JoinTrueColor()
    ensures Join(DemoTrueColor) == "38;2;63;127;191"
  {
    ItoaTrueColor();
    JoinThree(63, 127, 191);
    JoinFive(38, 2, 63, 127, 191);
  }

  lemma JoinPaletteBack()
    ensures Join(DemoPaletteBack) == "48;5;239"
  {
    ItoaPaletteBack();
    JoinThree(48, 5, 239);
  }

  lemma TrueColorText()
    ensures Introducer + "38;2;63;127;191" + "m" == "\U{1B}[38;2;63;127;191m"
  {
  }

  lemma TrueColorOnPaletteText()
    ensures Introducer + ("38;2;63;127;191" + ";" + "48;5;239") + "m"
         == "\U{1B}[38;2;63;127;191;48;5;239m"
  {
  }

  /** `SetFore24bitColor(63, 127, 191)` in the usage demo renders as ESC[38;2;63;127;191m. */
  lemma RenderTrueColor()
    ensures Render([38, 2, 63, 127, 191]) == "\U{1B}[38;2;63;127;191m"
  {
    JoinTrueColor();
    TrueColorText();
  }

  /** Adding `WithBack8bitColor(239)` renders as ESC[38;2;63;127;191;48;5;239m. */
  lemma RenderTrueColorOnPalette()
    ensures Render([38, 2, 63, 127, 191, 48, 5, 239]) == "\U{1B}[38;2;63;127;191;48;5;239m"
  {
    DemoCodes();
    JoinTrueColor();
    JoinPaletteBack();
    JoinAppend(DemoTrueColor, DemoPaletteBack);
    TrueColorOnPaletteText();
  }
}
