/** The ANSIFmt builder: an ordered list of SGR codes and an on/off switch,
    methods that replace or extend the list, `ToString`, which renders it, and
    the string and byte-buffer helpers that wrap content between the rendered
    sequence and the plain reset. */
module AnsiFmt {
  import opened Codes
  import opened Decimal
  import opened Sgr

  /** The bytes of a seven-bit string, one per character. */
  function AsciiBytes(s: string): (b: seq<Byte>)
    requires IsAscii(s)
    ensures |b| == |s|
    ensures forall i :: 0 <= i < |s| ==> b[i] == s[i] as int
  {
    if s == [] then [] else [s[0] as int as Byte] + AsciiBytes(s[1..])
  }

  class ANSIFmt {
    var Sequences: seq<Code>
    var FormatSwitch: bool

    /** `New()`: no codes, formatting on. */
    constructor New()
      ensures Sequences == [] && FormatSwitch
    {
      Sequences := [];
      FormatSwitch := true;
    }

    /** The sequence every output of this builder opens with: the codes rendered
        as SGR while formatting is on, the plain reset while it is off. */
    function Opening(): (s: string)
      reads this
      ensures IsAscii(s)
      ensures FormatSwitch ==> ParseSgr(s) == Some(Sequences)
      ensures !FormatSwitch ==> ParseSgr(s) == Some([])
    {
      RenderIsAscii(Sequences);
      ParseRender(Sequences);
      ParseRender([]);
      if FormatSwitch then Render(Sequences) else ResetSeq
    }

    /** Replaces the codes by `formats`. */
    method Set(formats: seq<Code>) returns (af: ANSIFmt)
      modifies this
      ensures af == this
      ensures Sequences == formats
      ensures FormatSwitch == old(FormatSwitch)
    {
      Sequences := [];
      af := With(formats);
    }

    /** Appends `formats` to the codes. */
    method With(formats: seq<Code>) returns (af: ANSIFmt)
      modifies this
      ensures af == this
      ensures Sequences == old(Sequences) + formats
      ensures FormatSwitch == old(FormatSwitch)
    {
      Sequences := Sequences + formats;
      af := this;
    }

    /** Replaces the codes by a foreground colour from the 256-colour palette. */
    method SetFore8bitColor(n: Byte) returns (af: ANSIFmt)
      modifies this
      ensures af == this
      ensures Sequences == [38, 5, n]
      ensures FormatSwitch == old(FormatSwitch)
    {
      af := Set([Fore.Custom, Indexed, n]);
    }

    /** Appends a foreground colour from the 256-colour palette. */
    method WithFore8bitColor(n: Byte) returns (af: ANSIFmt)
      modifies this
      ensures af == this
      ensures Sequences == old(Sequences) + [38, 5, n]
      ensures FormatSwitch == old(FormatSwitch)
    {
      af := With([Fore.Custom, Indexed, n]);
    }

    /** Replaces the codes by a background colour from the 256-colour palette. */
    method SetBack8bitColor(n: Byte) returns (af: ANSIFmt)
      modifies this
      ensures af == this
      ensures Sequences == [48, 5, n]
      ensures FormatSwitch == old(FormatSwitch)
    {
      af := Set([Back.Custom, Indexed, n]);
    }

    /** Appends a background colour from the 256-colour palette. */
    method WithBack8bitColor(n: Byte) returns (af: ANSIFmt)
      modifies this
      ensures af == this
      ensures Sequences == old(Sequences) + [48, 5, n]
      ensures FormatSwitch == old(FormatSwitch)
    {
      af := With([Back.Custom, Indexed, n]);
    }

    /** Replaces the codes by a true-colour foreground. */
    method SetFore24bitColor(r: Byte, g: Byte, b: Byte) returns (af: ANSIFmt)
      modifies this
      ensures af == this
      ensures Sequences == [38, 2, r, g, b]
      ensures FormatSwitch == old(FormatSwitch)
    {
      af := Set([Fore.Custom, Direct, r, g, b]);
    }

    /** Appends a true-colour foreground. */
    method WithFore24bitColor(r: Byte, g: Byte, b: Byte) returns (af: ANSIFmt)
      modifies this
      ensures af == this
      ensures Sequences == old(Sequences) + [38, 2, r, g, b]
      ensures FormatSwitch == old(FormatSwitch)
    {
      af := With([Fore.Custom, Direct, r, g, b]);
    }

    /** Replaces the codes by a true-colour background. */
    method SetBack24bitColor(r: Byte, g: Byte, b: Byte) returns (af: ANSIFmt)
      modifies this
      ensures af == this
      ensures Sequences == [48, 2, r, g, b]
      ensures FormatSwitch == old(FormatSwitch)
    {
      af := Set([Back.Custom, Direct, r, g, b]);
    }

    /** Appends a true-colour background. */
    method WithBack24bitColor(r: Byte, g: Byte, b: Byte) returns (af: ANSIFmt)
      modifies this
      ensures af == this
      ensures Sequences == old(Sequences) + [48, 2, r, g, b]
      ensures FormatSwitch == old(FormatSwitch)
    {
      af := With([Back.Custom, Direct, r, g, b]);
    }

    /** Turns formatting off; the codes are kept. */
    method DisableFmt() returns (af: ANSIFmt)
      modifies this
      ensures af == this
      ensures !FormatSwitch
      ensures Sequences == old(Sequences)
    {
      FormatSwitch := false;
      af := this;
    }

    /** Turns formatting back on; the codes are kept. */
    method EnableFmt() returns (af: ANSIFmt)
      modifies this
      ensures af == this
      ensures FormatSwitch
      ensures Sequences == old(Sequences)
    {
      FormatSwitch := true;
      af := this;
    }

    /** Renders the codes: ESC '[' then each code in decimal, separated by ';', then 'm';
        the plain reset while formatting is off. */
    method ToString() returns (s: string)
      ensures FormatSwitch ==> s == Render(Sequences)
      ensures !FormatSwitch ==> s == ResetSeq
    {
      if !FormatSwitch {
        return ResetSeq;
      }
      s := Introducer;
      var l := |Sequences|;
      for i := 0 to l
        invariant i == 0 ==> s == Introducer
        invariant 0 < i < l ==> s == Introducer + Join(Sequences[..i]) + ";"
        invariant 0 < i == l ==> s == Introducer + Join(Sequences[..i])
      {
        if i > 0 {
          assert Sequences[..i + 1] == Sequences[..i] + [Sequences[i]];
          JoinSnoc(Sequences[..i], Sequences[i]);
        }
        s := s + Itoa(Sequences[i]);
        if i < l - 1 {
          s := s + ";";
        }
      }
      assert Sequences[..l] == Sequences;
      s := s + "m";
    }

    // ---- Sprint family: the opening sequence, the formatted content, the plain reset.

    /** `Sprint(a...)`; `content` is the text `fmt.Sprint(a...)` gives. */
    method Sprint(content: string) returns (s: string)
      ensures s == Opening() + content + ResetSeq
    {
      var opening := ToString();
      s := opening + content + ResetSeq;
    }

    /** `Sprintf(format, a...)`; `formatted` is the text `fmt.Sprintf(format, a...)` gives. */
    method Sprintf(formatted: string) returns (s: string)
      ensures s == Opening() + formatted + ResetSeq
    {
      var opening := ToString();
      s := opening + formatted + ResetSeq;
    }

    /** `Sprintln(a...)`; `line` is the text `fmt.Sprintln(a...)` gives, which ends in a newline. */
    method Sprintln(line: string) returns (s: string)
      requires |line| > 0 && line[|line| - 1] == '\n'
      ensures s == Opening() + line + ResetSeq
      ensures s[|s| - |ResetSeq| - 1] == '\n'
    {
      var opening := ToString();
      s := opening + line + ResetSeq;
    }

    // ---- Append family: the same text, as bytes, after the buffer `b`.

    /** `Append(b, a...)`; `content` is the bytes of `fmt.Sprint(a...)`. */
    method Append(b: seq<Byte>, content: seq<Byte>) returns (r: seq<Byte>)
      ensures r == b + AsciiBytes(Opening()) + content + AsciiBytes(ResetSeq)
    {
      var opening := ToString();
      r := b + AsciiBytes(opening) + content + AsciiBytes(ResetSeq);
    }

    /** `Appendf(b, format, a...)`; `formatted` is the bytes of `fmt.Sprintf(format, a...)`. */
    method Appendf(b: seq<Byte>, formatted: seq<Byte>) returns (r: seq<Byte>)
      ensures r == b + AsciiBytes(Opening()) + formatted + AsciiBytes(ResetSeq)
    {
      var opening := ToString();
      r := b + AsciiBytes(opening) + formatted + AsciiBytes(ResetSeq);
    }

    /** `Appendln(b, a...)`; `line` is the bytes of `fmt.Sprintln(a...)`, ending in a newline. */
    method Appendln(b: seq<Byte>, line: seq<Byte>) returns (r: seq<Byte>)
      requires |line| > 0 && line[|line| - 1] == '\n' as int
      ensures r == b + AsciiBytes(Opening()) + line + AsciiBytes(ResetSeq)
    {
      var opening := ToString();
      r := b + AsciiBytes(opening) + line + AsciiBytes(ResetSeq);
    }
  }

  // ---- Properties that span several calls.

  /** Two `With` calls store what one `With` of both lists stores. */
  method WithTwiceIsWithOnce(f: ANSIFmt, g: ANSIFmt, a: seq<Code>, b: seq<Code>)
    requires f != g && f.Sequences == g.Sequences && f.FormatSwitch == g.FormatSwitch
    modifies f, g
    ensures f.Sequences == g.Sequences == old(f.Sequences) + a + b
    ensures f.FormatSwitch == g.FormatSwitch == old(f.FormatSwitch)
  {
    var _ := f.With(a);
    var _ := f.With(b);
    var _ := g.With(a + b);
  }

  /** Turning formatting off and on again, with no Set or With in between, renders the
      codes stored before, from either starting state; from the enabled state that is the
      rendering from before. While off, the rendering is the plain reset. */
  method DisableThenEnable(f: ANSIFmt) returns (off: string, on: string)
    modifies f
    ensures off == ResetSeq
    ensures on == Render(old(f.Sequences))
    ensures old(f.FormatSwitch) ==> on == old(f.Opening())
    ensures f.Sequences == old(f.Sequences) && f.FormatSwitch
  {
    var _ := f.DisableFmt();
    off := f.ToString();
    var _ := f.EnableFmt();
    on := f.ToString();
  }

  /** Whatever a builder held before, `Set(cs)` leaves a rendering that depends on `cs` only;
      `Set()` with no codes renders as the plain reset. */
  method SetReplaces(before: seq<Code>, more: seq<Code>, cs: seq<Code>) returns (s: string)
    ensures s == Render(cs)
    ensures cs == [] ==> s == ResetSeq
  {
    var f := new ANSIFmt.New();
    var _ := f.Set(before);
    var _ := f.With(more);
    var _ := f.Set(cs);
    s := f.ToString();
  }

  /** With formatting off, the rendering ignores the stored codes, and the wrapped
      content sits between two plain resets. */
  method DisabledRender(cs: seq<Code>, content: string) returns (s: string, wrapped: string)
    ensures s == ResetSeq
    ensures wrapped == ResetSeq + content + ResetSeq
  {
    var f := new ANSIFmt.New();
    var _ := f.Set(cs);
    var _ := f.DisableFmt();
    s := f.ToString();
    wrapped := f.Sprint(content);
  }

  /** The first steps of the package's usage demo, with the codes the tables really hold
      (`Fore.Red` is 31), ending with `Set()`, which brings back the plain reset. */
  method BoldRedDemo() returns (bold: string, onWhite: string, plain: string)
    ensures bold == "\U{1B}[1;31m"
    ensures onWhite == "\U{1B}[1;31;47m"
    ensures plain == "\U{1B}[m"
  {
    RenderBoldRed();
    RenderBoldRedOnWhite();
    var f := new ANSIFmt.New();
    var _ := f.Set([Style.Bold, Fore.Red]);
    bold := f.ToString();
    var _ := f.With([Back.White]);
    assert f.Sequences == [1, 31, 47];
    onWhite := f.ToString();
    var _ := f.Set([]);
    plain := f.ToString();
  }

  /** The colour-helper steps of the usage demo: a true-colour foreground, then a
      palette background appended to it; each rendering decodes to the stored codes. */
  method TrueColorDemo() returns (rgbCodes: seq<Code>, rgb: string, bothCodes: seq<Code>, both: string)
    ensures rgbCodes == [38, 2, 63, 127, 191] && rgb == "\U{1B}[38;2;63;127;191m"
    ensures bothCodes == [38, 2, 63, 127, 191, 48, 5, 239]
    ensures both == "\U{1B}[38;2;63;127;191;48;5;239m"
    ensures ParseSgr(rgb) == Some(rgbCodes) && ParseSgr(both) == Some(bothCodes)
  {
    RenderTrueColor();
    RenderTrueColorOnPalette();
    DemoCodes();
    var f := new ANSIFmt.New();
    var _ := f.SetFore24bitColor(63, 127, 191);
    rgbCodes := f.Sequences;
    rgb := f.ToString();
    var _ := f.WithBack8bitColor(239);
    bothCodes := f.Sequences;
    both := f.ToString();
    ParseRender(rgbCodes);
    ParseRender(bothCodes);
  }

  /** The trace banner of the package's log example: bright blue "[TRAC]". */
  method TraceBanner() returns (banner: string)
    ensures banner == "\U{1B}[94m[TRAC]\U{1B}[m"
  {
    RenderBrightBlue();
    var f := new ANSIFmt.New();
    var _ := f.Set([Fore.BrightBlue]);
    banner := f.Sprint("[TRAC]");
  }

  /** The panic banner of the package's log example: bright red, blinking, inverted "[PANI]". */
  method PanicBanner() returns (banner: string)
    ensures banner == "\U{1B}[91;5;7m[PANI]\U{1B}[m"
  {
    RenderBlinkInvertBrightRed();
    var f := new ANSIFmt.New();
    var _ := f.Set([Fore.BrightRed, Style.SlowBlink, Style.Invert]);
    banner := f.Sprint("[PANI]");
  }

  /** A new builder set to bold red wraps "hi" between its opening and the plain reset. */
  method BoldRedHi() returns (hi: string)
    ensures hi == "\U{1B}[1;31mhi\U{1B}[m"
  {
    RenderBoldRed();
    var f := new ANSIFmt.New();
    var _ := f.Set([Style.Bold, Fore.Red]);
    hi := f.Sprint("hi");
  }
}
