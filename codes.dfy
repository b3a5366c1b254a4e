/** The static code tables of ANSIFmt: the SGR parameter values behind the
    `Style`, `Fore` and `Back` names (Select Graphic Rendition, section 8.3.117
    of ECMA-48). The tables are plain data; the one relation they carry is that
    every background colour is its foreground colour plus 10. */
module Codes {

  /** An unsigned 8-bit value (Go's `uint8`). */
  type Byte = x: int | 0 <= x < 256

  /** One SGR parameter; Go declares `type Code = uint8`. */
  type Code = Byte

  /** The `style` struct: one field per attribute name, with aliases kept. */
  datatype StyleTable = StyleTable(
    Reset: Code, Normal: Code, Plain: Code,
    Bold: Code, IncreasedIntensity: Code,
    Faint: Code, Dim: Code, DecreasedIntensity: Code,
    Italic: Code,
    Underline: Code,
    SlowBlink: Code,
    RapidBlink: Code,
    Invert: Code, ReverseVideo: Code,
    Conceal: Code, Hide: Code,
    Strike: Code, CrossedOut: Code, Delete: Code,
    PrimaryFont: Code, DefaultFont: Code,
    AlternativeFont1: Code, AlternativeFont2: Code, AlternativeFont3: Code,
    AlternativeFont4: Code, AlternativeFont5: Code, AlternativeFont6: Code,
    AlternativeFont7: Code, AlternativeFont8: Code, AlternativeFont9: Code,
    Fraktur: Code, Gothic: Code, Blackletter: Code,
    DoublyUnderlined: Code, NoBold: Code,
    NormalIntensity: Code,
    NoItalic: Code, NoFraktur: Code, NoGothic: Code, NoBlackletter: Code,
    NoUnderline: Code,
    NoBlink: Code,
    ProportionalSpacing: Code,
    NoInvert: Code, NoReverse: Code,
    NoConceal: Code, Reveal: Code,
    NoStrike: Code, NoCrossedOut: Code, NoDelete: Code,
    NoProportionalSpacing: Code,
    Frame: Code,
    Encircle: Code,
    OverLine: Code,
    NoFrame: Code, NoEncircle: Code,
    NoOverLine: Code,
    CustomUnderlineColor: Code,
    DefaultUnderlineColors: Code,
    IdeogramUnderline: Code, IdeogramRightSideLine: Code,
    IdeogramDoubleUnderline: Code, IdeogramDoubleRightSideLine: Code,
    IdeogramOverline: Code, IdeogramLeftSideLine: Code,
    IdeogramDoubleOverLine: Code, IdeogramDoubleLeftSideLine: Code,
    IdeogramStressMarking: Code,
    NoIdeogramAttribute: Code,
    Superscript: Code,
    Subscript: Code,
    NoSuperscript: Code, NoSubscript: Code)

  const Style := StyleTable(
    Reset := 0, Normal := 0, Plain := 0,
    Bold := 1, IncreasedIntensity := 1,
    Faint := 2, Dim := 2, DecreasedIntensity := 2,
    Italic := 3,
    Underline := 4,
    SlowBlink := 5,
    RapidBlink := 6,
    Invert := 7, ReverseVideo := 7,
    Conceal := 8, Hide := 8,
    Strike := 9, CrossedOut := 9, Delete := 9,
    PrimaryFont := 10, DefaultFont := 10,
    AlternativeFont1 := 11, AlternativeFont2 := 12, AlternativeFont3 := 13,
    AlternativeFont4 := 14, AlternativeFont5 := 15, AlternativeFont6 := 16,
    AlternativeFont7 := 17, AlternativeFont8 := 18, AlternativeFont9 := 19,
    Fraktur := 20, Gothic := 20, Blackletter := 20,
    DoublyUnderlined := 21, NoBold := 21,
    NormalIntensity := 22,
    NoItalic := 23, NoFraktur := 23, NoGothic := 23, NoBlackletter := 23,
    NoUnderline := 24,
    NoBlink := 25,
    ProportionalSpacing := 26,
    NoInvert := 27, NoReverse := 27,
    NoConceal := 28, Reveal := 28,
    NoStrike := 29, NoCrossedOut := 29, NoDelete := 29,
    NoProportionalSpacing := 50,
    Frame := 51,
    Encircle := 52,
    OverLine := 53,
    NoFrame := 54, NoEncircle := 54,
    NoOverLine := 55,
    CustomUnderlineColor := 58,
    DefaultUnderlineColors := 59,
    IdeogramUnderline := 60, IdeogramRightSideLine := 60,
    IdeogramDoubleUnderline := 61, IdeogramDoubleRightSideLine := 61,
    IdeogramOverline := 62, IdeogramLeftSideLine := 62,
    IdeogramDoubleOverLine := 63, IdeogramDoubleLeftSideLine := 63,
    IdeogramStressMarking := 64,
    NoIdeogramAttribute := 65,
    Superscript := 73,
    Subscript := 74,
    NoSuperscript := 75, NoSubscript := 75)

  /** The `color` struct, instantiated once for the foreground and once for the background. */
  datatype Palette = Palette(
    Black: Code, Red: Code, Green: Code, Yellow: Code,
    Blue: Code, Magenta: Code, Cyan: Code, White: Code,
    Custom: Code,   // followed by 5;n (256-colour index) or 2;r;g;b (true colour)
    Default: Code,
    BrightBlack: Code, BrightRed: Code, BrightGreen: Code, BrightYellow: Code,
    BrightBlue: Code, BrightMagenta: Code, BrightCyan: Code, BrightWhite: Code)

  const Fore := Palette(
    Black := 30, Red := 31, Green := 32, Yellow := 33,
    Blue := 34, Magenta := 35, Cyan := 36, White := 37,
    Custom := 38,
    Default := 39,
    BrightBlack := 90, BrightRed := 91, BrightGreen := 92, BrightYellow := 93,
    BrightBlue := 94, BrightMagenta := 95, BrightCyan := 96, BrightWhite := 97)

  const Back := Palette(
    Black := 40, Red := 41, Green := 42, Yellow := 43,
    Blue := 44, Magenta := 45, Cyan := 46, White := 47,
    Custom := 48,
    Default := 49,
    BrightBlack := 100, BrightRed := 101, BrightGreen := 102, BrightYellow := 103,
    BrightBlue := 104, BrightMagenta := 105, BrightCyan := 106, BrightWhite := 107)

  /** The selector that follows `Custom` for a 256-colour palette index. */
  const Indexed: Code := 5

  /** The selector that follows `Custom` for a direct r;g;b colour. */
  const Direct: Code := 2

  /** The names every palette has, so that a property can range over all of them. */
  datatype ColorName =
    | Black | Red | Green | Yellow | Blue | Magenta | Cyan | White
    | Custom | Default
    | BrightBlack | BrightRed | BrightGreen | BrightYellow
    | BrightBlue | BrightMagenta | BrightCyan | BrightWhite
  {
    predicate IsBright() {
      BrightBlack? || BrightRed? || BrightGreen? || BrightYellow? ||
      BrightBlue? || BrightMagenta? || BrightCyan? || BrightWhite?
    }
  }

  /** Field access `p.<name>` on a palette. */
  function Lookup(p: Palette, n: ColorName): Code {
    match n
    case Black => p.Black
    case Red => p.Red
    case Green => p.Green
    case Yellow => p.Yellow
    case Blue => p.Blue
    case Magenta => p.Magenta
    case Cyan => p.Cyan
    case White => p.White
    case Custom => p.Custom
    case Default => p.Default
    case BrightBlack => p.BrightBlack
    case BrightRed => p.BrightRed
    case BrightGreen => p.BrightGreen
    case BrightYellow => p.BrightYellow
    case BrightBlue => p.BrightBlue
    case BrightMagenta => p.BrightMagenta
    case BrightCyan => p.BrightCyan
    case BrightWhite => p.BrightWhite
  }

  /** Every background colour is the foreground colour of the same name plus 10;
      the eight standard colours, Custom and Default lie in 30..39 (foreground),
      the bright ones in 90..97. */
  lemma BackIsForePlusTen(n: ColorName)
    ensures Lookup(Back, n) == Lookup(Fore, n) + 10
    ensures !n.IsBright() ==> 30 <= Lookup(Fore, n) <= 39
    ensures n.IsBright() ==> 90 <= Lookup(Fore, n) <= 97
  {
  }

  /** No two colour names share a foreground code, so neither do they share a background code. */
  lemma ForeIsInjective(m: ColorName, n: ColorName)
    ensures Lookup(Fore, m) == Lookup(Fore, n) ==> m == n
    ensures Lookup(Back, m) == Lookup(Back, n) ==> m == n
  {
  }
}
