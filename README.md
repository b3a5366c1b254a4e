# ANSIFmt in Dafny

A model of the Go package ANSIFmt. It is a builder for terminal text styling: it holds an ordered list of 8-bit SGR codes and an on/off switch. It renders that list as an SGR control sequence: ESC `[`, the codes in decimal separated by `;`, then `m`. SGR is Select Graphic Rendition, section 8.3.117 of ECMA-48; the parameter-string grammar is section 5.4. It wraps caller content between that sequence and the plain reset ESC `[` `m`.

Modules, one per component:

- `Codes` (`codes.dfy`): the 8-bit `Code` type and the static tables. `Style` has every attribute name, aliases included. `Fore` and `Back` are the two colour palettes. Also the `5` (palette index) and `2` (r;g;b) selectors that follow `Custom`.
- `Decimal` (`decimal.dfy`): `Itoa`, the decimal form `strconv.Itoa` gives a non-negative value, and `Value`, which reads it back.
- `Sgr` (`sgr.dfy`): the pure specification of the escape sequence.
  - `Join` writes the codes in decimal, separated by `;`.
  - `Render` adds the introducer and the final `m`.
  - `ParseSgr` is a decoder, used as the independent partner of `Render`: decoding a rendering returns the codes it came from.
- `AnsiFmt` (`ansifmt.dfy`): the `ANSIFmt` class.
  - Its fields are `Sequences: seq<Code>` and `FormatSwitch: bool`.
  - Its methods update those fields in place and return the builder itself, as the Go methods do for chaining.
  - `ToString` builds the string in a loop, as the source does, and is proved equal to `Render` (or to the plain reset while formatting is off).
  - The `Sprint*` and `Append*` wrappers come next, then methods that chain several calls.

Formatted content is an input. The text `fmt.Sprint`, `fmt.Sprintf` or `fmt.Sprintln` would produce is passed in as a string for `Sprint*`, or as bytes for `Append*`.

The usage demo's comments (ANSIFmt_test.go:22-27) say `Set(Style.Bold, Fore.Red)` stores `[1, 35]` and renders `1;35` and `1;35;47`. The table gives `Fore.Red` as 31 (ANSIFmt.go:155), so the model follows the table: `[1, 31]`, `ESC[1;31m`, `ESC[1;31;47m`.

## Model

| member | source | states |
|---|---|---|
| `Codes.BackIsForePlusTen` | ANSIFmt.go:153-198 | for every colour name, the background code is the foreground code plus 10; standard colours, Custom and Default are in 30..39, bright colours in 90..97 |
| `Codes.ForeIsInjective` | ANSIFmt.go:153-198 | no two colour names share a foreground code or a background code |
| `Decimal.Itoa` | ANSIFmt.go:289 | the decimal form of a code is non-empty and all digits, and starts with '0' exactly when the value is 0 (no leading zeros) |
| `Decimal.ValueOfItoa` | ANSIFmt.go:289 | reading back the decimal form of n gives n |
| `Decimal.ItoaInjective` | ANSIFmt.go:289 | distinct values have distinct decimal forms |
| `Decimal.ItoaWidth` | ANSIFmt.go:9 | an 8-bit code takes 1 digit below 10, 2 below 100, otherwise 3 |
| `Sgr.Join` | ANSIFmt.go:288-293 | the parameter text is empty exactly when there are no codes, and holds only digits and ';' |
| `Sgr.JoinSnoc` | ANSIFmt.go:288-293 | one more code appends ';' and its decimal form: the step the loop takes |
| `Sgr.JoinAppend` | ANSIFmt.go:216-219 | the parameters of two appended non-empty lists are each list's parameters joined by one ';' |
| `Sgr.JoinSemicolons` | ANSIFmt.go:290-292 | a non-empty list's parameter text has exactly one ';' fewer than there are codes |
| `Sgr.RenderSemicolons` | ANSIFmt.go:286-295 | a rendered non-empty list has exactly one ';' fewer than there are codes |
| `Sgr.JoinLength` | ANSIFmt.go:288-293 | n codes give between 2n-1 and 4n-1 parameter characters |
| `Sgr.RenderIsAscii` | ANSIFmt.go:286-295 | every rendered sequence is seven-bit text |
| `Sgr.ParseJoin` | ANSIFmt.go:288-293 | decoding the parameter text of a non-empty list returns that list |
| `Sgr.ParseRender` | ANSIFmt.go:286-295 | decoding a rendered sequence returns exactly the codes, in stored order |
| `Sgr.RenderInjective` | ANSIFmt.go:286-295 | two code lists render alike only when they are equal |
| `Sgr.RenderEmpty` | ANSIFmt.go:94-96 | the empty list renders as the plain reset ESC '[' 'm' |
| `Sgr.RenderBoldRed` | ANSIFmt_test.go:21-23 | bold plus Fore.Red, [1, 31], renders as ESC[1;31m |
| `Sgr.RenderBoldRedOnWhite` | ANSIFmt_test.go:26-27 | [1, 31, 47] renders as ESC[1;31;47m |
| `Sgr.RenderBrightBlue` | ANSIFmt_test.go:80-82 | [94] renders as ESC[94m |
| `Sgr.RenderBlinkInvertBrightRed` | ANSIFmt_test.go:98-100 | [91, 5, 7] renders as ESC[91;5;7m |
| `Sgr.JoinThree` | ANSIFmt.go:288-293 | the parameters of a three-code list are the three decimal forms separated by ';' |
| `Sgr.JoinFive` | ANSIFmt.go:288-293 | the parameters of a five-code list are its first two decimal forms, each followed by ';', and then the parameters of the last three |
| `Sgr.JoinTrueColor` | ANSIFmt_test.go:30 | the codes [38, 2, 63, 127, 191] give the parameter text 38;2;63;127;191 |
| `Sgr.JoinPaletteBack` | ANSIFmt_test.go:34 | the codes [48, 5, 239] give the parameter text 48;5;239 |
| `Sgr.RenderTrueColor` | ANSIFmt_test.go:30-31 | [38, 2, 63, 127, 191] renders as ESC[38;2;63;127;191m |
| `Sgr.RenderTrueColorOnPalette` | ANSIFmt_test.go:34-35 | [38, 2, 63, 127, 191, 48, 5, 239] renders as ESC[38;2;63;127;191;48;5;239m |
| `AnsiFmt.ANSIFmt.New` | ANSIFmt.go:202-207 | a new builder has no codes and formatting on |
| `AnsiFmt.ANSIFmt.Opening` | ANSIFmt.go:282-295 | the opening sequence is ASCII; it decodes to the stored codes while formatting is on, and to no codes while it is off |
| `AnsiFmt.ANSIFmt.Set` | ANSIFmt.go:210-213 | the codes become exactly the given list, whatever was stored; the switch is unchanged; returns the builder |
| `AnsiFmt.ANSIFmt.With` | ANSIFmt.go:216-219 | the codes become the old codes followed by the given list; the switch is unchanged; returns the builder |
| `AnsiFmt.ANSIFmt.SetFore8bitColor` | ANSIFmt.go:224-226 | the codes become exactly [38, 5, n] |
| `AnsiFmt.ANSIFmt.WithFore8bitColor` | ANSIFmt.go:231-233 | [38, 5, n] is appended to the old codes |
| `AnsiFmt.ANSIFmt.SetBack8bitColor` | ANSIFmt.go:238-240 | the codes become exactly [48, 5, n] |
| `AnsiFmt.ANSIFmt.WithBack8bitColor` | ANSIFmt.go:245-247 | [48, 5, n] is appended to the old codes |
| `AnsiFmt.ANSIFmt.SetFore24bitColor` | ANSIFmt.go:250-252 | the codes become exactly [38, 2, r, g, b] |
| `AnsiFmt.ANSIFmt.WithFore24bitColor` | ANSIFmt.go:255-257 | [38, 2, r, g, b] is appended to the old codes |
| `AnsiFmt.ANSIFmt.SetBack24bitColor` | ANSIFmt.go:260-262 | the codes become exactly [48, 2, r, g, b] |
| `AnsiFmt.ANSIFmt.WithBack24bitColor` | ANSIFmt.go:265-267 | [48, 2, r, g, b] is appended to the old codes |
| `AnsiFmt.ANSIFmt.DisableFmt` | ANSIFmt.go:270-273 | formatting is off and the codes are untouched |
| `AnsiFmt.ANSIFmt.EnableFmt` | ANSIFmt.go:276-279 | formatting is on and the codes are untouched |
| `AnsiFmt.ANSIFmt.ToString` | ANSIFmt.go:282-296 | with formatting on, the loop's result is ESC '[' + the codes in decimal joined by ';' + 'm'; with it off, exactly the plain reset |
| `AnsiFmt.ANSIFmt.Sprintf` | ANSIFmt.go:318-320 | the result is the opening sequence, the formatted text unchanged, then the plain reset |
| `AnsiFmt.ANSIFmt.Sprint` | ANSIFmt.go:323-325 | the result is the opening sequence, the content unchanged, then the plain reset |
| `AnsiFmt.ANSIFmt.Sprintln` | ANSIFmt.go:328-330 | the same for a line, so the character just before the closing reset is the newline |
| `AnsiFmt.ANSIFmt.Appendf` | ANSIFmt.go:352-354 | the result is the buffer, then the bytes of the opening, the formatted bytes and the bytes of the reset |
| `AnsiFmt.ANSIFmt.Append` | ANSIFmt.go:357-359 | the result is the buffer, then the bytes of the opening, the content bytes and the bytes of the reset |
| `AnsiFmt.ANSIFmt.Appendln` | ANSIFmt.go:362-364 | the result is the buffer, then the bytes of the opening, the line's bytes (ending in a newline) and the bytes of the reset |
| `AnsiFmt.WithTwiceIsWithOnce` | ANSIFmt.go:216-219 | With(a) then With(b) stores what one With(a + b) stores, from the same starting state |
| `AnsiFmt.DisableThenEnable` | ANSIFmt.go:270-285 | while disabled the rendering is the plain reset; enabling again with no Set or With in between renders the codes stored before, from either starting state, and so gives back the rendering from before when formatting was on |
| `AnsiFmt.SetReplaces` | ANSIFmt.go:210-213 | after any earlier Set and With, Set(cs) renders as Render(cs); Set() renders as the plain reset |
| `AnsiFmt.DisabledRender` | ANSIFmt.go:282-285 | with formatting off, the stored codes are ignored and content sits between two plain resets |
| `AnsiFmt.BoldRedDemo` | ANSIFmt_test.go:20-41 | the usage demo's bold red, bold red on white and Set() renderings, as literal strings |
| `AnsiFmt.TrueColorDemo` | ANSIFmt_test.go:30-35 | SetFore24bitColor(63, 127, 191) stores [38, 2, 63, 127, 191] and renders as ESC[38;2;63;127;191m; WithBack8bitColor(239) then stores [38, 2, 63, 127, 191, 48, 5, 239] and renders as ESC[38;2;63;127;191;48;5;239m; each rendering decodes back to the stored codes |
| `AnsiFmt.TraceBanner` | ANSIFmt_test.go:80-82 | the trace banner is ESC[94m[TRAC]ESC[m |
| `AnsiFmt.PanicBanner` | ANSIFmt_test.go:98-100 | the panic banner is ESC[91;5;7m[PANI]ESC[m |
| `AnsiFmt.BoldRedHi` | ANSIFmt.go:323-325 | a builder set to bold red wraps "hi" as ESC[1;31mhiESC[m |

## Left out

- `Print`, `Printf`, `Println`, `Fprint`, `Fprintf`, `Fprintln` (ANSIFmt.go:301-347): they write to standard output or an `io.Writer`. That is I/O, and the byte count and error they return come from the destination. The text they write is what `Sprint`, `Sprintf` and `Sprintln` return.
- Go's formatting of `...any` arguments (`fmt.Sprint`, `fmt.Sprintf`, `fmt.Sprintln`): this is a foreign library. The formatted content is an opaque input.
- AnsiFmt.ANSIFmt.Sprintln: requires its content to end in a newline. That is what `fmt.Sprintln` guarantees, not something the Go method checks.
- AnsiFmt.ANSIFmt.Appendln: requires its content to end in a newline byte, for the same reason.
- Append* content: `Append*` takes the content as bytes, because `fmt.Append` appends the bytes of a Go string. The rendered sequences are ASCII, so their bytes are their characters.
- Go slices: `New` stores a nil slice where the model stores `[]`; both have length 0 and render alike. Copies of a builder struct can share a slice's backing array; this aliasing is not modelled.
- Append* buffers: `fmt.Append` may write into spare capacity of the caller's `b`, which other slices over the same backing array then see. The model treats `b` as a value and returns the extended sequence, so that sharing is not modelled.
- The `Style` table (ANSIFmt.go:100-152) is declared as data only. It has no relation to prove beyond its values.
- `Style`, `Fore` and `Back` are exported package variables (ANSIFmt.go:99-199), so an importer could reassign them. The model declares them as constants: the tables are treated as never reassigned, as the design intends. The colour helpers do not depend on this, because they use the literals 38 and 48 (ANSIFmt.go:225-266).
- Concurrent use of one builder, how a terminal interprets the codes, and display width are not modelled. The model only produces strings.
- The logrus log formatter in ANSIFmt_test.go:54-76 is third-party and I/O. Only its banner strings are used.
