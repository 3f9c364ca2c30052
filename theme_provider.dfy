/** The theme provider: the light/dark theme and the primary colour, their defaults,
    the overrides loaded from storage and the write-back, and the `hexToRgb` decoder
    that turns the colour into the "r, g, b" text of a CSS variable. */
module Theme {
  import opened Wrappers
  import opened Text

  const DefaultTheme := "light"
  const DarkTheme := "dark"
  const DefaultPrimaryColor := "#4f46e5"
  const ThemeKey := "theme"
  const PrimaryColorKey := "primaryColor"
  const MissingProviderMessage := "useTheme must be used within a ThemeProvider"

  // ---------------------------------------------------------------------------
  // Splitting strings at a character

  /** Cuts `s` at the first `sep`: the text before it and the text after it. */
  function SplitAt(s: string, sep: char): (r: Option<(string, string)>)
    ensures r.None? <==> sep !in s
    ensures r.Some? ==> s == r.value.0 + [sep] + r.value.1 && sep !in r.value.0
  {
    if s == [] then None
    else if s[0] == sep then Some(([], s[1..]))
    else match SplitAt(s[1..], sep)
      case None => None
      case Some((before, after)) => Some(([s[0]] + before, after))
  }

  /** The cut is at the first `sep`, whatever follows it. */
  lemma {:induction false} SplitAtFirst(before: string, sep: char, after: string)
    requires sep !in before
    ensures SplitAt(before + [sep] + after, sep) == Some((before, after))
  {
    var s := before + [sep] + after;
    if before == [] {
      assert s[1..] == after;
    } else {
      assert s[0] == before[0] != sep;
      assert s[1..] == before[1..] + [sep] + after;
      assert [before[0]] + before[1..] == before;
      SplitAtFirst(before[1..], sep, after);
    }
  }

  /** A string that starts with `sep` is cut right there. */
  lemma SplitAtLeading(s: string, sep: char)
    ensures |s| > 0 && s[0] == sep ==> SplitAt(s, sep) == Some(([], s[1..]))
  {
    if |s| > 0 && s[0] == sep {
      assert s == [] + [sep] + s[1..];
      SplitAtFirst([], sep, s[1..]);
    }
  }

  /** `s.replace(c, "")` with a one-character string pattern: only the first `c` goes. */
  function RemoveFirst(s: string, c: char): (r: string)
    ensures c !in s ==> r == s
    ensures c in s ==> |r| == |s| - 1
    ensures |s| > 0 && s[0] == c ==> r == s[1..]
  {
    SplitAtLeading(s, c);
    match SplitAt(s, c)
    case None => s
    case Some((before, after)) => before + after
  }

  /** Wherever the first `c` stands, exactly that occurrence is cut out. */
  lemma RemoveFirstCut(before: string, c: char, after: string)
    requires c !in before
    ensures RemoveFirst(before + [c] + after, c) == before + after
  {
    SplitAtFirst(before, c, after);
  }

  // ---------------------------------------------------------------------------
  // Hexadecimal and decimal digits

  predicate IsHexDigit(c: char) {
    ('0' <= c <= '9') || ('a' <= c <= 'f') || ('A' <= c <= 'F')
  }

  function HexDigitValue(c: char): (v: nat)
    requires IsHexDigit(c)
    ensures v < 16
  {
    if '0' <= c <= '9' then c as int - '0' as int
    else if 'a' <= c <= 'f' then c as int - 'a' as int + 10
    else c as int - 'A' as int + 10
  }

  /** The lower-case digit of a value below 16. */
  function HexDigitChar(v: nat): (c: char)
    requires v < 16
    ensures IsHexDigit(c) && HexDigitValue(c) == v && c != '#'
  {
    if v < 10 then ('0' as int + v) as char else ('a' as int + v - 10) as char
  }

  /** `Number.parseInt(s, 16)` on a string of hex digits. */
  function ParseHex(s: string): nat
    requires forall i :: 0 <= i < |s| ==> IsHexDigit(s[i])
  {
    if s == [] then 0 else 16 * ParseHex(s[..|s| - 1]) + HexDigitValue(s[|s| - 1])
  }

  /** Two hex digits are a byte: the first counts sixteens, the second ones. */
  lemma ParseHexPair(s: string)
    requires |s| == 2 && IsHexDigit(s[0]) && IsHexDigit(s[1])
    ensures ParseHex(s) == 16 * HexDigitValue(s[0]) + HexDigitValue(s[1]) < 256
  {
    assert s[..1][..0] == [];
    assert s[..1][0] == s[0];
    assert ParseHex(s[..1]) == HexDigitValue(s[0]);
  }

  /** The decimal digit of a value below 10. */
  function DigitChar(v: nat): (c: char)
    requires v < 10
    ensures IsDigit(c) && DigitValue(c) == v
  {
    ('0' as int + v) as char
  }

  /** A number as JavaScript's template literals print an integer: decimal, no leading zero. */
  function NatToDecimal(n: nat): (r: string)
    ensures |r| >= 1
    ensures forall i :: 0 <= i < |r| ==> IsDigit(r[i])
    ensures r[0] == '0' <==> n == 0
    ensures r[0] == '0' ==> |r| == 1
  {
    if n < 10 then [DigitChar(n)] else NatToDecimal(n / 10) + [DigitChar(n % 10)]
  }

  /** The value of a string of decimal digits. */
  function ParseDecimal(s: string): nat
    requires forall i :: 0 <= i < |s| ==> IsDigit(s[i])
  {
    if s == [] then 0 else 10 * ParseDecimal(s[..|s| - 1]) + DigitValue(s[|s| - 1])
  }

  /** Printing a number and reading it back gives the number. */
  lemma {:induction false} DecimalRoundTrip(n: nat)
    ensures ParseDecimal(NatToDecimal(n)) == n
  {
    var r := NatToDecimal(n);
    if n < 10 {
      assert r[..0] == [];
    } else {
      assert r[..|r| - 1] == NatToDecimal(n / 10);
      DecimalRoundTrip(n / 10);
    }
  }

  // ---------------------------------------------------------------------------
  // hexToRgb

  datatype Rgb = Rgb(red: nat, green: nat, blue: nat)

  predicate IsColor(c: Rgb) {
    c.red < 256 && c.green < 256 && c.blue < 256
  }

  /** The colours `hexToRgb` can read: after the first '#' is removed, six hex digits
      lead the string (anything after them is ignored by `substring`). */
  predicate WellFormedHex(hex: string) {
    var h := RemoveFirst(hex, '#');
    |h| >= 6 && forall i :: 0 <= i < 6 ==> IsHexDigit(h[i])
  }

  /** The three `parseInt(hex.substring(k, k + 2), 16)` readings of `hexToRgb`. */
  function DecodeHexColor(hex: string): (c: Rgb)
    requires WellFormedHex(hex)
    ensures IsColor(c)
  {
    var h := RemoveFirst(hex, '#');
    ParseHexPair(h[0..2]);
    ParseHexPair(h[2..4]);
    ParseHexPair(h[4..6]);
    Rgb(ParseHex(h[0..2]), ParseHex(h[2..4]), ParseHex(h[4..6]))
  }

  /** The template literal `${r}, ${g}, ${b}` (read back by `FormatRgbRoundTrip`). */
  function FormatRgb(c: Rgb): string {
    NatToDecimal(c.red) + ", " + NatToDecimal(c.green) + ", " + NatToDecimal(c.blue)
  }

  /** `hexToRgb`: the decoded colour, written so that it reads back as that colour. */
  function HexToRgb(hex: string): (r: string)
    requires WellFormedHex(hex)
    ensures ParseRgb(r) == Some(DecodeHexColor(hex))
  {
    FormatRgbRoundTrip(DecodeHexColor(hex));
    FormatRgb(DecodeHexColor(hex))
  }

  predicate IsDecimal(s: string) {
    |s| > 0 && forall i :: 0 <= i < |s| ==> IsDigit(s[i])
  }

  /** Reads one field of the "r, g, b" text: what precedes the first ',' and what follows
      the ", " after it. */
  function ReadField(s: string): Option<(string, string)> {
    match SplitAt(s, ',')
    case None => None
    case Some((field, rest)) =>
      if rest == [] || rest[0] != ' ' then None else Some((field, rest[1..]))
  }

  /** How a reader of the "r, g, b" text takes it apart again. */
  function ParseRgb(s: string): Option<Rgb> {
    match ReadField(s)
    case None => None
    case Some((red, rest)) =>
      match ReadField(rest)
      case None => None
      case Some((green, blue)) =>
        if IsDecimal(red) && IsDecimal(green) && IsDecimal(blue)
        then Some(Rgb(ParseDecimal(red), ParseDecimal(green), ParseDecimal(blue)))
        else None
  }

  /** A numeral followed by ", " is read as one field. */
  lemma ReadNumeral(n: string, rest: string)
    requires IsDecimal(n)
    ensures ReadField(n + ", " + rest) == Some((n, rest))
  {
    assert ',' !in n;
    assert n + ", " + rest == n + [','] + (" " + rest);
    SplitAtFirst(n, ',', " " + rest);
    assert (" " + rest)[1..] == rest;
  }

  /** Three decimal numerals joined by ", " are read back one by one. */
  lemma ParseRgbJoined(r: string, g: string, b: string)
    requires IsDecimal(r) && IsDecimal(g) && IsDecimal(b)
    ensures ParseRgb(r + ", " + g + ", " + b) == Some(Rgb(ParseDecimal(r), ParseDecimal(g), ParseDecimal(b)))
  {
    var tail := g + ", " + b;
    assert r + ", " + g + ", " + b == r + ", " + tail;
    ReadNumeral(r, tail);
    ReadNumeral(g, b);
  }

  /** The "r, g, b" text carries exactly the three numbers. */
  lemma FormatRgbRoundTrip(c: Rgb)
    ensures ParseRgb(FormatRgb(c)) == Some(c)
  {
    ParseRgbJoined(NatToDecimal(c.red), NatToDecimal(c.green), NatToDecimal(c.blue));
    DecimalRoundTrip(c.red);
    DecimalRoundTrip(c.green);
    DecimalRoundTrip(c.blue);
  }

  /** The three channels are the values of the character pairs 0-1, 2-3 and 4-5 left
      after the first '#' is removed. */
  lemma DecodeReadsPairs(hex: string)
    requires WellFormedHex(hex)
    ensures var h := RemoveFirst(hex, '#');
      DecodeHexColor(hex) == Rgb(
        16 * HexDigitValue(h[0]) + HexDigitValue(h[1]),
        16 * HexDigitValue(h[2]) + HexDigitValue(h[3]),
        16 * HexDigitValue(h[4]) + HexDigitValue(h[5]))
  {
    var h := RemoveFirst(hex, '#');
    assert IsHexDigit(h[0]) && IsHexDigit(h[1]) && IsHexDigit(h[2]);
    assert IsHexDigit(h[3]) && IsHexDigit(h[4]) && IsHexDigit(h[5]);
    PairValue(h, 0);
    PairValue(h, 2);
    PairValue(h, 4);
  }

  /** The pair of hex digits at `k` parses to `16 * hi + lo`. */
  lemma PairValue(h: string, k: nat)
    requires k + 2 <= |h| && IsHexDigit(h[k]) && IsHexDigit(h[k + 1])
    ensures ParseHex(h[k..k + 2]) == 16 * HexDigitValue(h[k]) + HexDigitValue(h[k + 1])
  {
    var p := h[k..k + 2];
    assert p[0] == h[k] && p[1] == h[k + 1];
    ParseHexPair(p);
  }

  /** `hexToRgb` is the template literal of the values of the character pairs 0-1, 2-3 and
      4-5 of the colour (after its first '#' is removed), each a byte, and reads back as them. */
  lemma HexToRgbReadsPairs(hex: string)
    requires WellFormedHex(hex)
    ensures var h := RemoveFirst(hex, '#');
      var c := Rgb(
        16 * HexDigitValue(h[0]) + HexDigitValue(h[1]),
        16 * HexDigitValue(h[2]) + HexDigitValue(h[3]),
        16 * HexDigitValue(h[4]) + HexDigitValue(h[5]));
      HexToRgb(hex) == FormatRgb(c) && ParseRgb(HexToRgb(hex)) == Some(c)
  {
    DecodeReadsPairs(hex);
  }

  /** Two lower-case hex digits for a byte, as `#rrggbb` colours write it; they parse back
      to the byte. */
  function HexByte(v: nat): (r: string)
    requires v < 256
    ensures |r| == 2 && IsHexDigit(r[0]) && IsHexDigit(r[1]) && '#' !in r
    ensures ParseHex(r) == v
  {
    var r := [HexDigitChar(v / 16), HexDigitChar(v % 16)];
    ParseHexPair(r);
    r
  }

  /** The `#rrggbb` spelling of a colour. */
  function EncodeHexColor(c: Rgb): (hex: string)
    requires IsColor(c)
    ensures |hex| == 7 && hex[0] == '#'
  {
    "#" + HexByte(c.red) + HexByte(c.green) + HexByte(c.blue)
  }

  /** `hexToRgb` reads back the colour of any `#rrggbb` string, with or without its '#'. */
  lemma HexColorRoundTrip(c: Rgb)
    requires IsColor(c)
    ensures WellFormedHex(EncodeHexColor(c)) && DecodeHexColor(EncodeHexColor(c)) == c
    ensures WellFormedHex(EncodeHexColor(c)[1..]) && DecodeHexColor(EncodeHexColor(c)[1..]) == c
  {
    var hex := EncodeHexColor(c);
    var r, g, b := HexByte(c.red), HexByte(c.green), HexByte(c.blue);
    var h := hex[1..];
    assert h == r + g + b;
    assert h[0..2] == r && h[2..4] == g && h[4..6] == b;
    assert '#' !in h;
    assert RemoveFirst(h, '#') == h;
    assert RemoveFirst(hex, '#') == h;
  }

  /** Only a first '#' is removed, so the leading '#' is optional. */
  lemma HashIsOptional(h: string)
    requires '#' !in h && WellFormedHex(h)
    ensures WellFormedHex("#" + h) && HexToRgb("#" + h) == HexToRgb(h)
  {
    assert RemoveFirst("#" + h, '#') == ("#" + h)[1..] == h;
  }

  // ---------------------------------------------------------------------------
  // The provider

  /** The stored value replaces the current one when it is present and not empty. */
  function Preference(stored: Option<string>, current: string): (r: string)
    ensures stored.Some? && stored.value != "" ==> r == stored.value
    ensures stored.None? || stored.value == "" ==> r == current
  {
    if stored.Some? && stored.value != "" then stored.value else current
  }

  /** What the context hands to `useTheme` callers (the setters are the methods below). */
  datatype ThemeContext = ThemeContext(theme: string, primaryColor: string)

  /** `useTheme`. */
  function UseTheme(context: Option<ThemeContext>): (r: Result<ThemeContext, string>)
    ensures r.Failure? <==> context.None?
    ensures r.Failure? ==> r.error == MissingProviderMessage
    ensures r.Success? ==> r.value == context.value
  {
    RequireContext(context, MissingProviderMessage)
  }

  /** Written back and then read on the next visit, a non-empty theme and colour come back. */
  lemma PreferencesSurviveReload(storage: map<string, string>, theme: string, color: string)
    requires theme != "" && color != ""
    ensures var saved := storage[ThemeKey := theme][PrimaryColorKey := color];
      Preference(Lookup(saved, ThemeKey), DefaultTheme) == theme &&
      Preference(Lookup(saved, PrimaryColorKey), DefaultPrimaryColor) == color
  {
  }

  /** The state of `ThemeProvider`, the two storage entries it owns and the `dark` class of
      the root element. */
  class ThemeProvider {
    var theme: string
    var primaryColor: string
    var storage: map<string, string>
    var darkClass: bool

    /** Storage and the root element agree with the state, as after every run of the
        write-back effect. */
    ghost predicate Synced()
      reads this
    {
      && Lookup(storage, ThemeKey) == Some(theme)
      && Lookup(storage, PrimaryColorKey) == Some(primaryColor)
      && (darkClass <==> theme == DarkTheme)
    }

    constructor (storage: map<string, string>, darkClass: bool)
      ensures theme == DefaultTheme && primaryColor == DefaultPrimaryColor
      ensures this.storage == storage && this.darkClass == darkClass
    {
      theme := DefaultTheme;
      primaryColor := DefaultPrimaryColor;
      this.storage := storage;
      this.darkClass := darkClass;
    }

    /** The effect that runs whenever theme or colour change. */
    method WriteBack()
      modifies this`storage, this`darkClass
      ensures storage == old(storage)[ThemeKey := theme][PrimaryColorKey := primaryColor]
      ensures darkClass <==> theme == DarkTheme
      ensures Synced()
    {
      storage := storage[ThemeKey := theme];
      storage := storage[PrimaryColorKey := primaryColor];
      darkClass := theme == DarkTheme;
    }

    /** The first render's effects: stored preferences override the defaults, then the
        write-back runs. */
    method Mount()
      modifies this
      ensures theme == Preference(Lookup(old(storage), ThemeKey), old(theme))
      ensures primaryColor == Preference(Lookup(old(storage), PrimaryColorKey), old(primaryColor))
      ensures storage == old(storage)[ThemeKey := theme][PrimaryColorKey := primaryColor]
      ensures Synced()
    {
      var storedTheme := Lookup(storage, ThemeKey);
      var storedPrimaryColor := Lookup(storage, PrimaryColorKey);
      if storedTheme.Some? && storedTheme.value != "" {
        theme := storedTheme.value;
      }
      if storedPrimaryColor.Some? && storedPrimaryColor.value != "" {
        primaryColor := storedPrimaryColor.value;
      }
      WriteBack();
    }

    /** `setTheme`, followed by the write-back. */
    method SetTheme(t: string)
      modifies this
      ensures theme == t && primaryColor == old(primaryColor)
      ensures storage == old(storage)[ThemeKey := t][PrimaryColorKey := primaryColor]
      ensures Synced()
    {
      theme := t;
      WriteBack();
    }

    /** `setPrimaryColor`, followed by the write-back. */
    method SetPrimaryColor(color: string)
      modifies this
      ensures primaryColor == color && theme == old(theme)
      ensures storage == old(storage)[ThemeKey := theme][PrimaryColorKey := color]
      ensures Synced()
    {
      primaryColor := color;
      WriteBack();
    }
  }
}
