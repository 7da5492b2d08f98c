/** The colour-theme preview script (src/apps/reachy-remix/archive/quick_theme_test.py):
    the theme table, `hex_to_rgb`, and the split of the table into light and
    dark themes. */
module Theme {
  import opened Util

  // ---------------------------------------------------------------------
  // hex_to_rgb

  predicate IsHexDigit(c: char)
  {
    '0' <= c <= '9' || 'a' <= c <= 'f' || 'A' <= c <= 'F'
  }

  function HexValue(c: char): (v: nat)
    requires IsHexDigit(c)
    ensures v < 16
  {
    if '0' <= c <= '9' then c as int - '0' as int
    else if 'a' <= c <= 'f' then c as int - 'a' as int + 10
    else c as int - 'A' as int + 10
  }

  /** `str.strip()` on a string of at most two characters. */
  function StripShort(s: string): (r: string)
    requires |s| <= 2
    ensures |r| <= |s|
    ensures |r| > 0 ==> !IsSpace(r[0]) && !IsSpace(r[|r| - 1])
  {
    if |s| == 0 then s
    else if |s| == 1 then (if IsSpace(s[0]) then [] else s)
    else if IsSpace(s[0]) && IsSpace(s[1]) then []
    else if IsSpace(s[0]) then [s[1]]
    else if IsSpace(s[1]) then [s[0]]
    else s
  }

  lemma HexDigitNotSpace(c: char)
    requires IsHexDigit(c)
    ensures !IsSpace(c) && c != '+' && c != '-'
  {
  }

  /** `int(s, 16)` for the strings of at most two characters that
      `hex_to_rgb` passes it: surrounding white space is ignored, a single
      sign may precede one digit, and anything else (the empty string, a
      lone sign, an "0x" prefix with no digits after it) raises ValueError. */
  function IntBase16(s: string): (r: Result<int>)
    requires |s| <= 2
    ensures |s| == 0 ==> r.Err?
    ensures r.Ok? ==> -15 <= r.value <= 255
  {
    var t := StripShort(s);
    if |t| == 1 && IsHexDigit(t[0]) then Ok(HexValue(t[0]))
    else if |t| == 2 && IsHexDigit(t[0]) && IsHexDigit(t[1]) then
      Ok(16 * HexValue(t[0]) + HexValue(t[1]))
    else if |t| == 2 && t[0] == '+' && IsHexDigit(t[1]) then Ok(HexValue(t[1]))
    else if |t| == 2 && t[0] == '-' && IsHexDigit(t[1]) then Ok(-(HexValue(t[1]) as int))
    else Err("invalid literal for int() with base 16: '" + s + "'")
  }

  /** The parse of one pair: two hex digits, the form of every colour in the
      theme table, are read directly, anything else as IntBase16 reads it;
      ParseHexPairIsInt shows that this is `int(s, 16)` on every pair. */
  function ParseHexPair(s: string): (r: Result<int>)
    requires |s| <= 2
    ensures |s| == 0 ==> r.Err?
    ensures r.Ok? ==> -15 <= r.value <= 255
  {
    if |s| == 2 && IsHexDigit(s[0]) && IsHexDigit(s[1]) then Ok(16 * HexValue(s[0]) + HexValue(s[1]))
    else IntBase16(s)
  }

  lemma ParseHexPairIsInt(s: string)
    requires |s| <= 2
    ensures ParseHexPair(s) == IntBase16(s)
  {
    if |s| == 2 && IsHexDigit(s[0]) && IsHexDigit(s[1]) {
      HexDigitNotSpace(s[0]);
      HexDigitNotSpace(s[1]);
      assert StripShort(s) == s;
    }
  }

  /** `int(s, 16)` reads two hex digits as their base-16 value, in [0, 255]. */
  lemma ParseTwoDigits(a: char, b: char)
    requires IsHexDigit(a) && IsHexDigit(b)
    ensures IntBase16([a, b]) == Ok(16 * HexValue(a) + HexValue(b))
    ensures 0 <= 16 * HexValue(a) + HexValue(b) <= 255
  {
    ParseHexPairIsInt([a, b]);
  }

  /** `str.lstrip('#')`: every leading '#' goes. */
  function StripHashes(s: string): (r: string)
    ensures |r| <= |s|
    ensures |r| > 0 ==> r[0] != '#'
  {
    if |s| > 0 && s[0] == '#' then StripHashes(s[1..]) else s
  }

  /** Python's slice `s[i:i+2]`, which is cut short at the end of `s`. */
  function Pair(s: string, i: nat): (p: string)
    ensures |p| <= 2
    ensures i + 2 <= |s| ==> p == s[i..i + 2]
    ensures i + 1 >= |s| ==> |p| < 2
  {
    if i >= |s| then [] else if i + 2 <= |s| then s[i..i + 2] else s[i..]
  }

  datatype Rgb = Rgb(r: int, g: int, b: int)

  /** `hex_to_rgb`: drop the leading '#'s, then parse the pairs at 0, 2, 4;
      the first pair that does not parse raises. */
  function HexToRgb(color: string): (res: Result<Rgb>)
    ensures |StripHashes(color)| < 5 ==> res.Err?
  {
    PairsToRgb(StripHashes(color))
  }

  function PairsToRgb(h: string): (res: Result<Rgb>)
    ensures |h| < 5 ==> res.Err?
  {
    var red := ParseHexPair(Pair(h, 0));
    var green := ParseHexPair(Pair(h, 2));
    var blue := ParseHexPair(Pair(h, 4));
    if red.Err? then Err(red.message)
    else if green.Err? then Err(green.message)
    else if blue.Err? then Err(blue.message)
    else Ok(Rgb(red.value, green.value, blue.value))
  }

  predicate IsHexColor(s: string)
  {
    |s| >= 6 && forall i :: 0 <= i < 6 ==> IsHexDigit(s[i])
  }

  /** On a colour written as six hex digits (after any number of leading
      '#'), the three channels are the values of the three digit pairs, each
      in [0, 255]; anything after the sixth digit is ignored. */
  lemma HexToRgbChannels(color: string)
    requires IsHexColor(StripHashes(color))
    ensures var h := StripHashes(color);
      HexToRgb(color) == Ok(Rgb(16 * HexValue(h[0]) + HexValue(h[1]),
                                16 * HexValue(h[2]) + HexValue(h[3]),
                                16 * HexValue(h[4]) + HexValue(h[5])))
    ensures HexToRgb(color).Ok? && InByteRange(HexToRgb(color).value)
  {
    var h := StripHashes(color);
    PairsChannels(h);
    assert HexToRgb(color) == PairsToRgb(h);
  }

  predicate InByteRange(c: Rgb)
  {
    0 <= c.r <= 255 && 0 <= c.g <= 255 && 0 <= c.b <= 255
  }

  lemma PairsChannels(h: string)
    requires IsHexColor(h)
    ensures PairsToRgb(h) == Ok(Rgb(16 * HexValue(h[0]) + HexValue(h[1]),
                                    16 * HexValue(h[2]) + HexValue(h[3]),
                                    16 * HexValue(h[4]) + HexValue(h[5])))
    ensures PairsToRgb(h).Ok? && InByteRange(PairsToRgb(h).value)
  {
    PairParses(h, 0);
    PairParses(h, 2);
    PairParses(h, 4);
  }

  /** The pair at i of a string of hex digits parses to its base-16 value. */
  lemma PairParses(h: string, i: nat)
    requires i + 2 <= |h| && IsHexDigit(h[i]) && IsHexDigit(h[i + 1])
    ensures ParseHexPair(Pair(h, i)) == Ok(16 * HexValue(h[i]) + HexValue(h[i + 1]))
    ensures 0 <= 16 * HexValue(h[i]) + HexValue(h[i + 1]) <= 255
  {
    assert Pair(h, i) == [h[i], h[i + 1]];
    ParseTwoDigits(h[i], h[i + 1]);
  }

  /** Extra leading '#' characters make no difference. */
  lemma HashesIgnored(color: string, n: nat)
    ensures HexToRgb(Hashes(n) + color) == HexToRgb(color)
  {
    StripHashesPrefix(color, n);
  }

  lemma {:induction false} StripHashesPrefix(color: string, n: nat)
    ensures StripHashes(Hashes(n) + color) == StripHashes(color)
  {
    if n > 0 {
      StripHashesPrefix(color, n - 1);
      var s := Hashes(n) + color;
      assert s == ['#'] + (Hashes(n - 1) + color);
      assert s[0] == '#';
      assert s[1..] == Hashes(n - 1) + color;
      assert StripHashes(s) == StripHashes(s[1..]);
    } else {
      assert Hashes(n) + color == color;
    }
  }

  function Hashes(n: nat): (s: string)
    ensures |s| == n && forall i :: 0 <= i < n ==> s[i] == '#'
  {
    if n == 0 then [] else ['#'] + Hashes(n - 1)
  }

  function HexDigitChar(v: nat): (c: char)
    requires v < 16
    ensures IsHexDigit(c) && HexValue(c) == v
  {
    if v < 10 then ('0' as int + v) as char else ('A' as int + v - 10) as char
  }

  /** The "#RRGGBB" form of a colour, the inverse of `hex_to_rgb`. */
  function ToHex(c: Rgb): (s: string)
    requires 0 <= c.r <= 255 && 0 <= c.g <= 255 && 0 <= c.b <= 255
    ensures |s| == 7 && s[0] == '#'
  {
    ['#', HexDigitChar(c.r / 16), HexDigitChar(c.r % 16), HexDigitChar(c.g / 16),
     HexDigitChar(c.g % 16), HexDigitChar(c.b / 16), HexDigitChar(c.b % 16)]
  }

  /** Every colour with channels in [0, 255] survives the round trip. */
  lemma ToHexRoundTrip(c: Rgb)
    requires 0 <= c.r <= 255 && 0 <= c.g <= 255 && 0 <= c.b <= 255
    ensures HexToRgb(ToHex(c)) == Ok(c)
  {
    var s := ToHex(c);
    var h := s[1..];
    assert h[0] == HexDigitChar(c.r / 16) && h[1] == HexDigitChar(c.r % 16);
    assert h[2] == HexDigitChar(c.g / 16) && h[3] == HexDigitChar(c.g % 16);
    assert h[4] == HexDigitChar(c.b / 16) && h[5] == HexDigitChar(c.b % 16);
    assert StripHashes(h) == h;
    assert StripHashes(s) == h;
    PairsChannels(h);
    ByteDigits(c.r);
    ByteDigits(c.g);
    ByteDigits(c.b);
  }

  lemma ByteDigits(v: int)
    requires 0 <= v <= 255
    ensures 0 <= v / 16 < 16 && 0 <= v % 16 && 16 * (v / 16) + v % 16 == v
  {
  }

  /** "#2780E3", cosmo's primary colour, is (39, 128, 227). */
  lemma CosmoPrimary()
    ensures HexToRgb("#2780E3") == Ok(Rgb(39, 128, 227))
  {
    assert StripHashes("#2780E3") == "2780E3";
    HexToRgbChannels("#2780E3");
  }

  /** Four characters or fewer after the '#'s leave the last pair empty,
      and `int('', 16)` raises. */
  lemma ShortColourRaises()
    ensures HexToRgb("#FFF").Err? && HexToRgb("##1234").Err?
  {
  }

  // ---------------------------------------------------------------------
  // The theme table and its light/dark split

  datatype Kind = Light | Dark

  datatype Theme = Theme(
    name: string, kind: Kind,
    primary: string, secondary: string, success: string,
    info: string, warning: string, danger: string)

  const Cosmo: Theme := Theme("Cosmo", Light, "#2780E3", "#373A3C", "#3FB618", "#9954BB", "#FF7518", "#FF0039")
  const Flatly: Theme := Theme("Flatly", Light, "#2C3E50", "#95A5A6", "#18BC9C", "#3498DB", "#F39C12", "#E74C3C")
  const Minty: Theme := Theme("Minty", Light, "#78C2AD", "#F3969A", "#56CC9D", "#6CC3D5", "#FFCE67", "#FF7851")
  const Pulse: Theme := Theme("Pulse", Light, "#593196", "#A991D4", "#13B955", "#009CDC", "#EBA31D", "#FC3939")
  const Solar: Theme := Theme("Solar", Dark, "#B58900", "#2AA198", "#859900", "#268BD2", "#CB4B16", "#DC322F")
  const Darkly: Theme := Theme("Darkly", Dark, "#375A7F", "#444444", "#00BC8C", "#3498DB", "#F39C12", "#E74C3C")
  const Cyborg: Theme := Theme("Cyborg", Dark, "#2A9FD6", "#555555", "#77B300", "#9933CC", "#FF8800", "#CC0000")
  const Superhero: Theme := Theme("Superhero", Dark, "#DF691A", "#5BC0DE", "#5CB85C", "#5BC0DE", "#F0AD4E", "#D9534F")
  const Vapor: Theme := Theme("Vapor", Dark, "#EA00D9", "#0ABDC6", "#711C91", "#0ABDC6", "#EA00D9", "#F50057")

  /** TTKBOOTSTRAP_THEMES, in its declaration order. */
  const Themes: seq<(string, Theme)> := [
    ("cosmo", Cosmo),
    ("flatly", Flatly),
    ("minty", Minty),
    ("pulse", Pulse),
    ("solar", Solar),
    ("darkly", Darkly),
    ("cyborg", Cyborg),
    ("superhero", Superhero),
    ("vapor", Vapor)]

  /** The dict comprehension `{k: v for k, v in themes.items() if v["type"] == kind}`:
      the entries of that kind, in table order. */
  function OfKind(ts: seq<(string, Theme)>, kind: Kind): (r: seq<(string, Theme)>)
    ensures |r| <= |ts|
  {
    if |ts| == 0 then []
    else (if ts[0].1.kind == kind then [ts[0]] else []) + OfKind(ts[1..], kind)
  }

  /** The entries kept are exactly the entries of that kind. */
  lemma {:induction false} OfKindMembers(ts: seq<(string, Theme)>, kind: Kind)
    ensures forall e :: e in OfKind(ts, kind) <==> e in ts && e.1.kind == kind
  {
    if |ts| > 0 {
      OfKindMembers(ts[1..], kind);
      assert ts == [ts[0]] + ts[1..];
    }
  }

  /** The light and dark groups share no entry and together hold every
      entry: their sizes add up to the size of the table. */
  lemma {:induction false} PartitionSizes(ts: seq<(string, Theme)>)
    ensures |OfKind(ts, Light)| + |OfKind(ts, Dark)| == |ts|
  {
    if |ts| > 0 {
      PartitionSizes(ts[1..]);
    }
  }

  lemma PartitionDisjointCovering(ts: seq<(string, Theme)>)
    ensures forall e :: !(e in OfKind(ts, Light) && e in OfKind(ts, Dark))
    ensures forall e :: e in ts <==> e in OfKind(ts, Light) || e in OfKind(ts, Dark)
  {
    OfKindMembers(ts, Light);
    OfKindMembers(ts, Dark);
  }

  lemma {:induction false} OfKindAppend(a: seq<(string, Theme)>, b: seq<(string, Theme)>, kind: Kind)
    ensures OfKind(a + b, kind) == OfKind(a, kind) + OfKind(b, kind)
  {
    if |a| == 0 {
      assert a + b == b;
    } else {
      var head := if a[0].1.kind == kind then [a[0]] else [];
      calc {
        OfKind(a + b, kind);
      == { assert (a + b)[0] == a[0]; assert (a + b)[1..] == a[1..] + b; }
        head + OfKind(a[1..] + b, kind);
      == { OfKindAppend(a[1..], b, kind); }
        head + (OfKind(a[1..], kind) + OfKind(b, kind));
      ==
        (head + OfKind(a[1..], kind)) + OfKind(b, kind);
      }
    }
  }

  /** A group whose entries all have one kind is kept whole by that kind
      and emptied by the other. */
  lemma {:induction false} OfKindUniform(ts: seq<(string, Theme)>, kind: Kind)
    requires forall i :: 0 <= i < |ts| ==> ts[i].1.kind == kind
    ensures OfKind(ts, kind) == ts
    ensures OfKind(ts, if kind == Light then Dark else Light) == []
  {
    if |ts| > 0 {
      OfKindUniform(ts[1..], kind);
      assert ts == [ts[0]] + ts[1..];
    }
  }

  /** The script reports nine themes, four light (cosmo, flatly, minty,
      pulse) and five dark (solar, darkly, cyborg, superhero, vapor). */
  lemma ThemeCounts()
    ensures |Themes| == 9
    ensures OfKind(Themes, Light) == Themes[..4] && OfKind(Themes, Dark) == Themes[4..]
    ensures |OfKind(Themes, Light)| == 4 && |OfKind(Themes, Dark)| == 5
  {
    var light, dark := Themes[..4], Themes[4..];
    assert Themes == light + dark;
    OfKindUniform(light, Light);
    OfKindUniform(dark, Dark);
    OfKindAppend(light, dark, Light);
    OfKindAppend(light, dark, Dark);
  }

  predicate IsHashHex(c: string)
  {
    |c| == 7 && c[0] == '#' && forall i :: 1 <= i < 7 ==> IsHexDigit(c[i])
  }

  /** A colour written "#RRGGBB" always converts; every colour in the
      theme table has this form. */
  lemma ColourParses(c: string)
    requires IsHashHex(c)
    ensures HexToRgb(c).Ok?
  {
    assert StripHashes(c) == c[1..];
    HexToRgbChannels(c);
  }
}
