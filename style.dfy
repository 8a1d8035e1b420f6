/**
 * The CSS transform string an overlay image carries, `rotate(<a>rad) scaleX(±1)`
 * (contentScript.js:651, 674), and how the editor reads it back: the angle token
 * through the pattern `rotate\(([-0-9.]+)rad\)` and the mirror flag by looking for
 * `scaleX(-1)` (contentScript.js:272-283, 662-666). How a number is written as
 * decimal text and read back is left to the caller (`render`, `parseNumber`).
 */
module Style {
  import opened Wrappers

  const RotatePrefix: string := "rotate("
  const RotateSuffix: string := "rad)"
  const MirrorMark: string := "scaleX(-1)"

  /** The string written to `overlayImg.style.transform`. */
  function FormatTransform(angleText: string, flipped: bool): string
  {
    RotatePrefix + angleText + "rad) scaleX(" + (if flipped then "-1" else "1") + ")"
  }

  /** A written transform opens with the rotation of the given angle text, followed by the mirror part. */
  lemma FormatTransformShape(angleText: string, flipped: bool)
    ensures var r := FormatTransform(angleText, flipped);
      && StartsWith(r, RotatePrefix + angleText + RotateSuffix)
      && r[|RotatePrefix + angleText + RotateSuffix|..] == (if flipped then " scaleX(-1)" else " scaleX(1)")
  {
    var w := RotatePrefix + angleText + RotateSuffix;
    var r := FormatTransform(angleText, flipped);
    assert r == w + (if flipped then " scaleX(-1)" else " scaleX(1)");
  }

  predicate StartsWith(s: string, prefix: string)
  {
    |prefix| <= |s| && s[..|prefix|] == prefix
  }

  predicate Contains(s: string, part: string)
  {
    exists i | 0 <= i <= |s| :: StartsWith(s[i..], part)
  }

  /** `transform.includes('scaleX(-1)')`. */
  predicate HasMirror(transform: string)
  {
    Contains(transform, MirrorMark)
  }

  /** A character of the class `[-0-9.]`. */
  predicate IsDecimalChar(c: char)
  {
    c == '-' || c == '.' || '0' <= c <= '9'
  }

  /** Text the angle pattern accepts as a whole: one or more of `[-0-9.]`. */
  predicate IsDecimalText(t: string)
  {
    |t| > 0 && forall i | 0 <= i < |t| :: IsDecimalChar(t[i])
  }

  /**
   * Text JavaScript may print for a number: digits, sign, point, exponent, and
   * the letters of "Infinity" and "NaN".
   */
  predicate IsNumberText(t: string)
  {
    forall i | 0 <= i < |t| :: IsDecimalChar(t[i]) || t[i] in "+eEInfityNa"
  }

  /** The longest prefix of `s` made of `[-0-9.]` characters: what the greedy `+` takes. */
  function DecimalRun(s: string): (r: string)
    ensures |r| <= |s| && r == s[..|r|]
    ensures forall i | 0 <= i < |r| :: IsDecimalChar(r[i])
    ensures |r| < |s| ==> !IsDecimalChar(s[|r|])
  {
    if s != [] && IsDecimalChar(s[0]) then [s[0]] + DecimalRun(s[1..]) else []
  }

  /**
   * The pattern `rotate\(([-0-9.]+)rad\)` tried at the first position of `s`.
   * The run is taken whole: a shorter one would be followed by a decimal
   * character, never by the `r` of `rad)`, so backtracking cannot succeed.
   */
  function MatchRotateAt(s: string): Option<string>
  {
    if StartsWith(s, RotatePrefix) then
      var run := DecimalRun(s[|RotatePrefix|..]);
      if |run| > 0 && StartsWith(s[|RotatePrefix| + |run|..], RotateSuffix) then Some(run) else None
    else
      None
  }

  /**
   * The anchored pattern captures t exactly when the string starts with
   * `rotate(`, then t, a non-empty run of `[-0-9.]`, then `rad)`.
   */
  lemma MatchRotateAtIsPattern(s: string, t: string)
    ensures MatchRotateAt(s) == Some(t) <==> IsDecimalText(t) && StartsWith(s, RotatePrefix + t + RotateSuffix)
  {
    var p, n := |RotatePrefix|, |t|;
    var w := RotatePrefix + t + RotateSuffix;
    if MatchRotateAt(s) == Some(t) {
      var rest := s[p..];
      assert DecimalRun(rest) == t;
      assert s[..p] == RotatePrefix;
      assert s[p..p + n] == t;
      assert s[p + n..][..|RotateSuffix|] == RotateSuffix;
      assert s[p + n..p + n + |RotateSuffix|] == RotateSuffix;
      assert s[..|w|] == s[..p] + s[p..p + n] + s[p + n..p + n + |RotateSuffix|];
    }
    if IsDecimalText(t) && StartsWith(s, w) {
      assert s[..|w|] == w;
      assert s[..p] == RotatePrefix by { assert s[..p] == w[..p]; }
      assert s[p..p + n] == t by { assert s[p..p + n] == w[p..p + n]; }
      var after := s[p + n..];
      assert after[..|RotateSuffix|] == RotateSuffix by { assert after[..|RotateSuffix|] == w[p + n..]; }
      assert after[0] == 'r';
      assert s[p..] == t + after;
      DecimalRunStopsAt(t, after);
    }
  }

  /** The captured angle text of the leftmost match of the angle pattern, if any. */
  function AngleToken(s: string): (r: Option<string>)
    ensures r.Some? ==> IsDecimalText(r.value)
  {
    match MatchRotateAt(s)
    case Some(t) => Some(t)
    case None => if s == [] then None else AngleToken(s[1..])
  }

  /** Angle and mirror flag as the export reads them from the transform string. */
  datatype Parsed = Parsed(angle: real, mirrored: bool)

  /**
   * contentScript.js:272-283: an empty transform means angle 0 and no mirror;
   * otherwise the angle is `parseFloat` of the matched token (0 without a match)
   * and the mirror flag is whether `scaleX(-1)` occurs anywhere.
   */
  function ParseTransform(transform: string, parseNumber: string -> real): (p: Parsed)
    ensures transform == [] ==> p == Parsed(0.0, false)
    ensures transform != [] ==> p.mirrored == HasMirror(transform)
  {
    if transform == [] then Parsed(0.0, false)
    else
      var angle := match AngleToken(transform) case Some(t) => parseNumber(t) case None => 0.0;
      Parsed(angle, HasMirror(transform))
  }

  lemma MirrorMarkFound(text: string)
    ensures HasMirror(FormatTransform(text, true))
  {
    var s := FormatTransform(text, true);
    var i := |s| - |MirrorMark|;
    assert s[i..] == MirrorMark;
    assert StartsWith(s[i..], MirrorMark);
  }

  lemma MirrorMarkAbsent(text: string)
    requires IsNumberText(text)
    ensures !HasMirror(FormatTransform(text, false))
  {
    var s := FormatTransform(text, false);
    var head := RotatePrefix + text + "rad) ";
    assert s == head + "scaleX(1)";
    forall i | 0 <= i < |head|
      ensures s[i] != 's'
    {
      assert s[i] == head[i];
      if i < |RotatePrefix| {
        assert head[i] == RotatePrefix[i];
      } else if i < |RotatePrefix| + |text| {
        assert head[i] == text[i - |RotatePrefix|];
      } else {
        assert head[i] == "rad) "[i - |RotatePrefix| - |text|];
      }
    }
    forall i | 0 <= i <= |s|
      ensures !StartsWith(s[i..], MirrorMark)
    {
      if i < |head| {
        assert s[i..][0] != MirrorMark[0];
      } else {
        assert |s[i..]| < |MirrorMark|;
      }
    }
  }

  /** The mirror flag survives writing and reading the transform string, whatever the angle's text. */
  lemma {:induction false} MirrorRoundTrip(text: string, flipped: bool)
    requires IsNumberText(text)
    ensures HasMirror(FormatTransform(text, flipped)) == flipped
  {
    if flipped { MirrorMarkFound(text); } else { MirrorMarkAbsent(text); }
  }

  lemma {:induction false} DecimalRunStopsAt(t: string, rest: string)
    requires forall i | 0 <= i < |t| :: IsDecimalChar(t[i])
    requires rest == [] || !IsDecimalChar(rest[0])
    ensures DecimalRun(t + rest) == t
  {
    if t != [] {
      assert (t + rest)[1..] == t[1..] + rest;
      DecimalRunStopsAt(t[1..], rest);
    }
  }

  /** An angle written as plain decimal text is the token the export and the rotate handle read back. */
  lemma {:induction false} AngleRoundTrip(text: string, flipped: bool)
    requires IsDecimalText(text)
    ensures AngleToken(FormatTransform(text, flipped)) == Some(text)
  {
    var s := FormatTransform(text, flipped);
    var tail := "rad) scaleX(" + (if flipped then "-1" else "1") + ")";
    var rest := text + tail;
    assert s == RotatePrefix + rest;
    assert s[..|RotatePrefix|] == RotatePrefix;
    assert s[|RotatePrefix|..] == rest;
    assert tail[0] == 'r';
    DecimalRunStopsAt(text, tail);
    assert s[|RotatePrefix| + |text|..] == tail;
    assert tail[..|RotateSuffix|] == RotateSuffix;
    assert MatchRotateAt(s) == Some(text);
  }

  /** What the export reads from a transform the editor wrote. */
  lemma {:induction false} ParseFormatted(text: string, flipped: bool, parseNumber: string -> real)
    requires IsDecimalText(text)
    ensures ParseTransform(FormatTransform(text, flipped), parseNumber) == Parsed(parseNumber(text), flipped)
  {
    AngleRoundTrip(text, flipped);
    MirrorRoundTrip(text, flipped);
  }

  /** Text in which no `r` is followed by `o` holds no match of the angle pattern. */
  lemma {:induction false} NoRotateNoToken(t: string)
    requires forall i | 0 <= i < |t| - 1 :: t[i] == 'r' ==> t[i + 1] != 'o'
    ensures AngleToken(t) == None
  {
    if t != [] {
      if |t| >= |RotatePrefix| {
        assert t[..|RotatePrefix|][0] == t[0] && t[..|RotatePrefix|][1] == t[1];
        assert t[0] == 'r' ==> t[1] != 'o';
      }
      NoRotateNoToken(t[1..]);
    }
  }

  /**
   * An angle JavaScript prints in exponent notation (any magnitude below 1e-6)
   * does not match the angle pattern, so it is read back as 0.
   */
  lemma ExponentAngleIsLost(parseNumber: string -> real)
    ensures AngleToken(FormatTransform("1e-7", false)) == None
    ensures ParseTransform(FormatTransform("1e-7", false), parseNumber).angle == 0.0
  {
    var s := FormatTransform("1e-7", false);
    ExponentNoMatchAtStart(s);
    ExponentNoMatchAfter(s[1..]);
  }

  lemma ExponentNoMatchAtStart(s: string)
    requires s == FormatTransform("1e-7", false)
    ensures MatchRotateAt(s) == None
  {
    var tail := "e-7rad) scaleX(1)";
    assert s == RotatePrefix + ("1" + tail);
    assert s[|RotatePrefix|..] == "1" + tail;
    DecimalRunStopsAt("1", tail);
    assert s[|RotatePrefix| + 1..] == tail;
  }

  lemma ExponentNoMatchAfter(rest: string)
    requires rest == FormatTransform("1e-7", false)[1..]
    ensures AngleToken(rest) == None
  {
    assert rest == "otate(1e-7rad) scaleX(1)";
    assert forall i | 0 <= i < |rest| - 1 :: rest[i] == 'r' ==> i == 10;
    NoRotateNoToken(rest);
  }
}
