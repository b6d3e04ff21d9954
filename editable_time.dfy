/**
 * `parseEditableTime`, the parser behind "tap the label to type a new time".
 * The component, the first design variant and the second design variant each
 * carry a copy that is the same function up to formatting and local names;
 * this module models it once.
 *
 * Text is trimmed, split at ':' and each token read as JavaScript's
 * `Number(token)` reads a plain decimal numeral: surrounding white space is
 * ignored, an empty token is 0, an optional sign, digits with an optional
 * fraction. One token counts minutes, two are M:S and three H:M:S; the total is
 * rounded and clamped to [10, 14400].
 */
module EditableTime {
  import opened Wrappers
  import opened Digits
  import opened Core

  // ---- Trimming ----

  /** ECMAScript WhiteSpace and LineTerminator code points, which `trim` and `Number` strip. */
  predicate IsSpace(c: char) {
    c == '\t' || c == '\n' || c == '\U{B}' || c == '\U{C}' || c == '\r' || c == ' '
    || c == '\U{A0}' || c == '\U{1680}' || ('\U{2000}' <= c <= '\U{200A}')
    || c == '\U{2028}' || c == '\U{2029}' || c == '\U{202F}' || c == '\U{205F}'
    || c == '\U{3000}' || c == '\U{FEFF}'
  }

  predicate AllSpace(s: string) {
    forall i :: 0 <= i < |s| ==> IsSpace(s[i])
  }

  /** Drops leading white space (see TrimStartMeaning). */
  function TrimStart(s: string): (r: string)
    ensures |r| <= |s|
  {
    if s != [] && IsSpace(s[0]) then TrimStart(s[1..]) else s
  }

  /** Drops trailing white space (see TrimEndMeaning). */
  function TrimEnd(s: string): (r: string)
    ensures |r| <= |s|
  {
    if s != [] && IsSpace(s[|s| - 1]) then TrimEnd(s[..|s| - 1]) else s
  }

  /** `String.prototype.trim`. */
  function Trim(s: string): string {
    TrimEnd(TrimStart(s))
  }

  // ---- Splitting ----

  /** `parts.join(sep)`. */
  function Join(parts: seq<string>, sep: char): string
    requires |parts| >= 1
  {
    if |parts| == 1 then parts[0] else parts[0] + [sep] + Join(parts[1..], sep)
  }

  /** `s.split(sep)`: the pieces between separators, empty pieces kept (see SplitMeaning). */
  function Split(s: string, sep: char): (parts: seq<string>)
    ensures |parts| >= 1
  {
    if s == [] then [""]
    else
      var rest := Split(s[1..], sep);
      if s[0] == sep then [""] + rest
      else [[s[0]] + rest[0]] + rest[1..]
  }

  // ---- Number(token) ----

  /**
   * An unsigned decimal numeral: digits with an optional '.' and fraction
   * digits, at least one digit in all. None for anything else.
   */
  function UnsignedDecimal(t: string): (n: Option<real>)
    ensures n.Some? ==> n.value >= 0.0
    ensures t != [] && AllDigits(t) ==> n == Some(DigitsValue(t) as real)
  {
    if t != [] && AllDigits(t) then Some(DigitsValue(t) as real)
    else
      var pieces := Split(t, '.');
      if |pieces| == 2 && AllDigits(pieces[0]) && AllDigits(pieces[1]) && |pieces[0]| + |pieces[1]| > 0 then
        Some(DigitsValue(pieces[0]) as real + DigitsValue(pieces[1]) as real / Pow10(|pieces[1]|) as real)
      else
        None
  }

  /**
   * `Number(token)` for a decimal numeral: None stands for NaN (and for the
   * infinities, which the parser rejects the same way).
   */
  function NumberOf(token: string): Option<real> {
    var t := Trim(token);
    if t == [] then Some(0.0)
    else if t[0] == '+' then UnsignedDecimal(t[1..])
    else if t[0] == '-' then
      match UnsignedDecimal(t[1..])
      case Some(v) => Some(-v)
      case None => None
    else UnsignedDecimal(t)
  }

  /** A token the parser accepts: a number that is not NaN, not infinite and not negative. */
  predicate Acceptable(token: string) {
    NumberOf(token).Some? && NumberOf(token).value >= 0.0
  }

  /** `parts.map(Number)` guarded by `parts.some(...)`: None when some token is not acceptable. */
  function TokenValues(tokens: seq<string>): (vs: Option<seq<real>>)
    ensures vs.Some? ==> |vs.value| == |tokens|
  {
    if tokens == [] then Some([])
    else
      match NumberOf(tokens[0])
      case None => None
      case Some(v) =>
        if v < 0.0 then None
        else
          match TokenValues(tokens[1..])
          case None => None
          case Some(rest) => Some([v] + rest)
  }

  /** `Math.round`: the integer nearest to x, halves rounded up. */
  function Round(x: real): (r: int)
    ensures r as real <= x + 0.5 < r as real + 1.0
  {
    (x + 0.5).Floor
  }

  /** The seconds denoted by 1, 2 or 3 token values (minutes, M:S, H:M:S); None for more. */
  function TotalSeconds(vs: seq<real>): Option<real> {
    if |vs| == 1 then Some(vs[0] * 60.0)
    else if |vs| == 2 then Some(vs[0] * 60.0 + vs[1])
    else if |vs| == 3 then Some(vs[0] * 3600.0 + vs[1] * 60.0 + vs[2])
    else None
  }

  /** `parseEditableTime`: None is the source's `null`. */
  function ParseEditableTime(value: string): (r: Option<int>)
    ensures r.Some? ==> MinSeconds <= r.value <= MaxSeconds
    ensures Trim(value) == [] ==> r == None
  {
    var trimmed := Trim(value);
    if trimmed == [] then None
    else
      match TokenValues(Split(trimmed, ':'))
      case None => None
      case Some(vs) =>
        match TotalSeconds(vs)
        case None => None
        case Some(total) => Some(Clamp(Round(total), MinSeconds, MaxSeconds))
  }

  // ---- Properties ----

  /** `trimStart` removes exactly a run of leading white space. */
  lemma {:induction false} TrimStartMeaning(s: string)
    ensures var r := TrimStart(s);
      r == s[|s| - |r|..] && AllSpace(s[..|s| - |r|]) && (r != [] ==> !IsSpace(r[0]))
  {
    if s != [] && IsSpace(s[0]) {
      TrimStartMeaning(s[1..]);
      var r := TrimStart(s);
      assert s[..|s| - |r|] == [s[0]] + s[1..][..|s| - 1 - |r|];
    }
  }

  /** `trimEnd` removes exactly a run of trailing white space. */
  lemma {:induction false} TrimEndMeaning(s: string)
    ensures var r := TrimEnd(s);
      r == s[..|r|] && AllSpace(s[|r|..]) && (r != [] ==> !IsSpace(r[|r| - 1]))
  {
    if s != [] && IsSpace(s[|s| - 1]) {
      TrimEndMeaning(s[..|s| - 1]);
      var r := TrimEnd(s);
      assert s[|r|..] == s[..|s| - 1][|r|..] + [s[|s| - 1]];
    }
  }

  /** The pieces of a split contain no separator and join back to the input. */
  lemma {:induction false} SplitMeaning(s: string, sep: char)
    ensures var parts := Split(s, sep);
      (forall i :: 0 <= i < |parts| ==> sep !in parts[i]) && Join(parts, sep) == s
  {
    if s != [] {
      var rest := Split(s[1..], sep);
      SplitMeaning(s[1..], sep);
      var parts := Split(s, sep);
      if s[0] == sep {
        assert parts == [""] + rest && parts[1..] == rest;
        assert forall i :: 1 <= i < |parts| ==> parts[i] == rest[i - 1];
        assert [s[0]] + s[1..] == s;
      } else {
        assert parts == [[s[0]] + rest[0]] + rest[1..];
        assert parts[1..] == rest[1..];
        assert forall i :: 1 <= i < |parts| ==> parts[i] == rest[i];
        if |rest| == 1 {
          assert Join(parts, sep) == [s[0]] + rest[0];
        } else {
          assert Join(parts, sep) == [s[0]] + rest[0] + [sep] + Join(rest[1..], sep);
          assert Join(rest, sep) == rest[0] + [sep] + Join(rest[1..], sep);
        }
        assert [s[0]] + s[1..] == s;
      }
    }
  }

  /** Text with no white space at either end is left alone by `trim`. */
  lemma TrimUnchanged(s: string)
    requires s != [] ==> !IsSpace(s[0]) && !IsSpace(s[|s| - 1])
    ensures Trim(s) == s
  {
  }

  /** Splitting a token with no separator gives the token back alone. */
  lemma SplitNoSeparator(s: string, sep: char)
    requires sep !in s
    ensures Split(s, sep) == [s]
  {
    if s != [] {
      assert sep !in s[1..] by { assert forall i :: 0 <= i < |s| - 1 ==> s[1..][i] == s[i + 1]; }
      SplitNoSeparator(s[1..], sep);
      assert [s[0]] + s[1..] == s;
    }
  }

  /** Splitting after a separator-free first piece peels that piece off. */
  lemma {:induction false} SplitAfterPiece(a: string, rest: string, sep: char)
    requires sep !in a
    ensures Split(a + [sep] + rest, sep) == [a] + Split(rest, sep)
  {
    if a == [] {
      assert a + [sep] + rest == [sep] + rest;
      assert ([sep] + rest)[1..] == rest;
    } else {
      var s := a + [sep] + rest;
      assert s[0] == a[0] && s[1..] == a[1..] + [sep] + rest;
      SplitAfterPiece(a[1..], rest, sep);
      assert [a[0]] + a[1..] == a;
    }
  }

  /** Splitting joined separator-free pieces gives the pieces back: split inverts join. */
  lemma {:induction false} SplitJoin(parts: seq<string>, sep: char)
    requires |parts| >= 1
    requires forall i :: 0 <= i < |parts| ==> sep !in parts[i]
    ensures Split(Join(parts, sep), sep) == parts
  {
    if |parts| == 1 {
      SplitNoSeparator(parts[0], sep);
    } else {
      SplitJoin(parts[1..], sep);
      SplitAfterPiece(parts[0], Join(parts[1..], sep), sep);
      assert [parts[0]] + parts[1..] == parts;
    }
  }

  /** A run of digits reads as its decimal value. */
  lemma NumberOfDigits(t: string)
    requires t != [] && AllDigits(t)
    ensures NumberOf(t) == Some(DigitsValue(t) as real)
  {
    TrimUnchanged(t);
  }

  /** A clock field of the label reads back as the number it shows. */
  lemma NumberOfClockField(n: nat)
    ensures NumberOf(ClockField(n)) == Some(n as real)
  {
    NumberOfDigits(ClockField(n));
    ClockFieldValue(n);
  }

  lemma RoundInteger(k: int)
    ensures Round(k as real) == k
  {
  }

  lemma NoColonInDigits(s: string)
    requires AllDigits(s)
    ensures ':' !in s
  {
  }

  lemma TokenValuesCons(t: string, v: real, rest: seq<string>, vs: seq<real>)
    requires NumberOf(t) == Some(v) && v >= 0.0
    requires TokenValues(rest) == Some(vs)
    ensures TokenValues([t] + rest) == Some([v] + vs)
  {
    var ts := [t] + rest;
    assert ts[0] == t && ts[1..] == rest;
  }

  /** The token values are there exactly when every token is acceptable, and they are the tokens' numbers. */
  lemma {:induction false} TokenValuesMeaning(tokens: seq<string>)
    ensures TokenValues(tokens).Some? <==> forall i :: 0 <= i < |tokens| ==> Acceptable(tokens[i])
    ensures TokenValues(tokens).Some? ==>
      var vs := TokenValues(tokens).value;
      |vs| == |tokens| && forall i :: 0 <= i < |tokens| ==> NumberOf(tokens[i]) == Some(vs[i])
  {
    if tokens != [] {
      var rest := tokens[1..];
      TokenValuesMeaning(rest);
      assert forall i :: 1 <= i < |tokens| ==> tokens[i] == rest[i - 1];
      if TokenValues(tokens).Some? {
        var vs := TokenValues(tokens).value;
        assert vs[1..] == TokenValues(rest).value;
        assert forall i :: 1 <= i < |tokens| ==> vs[i] == vs[1..][i - 1];
      }
    }
  }

  /** With acceptable tokens the result is the rounded total of the token rule, clamped; None for more than 3 tokens. */
  lemma ParseOfTokens(value: string, vs: seq<real>)
    requires Trim(value) != []
    requires TokenValues(Split(Trim(value), ':')) == Some(vs)
    ensures ParseEditableTime(value) ==
      match TotalSeconds(vs)
      case Some(total) => Some(Clamp(Round(total), MinSeconds, MaxSeconds))
      case None => None
  {
  }

  /** More than three tokens are always refused. */
  lemma ParseRejectsTooManyTokens(value: string)
    requires |Split(Trim(value), ':')| > 3
    ensures ParseEditableTime(value) == None
  {
  }

  /** Two tokens read as numbers a and b give the values [a, b]. */
  lemma TokenValues2(a: string, b: string, x: real, y: real)
    requires NumberOf(a) == Some(x) && x >= 0.0 && NumberOf(b) == Some(y) && y >= 0.0
    ensures TokenValues([a, b]) == Some([x, y])
  {
    TokenValues1(b, y);
    TokenValuesCons(a, x, [b], [y]);
    assert [a] + [b] == [a, b] && [x] + [y] == [x, y];
  }

  lemma TokenValues1(t: string, v: real)
    requires NumberOf(t) == Some(v) && v >= 0.0
    ensures TokenValues([t]) == Some([v])
  {
    assert TokenValues([]) == Some([]);
    TokenValuesCons(t, v, [], []);
    assert [t] + [] == [t] && [v] + [] == [v];
  }

  /** A run of digits is its own trimmed text, a single token, and reads as its value. */
  lemma DigitToken(t: string)
    requires t != [] && AllDigits(t)
    ensures Trim(t) == t && Split(t, ':') == [t] && NumberOf(t) == Some(DigitsValue(t) as real)
  {
    TrimUnchanged(t);
    NoColonInDigits(t);
    SplitNoSeparator(t, ':');
    NumberOfDigits(t);
  }

  /** "M:S" in digits parses to M * 60 + S, clamped. */
  lemma ParseTwoFields(mm: string, ss: string)
    requires mm != [] && AllDigits(mm) && ss != [] && AllDigits(ss)
    ensures ParseEditableTime(mm + ":" + ss) ==
      Some(Clamp(DigitsValue(mm) * 60 + DigitsValue(ss), MinSeconds, MaxSeconds))
  {
    var text := mm + ":" + ss;
    var m, sec := DigitsValue(mm), DigitsValue(ss);
    DigitToken(mm);
    DigitToken(ss);
    TrimUnchanged(text);
    SplitJoin([mm, ss], ':');
    assert Join([mm, ss], ':') == text;
    TokenValues2(mm, ss, m as real, sec as real);
    ParseOfTokens(text, [m as real, sec as real]);
    RoundInteger(m * 60 + sec);
  }

  /** Three digit runs joined by ':' split back into the three runs. */
  lemma SplitThreeFields(hh: string, mm: string, ss: string)
    requires AllDigits(hh) && AllDigits(mm) && AllDigits(ss)
    ensures Split(hh + ":" + mm + ":" + ss, ':') == [hh, mm, ss]
  {
    NoColonInDigits(hh);
    NoColonInDigits(mm);
    NoColonInDigits(ss);
    var parts := [hh, mm, ss];
    assert parts[1..] == [mm, ss] && parts[1..][1..] == [ss];
    assert Join(parts[1..], ':') == mm + ":" + ss;
    assert Join(parts, ':') == hh + ":" + mm + ":" + ss;
    SplitJoin(parts, ':');
  }

  lemma TokenValues3(hh: string, mm: string, ss: string, h: real, m: real, sec: real)
    requires NumberOf(hh) == Some(h) && NumberOf(mm) == Some(m) && NumberOf(ss) == Some(sec)
    requires h >= 0.0 && m >= 0.0 && sec >= 0.0
    ensures TokenValues([hh, mm, ss]) == Some([h, m, sec])
  {
    TokenValues2(mm, ss, m, sec);
    TokenValuesCons(hh, h, [mm, ss], [m, sec]);
    assert [hh] + [mm, ss] == [hh, mm, ss];
    assert [h] + [m, sec] == [h, m, sec];
  }

  lemma DigitTokenValues3(hh: string, mm: string, ss: string)
    requires hh != [] && AllDigits(hh) && mm != [] && AllDigits(mm) && ss != [] && AllDigits(ss)
    ensures TokenValues([hh, mm, ss]) == Some([DigitsValue(hh) as real, DigitsValue(mm) as real, DigitsValue(ss) as real])
  {
    DigitToken(hh);
    DigitToken(mm);
    DigitToken(ss);
    TokenValues3(hh, mm, ss, DigitsValue(hh) as real, DigitsValue(mm) as real, DigitsValue(ss) as real);
  }

  lemma TrimThreeFields(hh: string, mm: string, ss: string)
    requires hh != [] && AllDigits(hh) && ss != [] && AllDigits(ss)
    ensures Trim(hh + ":" + mm + ":" + ss) == hh + ":" + mm + ":" + ss
  {
    TrimUnchanged(hh + ":" + mm + ":" + ss);
  }

  /** "H:M:S" in digits parses to H * 3600 + M * 60 + S, clamped. */
  lemma ParseThreeFields(hh: string, mm: string, ss: string)
    requires hh != [] && AllDigits(hh) && mm != [] && AllDigits(mm) && ss != [] && AllDigits(ss)
    ensures ParseEditableTime(hh + ":" + mm + ":" + ss) ==
      Some(Clamp(DigitsValue(hh) * 3600 + DigitsValue(mm) * 60 + DigitsValue(ss), MinSeconds, MaxSeconds))
  {
    var text := hh + ":" + mm + ":" + ss;
    var h, m, sec := DigitsValue(hh), DigitsValue(mm), DigitsValue(ss);
    TrimThreeFields(hh, mm, ss);
    SplitThreeFields(hh, mm, ss);
    DigitTokenValues3(hh, mm, ss);
    ParseOfTokens(text, [h as real, m as real, sec as real]);
    RoundInteger(h * 3600 + m * 60 + sec);
  }

  /**
   * The label `formatTimer` shows parses back to the seconds it shows, clamped
   * to [10, 14400]: the text `beginEdit` puts in the box commits to
   * `clamp(remaining, 10, 14400)` when it is left unchanged.
   */
  lemma ParseFormatRoundTrip(totalSeconds: int)
    ensures ParseEditableTime(FormatTimer(totalSeconds)) == Some(Clamp(Max(0, totalSeconds), MinSeconds, MaxSeconds))
  {
    var f := Fields(totalSeconds);
    ClockFieldValue(f.hours);
    ClockFieldValue(f.minutes);
    ClockFieldValue(f.seconds);
    if f.hours > 0 {
      ParseThreeFields(ClockField(f.hours), ClockField(f.minutes), ClockField(f.seconds));
    } else {
      ParseTwoFields(ClockField(f.minutes), ClockField(f.seconds));
    }
  }

  /** A run of digits alone counts minutes. */
  lemma ParseDigitRun(t: string)
    requires t != [] && AllDigits(t)
    ensures ParseEditableTime(t) == Some(Clamp(DigitsValue(t) * 60, MinSeconds, MaxSeconds))
  {
    var m := DigitsValue(t);
    DigitToken(t);
    TokenValues1(t, m as real);
    ParseOfTokens(t, [m as real]);
    RoundInteger(m * 60);
  }

  /** A single whole number counts minutes: "5" is 300 seconds. */
  lemma ParseWholeMinutes(minutes: nat)
    ensures ParseEditableTime(NatToString(minutes)) == Some(Clamp(minutes * 60, MinSeconds, MaxSeconds))
  {
    ParseDigitRun(NatToString(minutes));
    NatToStringValue(minutes);
  }

  /** A token that reads as a negative number rejects the whole input. */
  lemma ParseRejectsNegative(value: string, i: int)
    requires var tokens := Split(Trim(value), ':');
      0 <= i < |tokens| && NumberOf(tokens[i]).Some? && NumberOf(tokens[i]).value < 0.0
    ensures ParseEditableTime(value) == None
  {
    TokenValuesMeaning(Split(Trim(value), ':'));
  }

  /** A token that is not a number (NaN) rejects the whole input. */
  lemma ParseRejectsNaN(value: string, i: int)
    requires var tokens := Split(Trim(value), ':');
      0 <= i < |tokens| && NumberOf(tokens[i]).None?
    ensures ParseEditableTime(value) == None
  {
    TokenValuesMeaning(Split(Trim(value), ':'));
  }

  lemma ParseExampleMinutes()
    ensures ParseEditableTime("5") == Some(300)
  {
    assert DigitsValue("5") == 5;
    ParseDigitRun("5");
  }

  lemma SmallDigitValues()
    ensures DigitsValue("1") == 1 && DigitsValue("30") == 30
    ensures DigitsValue("02") == 2 && DigitsValue("03") == 3
  {
    assert "30"[..1] == "3" && "02"[..1] == "0" && "03"[..1] == "0";
  }

  lemma ParseMinutesSecondsAt(mm: string, ss: string)
    requires mm == "1" && ss == "30"
    ensures ParseEditableTime(mm + ":" + ss) == Some(90)
  {
    SmallDigitValues();
    ParseTwoFields(mm, ss);
  }

  lemma ParseExampleMinutesSeconds()
    ensures ParseEditableTime("1:30") == Some(90)
  {
    ParseMinutesSecondsAt("1", "30");
    assert "1" + ":" + "30" == "1:30";
  }

  lemma ParseHoursMinutesSecondsAt(hh: string, mm: string, ss: string)
    requires hh == "1" && mm == "02" && ss == "03"
    ensures ParseEditableTime(hh + ":" + mm + ":" + ss) == Some(3723)
  {
    SmallDigitValues();
    ParseThreeFields(hh, mm, ss);
  }

  lemma ParseExampleHoursMinutesSeconds()
    ensures ParseEditableTime("1:02:03") == Some(3723)
  {
    ParseHoursMinutesSecondsAt("1", "02", "03");
    assert "1" + ":" + "02" + ":" + "03" == "1:02:03";
  }

  lemma ParseExampleNotANumber()
    ensures ParseEditableTime("abc") == None
  {
    TrimUnchanged("abc");
    SplitNoSeparator("abc", ':');
    SplitNoSeparator("abc", '.');
    assert NumberOf("abc") == None;
    ParseRejectsNaN("abc", 0);
  }

  lemma ParseExampleTooManyTokens()
    ensures ParseEditableTime("1:2:3:4") == None
  {
    TrimUnchanged("1:2:3:4");
    var four := ["1", "2", "3", "4"];
    assert four[1..] == ["2", "3", "4"] && four[1..][1..] == ["3", "4"] && four[1..][1..][1..] == ["4"];
    assert Join(four, ':') == "1:2:3:4";
    SplitJoin(four, ':');
    ParseRejectsTooManyTokens("1:2:3:4");
  }
}
