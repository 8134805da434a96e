/** Values and string helpers shared by every part of the model: JavaScript's
    `trim`, `startsWith`, the `truncateText` helper that the chat lists share,
    decimal rendering of a status code, and the day arithmetic that the date
    labels use. */
module Common {

  datatype Option<+T> = None | Some(value: T)

  /** A value or the text of the exception that replaced it. */
  datatype Result<+T> = Success(value: T) | Failure(error: string)

  /** A JavaScript string is truthy exactly when it is not empty. */
  predicate TruthyText(s: Option<string>) {
    s.Some? && s.value != ""
  }

  // ---------------------------------------------------------------------------
  // String.prototype.trim

  /** The characters `String.prototype.trim` removes: ECMAScript WhiteSpace
      (tab, vertical tab, form feed, space, no-break space, byte order mark,
      and the other space separators) and LineTerminator (LF, CR, LS, PS). */
  predicate IsSpace(c: char) {
    c == '\t' || c == '\n' || c == '\U{000B}' || c == '\U{000C}' || c == '\r'
    || c == ' ' || c == '\U{00A0}' || c == '\U{1680}'
    || ('\U{2000}' <= c <= '\U{200A}')
    || c == '\U{2028}' || c == '\U{2029}' || c == '\U{202F}' || c == '\U{205F}'
    || c == '\U{3000}' || c == '\U{FEFF}'
  }

  predicate AllSpace(s: string) {
    forall i :: 0 <= i < |s| ==> IsSpace(s[i])
  }

  /** Drops the leading white space. */
  function TrimStart(s: string): string {
    if |s| > 0 && IsSpace(s[0]) then TrimStart(s[1..]) else s
  }

  /** Drops the trailing white space. */
  function TrimEnd(s: string): string {
    if |s| > 0 && IsSpace(s[|s| - 1]) then TrimEnd(s[..|s| - 1]) else s
  }

  function Trim(s: string): string {
    TrimEnd(TrimStart(s))
  }

  /** `!s.trim()`: the string is empty once trimmed. */
  predicate IsBlank(s: string) {
    Trim(s) == []
  }

  /** TrimStart removes a run of white space from the front and stops at the
      first other character. */
  lemma {:induction false} TrimStartSpec(s: string)
    ensures var r := TrimStart(s);
            && |r| <= |s| && r == s[|s| - |r|..]
            && AllSpace(s[..|s| - |r|])
            && (r == [] || !IsSpace(r[0]))
  {
    if |s| > 0 && IsSpace(s[0]) {
      TrimStartSpec(s[1..]);
      var r := TrimStart(s);
      assert s[1..][|s| - 1 - |r|..] == s[|s| - |r|..];
      assert forall i :: 1 <= i < |s| - |r| ==> s[i] == s[1..][..|s| - 1 - |r|][i - 1];
    }
  }

  /** TrimEnd removes a run of white space from the back and stops at the
      last other character. */
  lemma {:induction false} TrimEndSpec(s: string)
    ensures var r := TrimEnd(s);
            && |r| <= |s| && r == s[..|r|]
            && AllSpace(s[|r|..])
            && (r == [] || !IsSpace(r[|r| - 1]))
  {
    if |s| > 0 && IsSpace(s[|s| - 1]) {
      TrimEndSpec(s[..|s| - 1]);
      var r := TrimEnd(s);
      assert s[|r|..] == s[..|s| - 1][|r|..] + [s[|s| - 1]];
    }
  }

  /** Trim cuts white space only from the two ends and keeps the rest. */
  lemma TrimIsInnerSlice(s: string) returns (i: nat, j: nat)
    ensures i <= j <= |s| && Trim(s) == s[i..j]
    ensures AllSpace(s[..i]) && AllSpace(s[j..])
  {
    var t := TrimStart(s);
    var u := TrimEnd(t);
    TrimStartSpec(s);
    TrimEndSpec(t);
    i := |s| - |t|;
    j := i + |u|;
    assert t == s[i..];
    assert u == t[..|u|];
    assert t[..|u|] == s[i..j];
    assert s[j..] == t[|u|..];
  }

  /** A trimmed string neither starts nor ends with white space. */
  lemma TrimmedEnds(s: string)
    ensures Trim(s) == [] || (!IsSpace(Trim(s)[0]) && !IsSpace(Trim(s)[|Trim(s)| - 1]))
  {
    var t := TrimStart(s);
    var u := TrimEnd(t);
    TrimStartSpec(s);
    TrimEndSpec(t);
    if u != [] {
      assert u[0] == t[0];
    }
  }

  /** A string is blank exactly when every character of it is white space. */
  lemma BlankIffAllSpace(s: string)
    ensures IsBlank(s) <==> AllSpace(s)
  {
    var t := TrimStart(s);
    TrimStartSpec(s);
    TrimEndSpec(t);
    if IsBlank(s) {
      assert AllSpace(t) by { assert t[0..] == t; }
      assert t == [];
      assert s == s[..|s|];
    } else {
      TrimmedEnds(s);
      var k := |s| - |t|;
      assert t[0] == s[k];
      assert !IsSpace(s[k]);
    }
  }

  /** Trimming twice changes nothing more. */
  lemma TrimIdempotent(s: string)
    ensures Trim(Trim(s)) == Trim(s)
  {
    var r := Trim(s);
    TrimmedEnds(s);
    if r != [] {
      assert TrimStart(r) == r;
      assert TrimEnd(r) == r;
    }
  }

  // ---------------------------------------------------------------------------
  // Prefixes and suffixes

  predicate StartsWith(s: string, prefix: string) {
    |prefix| <= |s| && s[..|prefix|] == prefix
  }

  predicate EndsWith(s: string, suffix: string) {
    |suffix| <= |s| && s[|s| - |suffix|..] == suffix
  }

  // ---------------------------------------------------------------------------
  // truncateText, shared by the starred-chat cards and the sidebar

  /** `truncateText(text, maxLength)`: an empty (falsy) text shows as
      `'New Chat'`; a text longer than `maxLength` is cut to its first
      `maxLength` characters followed by `'...'`; any other text is shown
      as it is. */
  function Truncate(text: string, maxLength: nat): (r: string)
    ensures text == "" ==> r == "New Chat"
    ensures text != "" && |text| <= maxLength ==> r == text
    ensures text != "" ==> |r| <= maxLength + 3 && StartsWith(r, text[..if |text| < maxLength then |text| else maxLength])
    ensures |text| > maxLength ==> EndsWith(r, "...") && |r| == maxLength + 3 && r == text[..maxLength] + "..."
  {
    if text == "" then "New Chat"
    else if |text| > maxLength then text[..maxLength] + "..."
    else text
  }

  /** JavaScript's `length`: the number of UTF-16 code units, two for a
      character outside the Basic Multilingual Plane. */
  function Utf16Length(s: string): nat {
    if s == [] then 0 else (if s[0] as int >= 0x1_0000 then 2 else 1) + Utf16Length(s[1..])
  }

  /** Every character lies in the Basic Multilingual Plane. */
  predicate InBmp(s: string) {
    forall i :: 0 <= i < |s| ==> s[i] as int < 0x1_0000
  }

  /** Inside the Basic Multilingual Plane characters and UTF-16 code units
      coincide, so lengths and cut points counted here agree with
      JavaScript's `length` and `substring`; outside it JavaScript counts
      more. */
  lemma {:induction false} BmpLength(s: string)
    ensures Utf16Length(s) >= |s|
    ensures InBmp(s) ==> Utf16Length(s) == |s|
    ensures !InBmp(s) ==> Utf16Length(s) > |s|
  {
    if s != [] {
      BmpLength(s[1..]);
      assert forall i :: 1 <= i < |s| ==> s[1..][i - 1] == s[i];
    }
  }

  // ---------------------------------------------------------------------------
  // Decimal rendering (template literals of a non-negative integer)

  function DigitChar(d: nat): char
    requires d < 10
  {
    "0123456789"[d]
  }

  function DigitValue(c: char): int {
    c as int - '0' as int
  }

  predicate AllDigits(s: string) {
    forall i :: 0 <= i < |s| ==> '0' <= s[i] <= '9'
  }

  /** The value of a string of decimal digits. */
  function DecimalValue(s: string): nat
    requires AllDigits(s)
  {
    if s == [] then 0 else 10 * DecimalValue(s[..|s| - 1]) + DigitValue(s[|s| - 1]) as nat
  }

  /** `${n}` for a non-negative integer. */
  function NatToString(n: nat): string {
    if n < 10 then [DigitChar(n)] else NatToString(n / 10) + [DigitChar(n % 10)]
  }

  /** `NatToString` gives a non-empty run of digits without a leading zero. */
  lemma {:induction false} NatToStringDigits(n: nat)
    ensures var r := NatToString(n);
            |r| > 0 && AllDigits(r) && (|r| > 1 ==> r[0] != '0')
  {
    if n >= 10 {
      NatToStringDigits(n / 10);
      var s := NatToString(n);
      assert s[..|s| - 1] == NatToString(n / 10);
      assert forall i :: 0 <= i < |s| - 1 ==> s[i] == NatToString(n / 10)[i];
    }
  }

  /** Reading back the digits gives the number again. */
  lemma {:induction false} NatToStringValue(n: nat)
    ensures AllDigits(NatToString(n)) && DecimalValue(NatToString(n)) == n
  {
    NatToStringDigits(n);
    if n >= 10 {
      NatToStringValue(n / 10);
      var s := NatToString(n);
      assert s[..|s| - 1] == NatToString(n / 10);
    }
  }

  // ---------------------------------------------------------------------------
  // Day buckets

  const MsPerDay: nat := 1000 * 60 * 60 * 24

  /** `Math.floor((now - date) / (1000 * 60 * 60 * 24))`, with both instants in
      milliseconds. Dafny's division by a positive divisor rounds down, as
      `Math.floor` does, for negative differences too. */
  function DayDiff(now: int, date: int): (d: int)
    ensures d * MsPerDay <= now - date < (d + 1) * MsPerDay
  {
    (now - date) / MsPerDay
  }

  /** What the locale formatting calls produce; their exact text depends on
      the browser locale and is not modelled. */
  datatype Locale =
    | TimeHourMinute(ms: int)   // toLocaleTimeString([], {hour: '2-digit', minute: '2-digit'})
    | WeekdayLong(ms: int)      // toLocaleDateString([], {weekday: 'long'})
    | WeekdayShort(ms: int)     // toLocaleDateString([], {weekday: 'short'})
    | MonthDayYear(ms: int)     // toLocaleDateString([], {month: 'short', day: 'numeric', year: 'numeric'})
    | MonthDay(ms: int)         // toLocaleDateString([], {month: 'short', day: 'numeric'})

  /** A date label: fixed text, a locale string, or fixed text before a locale string. */
  datatype Label = Fixed(text: string) | Localized(part: Locale) | Prefixed(prefix: string, part: Locale)
}
