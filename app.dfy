/**
 * The chat shell (App.tsx): sending a message to the selected chat and appending the assistant's
 * reply, opening a chat from the call log or the dial pad, the export file name, and the
 * expand/collapse toggle of the call log.  The new values are pure functions over the chat list;
 * the class `ChatApp` holds the component's state fields and applies them to the fields the
 * handlers' setters change.  Clock readings (`Date.now()`) are inputs.
 */
module App {
  import opened Options
  import opened Bytes
  import opened Types

  const USER_PHONE_NUMBER: string := "+1-(408)-614-0468"
  const AI_FALLBACK: string := "I'm having trouble connecting right now."
  const NEW_CHAT_LAST_MESSAGE: string := "Start of conversation"

  // ---------------------------------------------------------------------------------------
  // JavaScript text primitives.
  // ---------------------------------------------------------------------------------------

  /**
   * The characters `String.prototype.trim` removes and the regular-expression class `\s`
   * matches: the ECMAScript WhiteSpace and LineTerminator code points.
   */
  predicate IsJsWhitespace(c: char) {
    c == '\t' || c == '\n' || c == '\U{000B}' || c == '\U{000C}' || c == '\r' || c == ' ' ||
    c == '\U{00A0}' || c == '\U{1680}' || ('\U{2000}' <= c <= '\U{200A}') ||
    c == '\U{2028}' || c == '\U{2029}' || c == '\U{202F}' || c == '\U{205F}' ||
    c == '\U{3000}' || c == '\U{FEFF}'
  }

  /**
   * In ASCII the class is the space and tab through carriage return; no whitespace character
   * is `_` or a character `encodeURIComponent` keeps.
   */
  lemma JsWhitespaceClass(c: char)
    ensures c as int < 0x80 ==> (IsJsWhitespace(c) <==> c == ' ' || '\t' <= c <= '\r')
    ensures IsJsWhitespace(c) ==> c != '_' && !IsUriUnreserved(c)
  {
  }

  predicate NoWhitespace(s: string) {
    forall i :: 0 <= i < |s| ==> !IsJsWhitespace(s[i])
  }

  /** Drops the whitespace at the front. */
  function TrimStart(s: string): (r: string)
    ensures |r| <= |s| && r == s[|s| - |r|..]
    ensures r == [] || !IsJsWhitespace(r[0])
    ensures forall i :: 0 <= i < |s| - |r| ==> IsJsWhitespace(s[i])
    decreases |s|
  {
    if s != [] && IsJsWhitespace(s[0]) then TrimStart(s[1..]) else s
  }

  /** Drops the whitespace at the back. */
  function TrimEnd(s: string): (r: string)
    ensures |r| <= |s| && r == s[..|r|]
    ensures r == [] || !IsJsWhitespace(r[|r| - 1])
    ensures forall i :: |r| <= i < |s| ==> IsJsWhitespace(s[i])
    decreases |s|
  {
    if s != [] && IsJsWhitespace(s[|s| - 1]) then TrimEnd(s[..|s| - 1]) else s
  }

  /** `String.prototype.trim`: whitespace at neither end of the result. */
  function Trim(s: string): (r: string)
    ensures |r| <= |s|
    ensures r == [] || (!IsJsWhitespace(r[0]) && !IsJsWhitespace(r[|r| - 1]))
  {
    TrimEnd(TrimStart(s))
  }

  /**
   * The trimmed text is the slice of the input that starts after its leading whitespace and
   * stops before its trailing whitespace.
   */
  lemma TrimIsMiddleSlice(s: string)
    ensures var k := |s| - |TrimStart(s)|;
      k + |Trim(s)| <= |s| && Trim(s) == s[k..k + |Trim(s)|] &&
      (forall i :: 0 <= i < k ==> IsJsWhitespace(s[i])) &&
      (forall i :: k + |Trim(s)| <= i < |s| ==> IsJsWhitespace(s[i]))
  {
    var t := TrimStart(s);
    var r := TrimEnd(t);
    var k := |s| - |t|;
    assert t == s[k..];
    assert r == t[..|r|];
    assert r == s[k..k + |r|];
    forall i | k + |r| <= i < |s| ensures IsJsWhitespace(s[i]) {
      assert s[i] == t[i - k];
    }
  }

  /** `!text.trim()` holds exactly for the strings made of whitespace only (the empty one too). */
  lemma TrimEmptyIffBlank(s: string)
    ensures Trim(s) == [] <==> forall i :: 0 <= i < |s| ==> IsJsWhitespace(s[i])
  {
    var t := TrimStart(s);
    if Trim(s) == [] {
      assert t == [];
    } else {
      var k := |s| - |t|;
      assert t != [];
      assert !IsJsWhitespace(s[k]);
    }
  }

  /** The decimal digits of a natural number, as `Number.prototype.toString` prints an integer. */
  function DecimalString(n: nat): (r: string)
    ensures |r| >= 1
    ensures forall i :: 0 <= i < |r| ==> '0' <= r[i] <= '9'
    ensures r[0] == '0' ==> n == 0
    decreases n
  {
    var d := ['0' + (n % 10) as char];
    if n < 10 then d else DecimalString(n / 10) + d
  }

  /** The value a string of decimal digits denotes. */
  function DecimalValue(s: string): nat
    requires forall i :: 0 <= i < |s| ==> '0' <= s[i] <= '9'
    decreases |s|
  {
    if s == [] then 0 else 10 * DecimalValue(s[..|s| - 1]) + (s[|s| - 1] - '0') as int
  }

  /** Reading the printed digits back gives the number. */
  lemma {:induction false} DecimalRoundTrip(n: nat)
    ensures DecimalValue(DecimalString(n)) == n
    decreases n
  {
    var r := DecimalString(n);
    if n >= 10 {
      DecimalRoundTrip(n / 10);
      assert r[..|r| - 1] == DecimalString(n / 10);
    }
  }

  // ---------------------------------------------------------------------------------------
  // encodeURIComponent, used for the avatar of a new chat.
  // ---------------------------------------------------------------------------------------

  /** The characters `encodeURIComponent` leaves as they are. */
  predicate IsUriUnreserved(c: char) {
    ('A' <= c <= 'Z') || ('a' <= c <= 'z') || ('0' <= c <= '9') ||
    c == '-' || c == '_' || c == '.' || c == '!' || c == '~' || c == '*' || c == '\'' || c == '(' || c == ')'
  }

  /**
   * The code point a UTF-8 sequence of one to four bytes carries, read back from its payload
   * bits: the lead byte's low bits, then six bits per continuation byte.
   */
  function Utf8Value(bytes: seq<Byte>): int {
    if |bytes| == 1 then bytes[0]
    else if |bytes| == 2 then (bytes[0] as int - 0xC0) * 64 + (bytes[1] as int - 0x80)
    else if |bytes| == 3 then
      (bytes[0] as int - 0xE0) * 4096 + (bytes[1] as int - 0x80) * 64 + (bytes[2] as int - 0x80)
    else if |bytes| == 4 then
      (bytes[0] as int - 0xF0) * 262144 + (bytes[1] as int - 0x80) * 4096 +
      (bytes[2] as int - 0x80) * 64 + (bytes[3] as int - 0x80)
    else -1
  }

  /** The lead byte announces the length of the sequence, as UTF-8 demands. */
  predicate Utf8LeadFits(bytes: seq<Byte>) {
    1 <= |bytes| <= 4 &&
    (|bytes| == 1 ==> bytes[0] < 0x80) &&
    (|bytes| == 2 ==> 0xC0 <= bytes[0] < 0xE0) &&
    (|bytes| == 3 ==> 0xE0 <= bytes[0] < 0xF0) &&
    (|bytes| == 4 ==> 0xF0 <= bytes[0] < 0xF8)
  }

  /**
   * The UTF-8 encoding of one code point: the shortest length that holds it, a lead byte that
   * announces that length, continuation bytes `10xxxxxx`, and payload bits that read back as
   * the code point.  Together these leave one sequence per code point.
   */
  function Utf8(c: char): (bytes: seq<Byte>)
    ensures |bytes| == 1 <==> c as int < 0x80
    ensures |bytes| == 2 <==> 0x80 <= c as int < 0x800
    ensures |bytes| == 3 <==> 0x800 <= c as int < 0x10000
    ensures |bytes| == 4 <==> 0x10000 <= c as int
    ensures Utf8LeadFits(bytes)
    ensures forall i :: 1 <= i < |bytes| ==> 0x80 <= bytes[i] < 0xC0
    ensures Utf8Value(bytes) == c as int
  {
    var cp := c as int;
    if cp < 0x80 then [cp]
    else if cp < 0x800 then Utf8Two(cp)
    else if cp < 0x10000 then Utf8Three(cp)
    else Utf8Four(cp)
  }

  /** The two-byte form `110xxxxx 10xxxxxx`. */
  function Utf8Two(cp: int): (bytes: seq<Byte>)
    requires 0x80 <= cp < 0x800
    ensures |bytes| == 2 && 0xC0 <= bytes[0] < 0xE0 && 0x80 <= bytes[1] < 0xC0
    ensures Utf8Value(bytes) == cp
  {
    [0xC0 + cp / 64, 0x80 + cp % 64]
  }

  /** The three-byte form `1110xxxx 10xxxxxx 10xxxxxx`. */
  function Utf8Three(cp: int): (bytes: seq<Byte>)
    requires 0x800 <= cp < 0x10000
    ensures |bytes| == 3 && 0xE0 <= bytes[0] < 0xF0
    ensures 0x80 <= bytes[1] < 0xC0 && 0x80 <= bytes[2] < 0xC0
    ensures Utf8Value(bytes) == cp
  {
    var low := cp % 4096;
    assert cp == (cp / 4096) * 4096 + low;
    assert low == (low / 64) * 64 + low % 64;
    assert (cp / 64) % 64 == low / 64 && cp % 64 == low % 64;
    [0xE0 + cp / 4096, 0x80 + low / 64, 0x80 + low % 64]
  }

  /** The four-byte form `11110xxx 10xxxxxx 10xxxxxx 10xxxxxx`, up to U+10FFFF. */
  function Utf8Four(cp: int): (bytes: seq<Byte>)
    requires 0x10000 <= cp <= 0x10FFFF
    ensures |bytes| == 4 && 0xF0 <= bytes[0] < 0xF8
    ensures 0x80 <= bytes[1] < 0xC0 && 0x80 <= bytes[2] < 0xC0 && 0x80 <= bytes[3] < 0xC0
    ensures Utf8Value(bytes) == cp
  {
    var low := cp % 262144;
    var mid := low % 4096;
    assert cp == (cp / 262144) * 262144 + low;
    assert low == (low / 4096) * 4096 + mid;
    assert mid == (mid / 64) * 64 + mid % 64;
    [0xF0 + cp / 262144, 0x80 + low / 4096, 0x80 + mid / 64, 0x80 + mid % 64]
  }

  /** The value of a hexadecimal digit, upper or lower case; -1 for any other character. */
  function HexValue(c: char): int {
    if '0' <= c <= '9' then c as int - '0' as int
    else if 'A' <= c <= 'F' then c as int - 'A' as int + 10
    else if 'a' <= c <= 'f' then c as int - 'a' as int + 10
    else -1
  }

  /** The upper-case hexadecimal digit of `d`. */
  function HexDigit(d: nat): (c: char)
    requires d < 16
    ensures ('0' <= c <= '9') || ('A' <= c <= 'F')
    ensures HexValue(c) == d
  {
    if d < 10 then '0' + d as char else 'A' + (d - 10) as char
  }

  /** `%XX` for each byte, with upper-case hexadecimal digits: `%`, the high digit, the low one. */
  function PercentEncode(bytes: seq<Byte>): (r: string)
    ensures |r| == 3 * |bytes|
    ensures forall i :: 0 <= i < |bytes| ==>
      r[3 * i] == '%' && r[3 * i + 1] == HexDigit(bytes[i] / 16) && r[3 * i + 2] == HexDigit(bytes[i] % 16)
    ensures forall i :: 0 <= i < |r| ==> r[i] == '%' || IsUriUnreserved(r[i])
    decreases |bytes|
  {
    if bytes == [] then []
    else
      var rest := PercentEncode(bytes[1..]);
      var r := ['%', HexDigit(bytes[0] / 16), HexDigit(bytes[0] % 16)] + rest;
      PercentEncodeStep(bytes, rest, r);
      r
  }

  /** The triples after the first one are the triples of the rest, shifted by three. */
  lemma PercentEncodeStep(bytes: seq<Byte>, rest: string, r: string)
    requires bytes != [] && r == ['%', HexDigit(bytes[0] / 16), HexDigit(bytes[0] % 16)] + rest
    requires |rest| == 3 * (|bytes| - 1)
    requires forall i :: 0 <= i < |bytes| - 1 ==>
      rest[3 * i] == '%' && rest[3 * i + 1] == HexDigit(bytes[1..][i] / 16) &&
      rest[3 * i + 2] == HexDigit(bytes[1..][i] % 16)
    ensures forall i :: 0 <= i < |bytes| ==>
      r[3 * i] == '%' && r[3 * i + 1] == HexDigit(bytes[i] / 16) && r[3 * i + 2] == HexDigit(bytes[i] % 16)
  {
    forall i | 0 <= i < |bytes|
      ensures r[3 * i] == '%' && r[3 * i + 1] == HexDigit(bytes[i] / 16) && r[3 * i + 2] == HexDigit(bytes[i] % 16)
    {
      if i > 0 {
        var j := i - 1;
        assert bytes[i] == bytes[1..][j];
        assert r[3 * i] == rest[3 * j] && r[3 * i + 1] == rest[3 * j + 1] && r[3 * i + 2] == rest[3 * j + 2];
      }
    }
  }

  /** `encodeURIComponent`: unreserved characters stay, every other one is percent-encoded UTF-8. */
  function EncodeUriComponent(s: string): (r: string)
    ensures forall i :: 0 <= i < |r| ==> r[i] == '%' || IsUriUnreserved(r[i])
    ensures (forall i :: 0 <= i < |s| ==> IsUriUnreserved(s[i])) ==> r == s
    ensures |r| >= |s|
    decreases |s|
  {
    if s == [] then []
    else
      var head := if IsUriUnreserved(s[0]) then [s[0]] else PercentEncode(Utf8(s[0]));
      head + EncodeUriComponent(s[1..])
  }

  /**
   * `encodeURIComponent` works character by character: the encoding of a join is the join of
   * the encodings, and one character is kept when unreserved and otherwise becomes the
   * percent-encoded bytes of its UTF-8 form.
   */
  lemma {:induction false} EncodeUriJoin(s: string, t: string)
    ensures EncodeUriComponent(s + t) == EncodeUriComponent(s) + EncodeUriComponent(t)
    ensures |s| == 1 ==>
      EncodeUriComponent(s) == (if IsUriUnreserved(s[0]) then s else PercentEncode(Utf8(s[0])))
    decreases |s|
  {
    if s == [] {
      assert s + t == t;
    } else {
      assert (s + t)[0] == s[0] && (s + t)[1..] == s[1..] + t;
      EncodeUriJoin(s[1..], t);
      if |s| == 1 {
        assert s[1..] == [];
      }
    }
  }

  // ---------------------------------------------------------------------------------------
  // The export file name: `name.replace(/\s+/g, '_')`.
  // ---------------------------------------------------------------------------------------

  /** Replaces every maximal run of whitespace with a single `_`. */
  function ReplaceWhitespaceRuns(s: string): (r: string)
    ensures |r| <= |s|
    decreases |s|
  {
    if s == [] then []
    else if IsJsWhitespace(s[0]) then "_" + ReplaceWhitespaceRuns(TrimStart(s[1..]))
    else [s[0]] + ReplaceWhitespaceRuns(s[1..])
  }

  /** The characters other than whitespace and `_`, in order. */
  function Kept(s: string): (r: string)
    decreases |s|
  {
    if s == [] then []
    else if IsJsWhitespace(s[0]) || s[0] == '_' then Kept(s[1..])
    else [s[0]] + Kept(s[1..])
  }

  /**
   * The number of maximal whitespace runs, counted character by character: a whitespace
   * character starts a run when the character before it (if any) is not whitespace.
   */
  function RunCount(afterWhitespace: bool, s: string): nat
    decreases |s|
  {
    if s == [] then 0
    else (if IsJsWhitespace(s[0]) && !afterWhitespace then 1 else 0) + RunCount(IsJsWhitespace(s[0]), s[1..])
  }

  lemma {:induction false} KeptSkipsRun(s: string)
    ensures Kept(TrimStart(s)) == Kept(s)
    decreases |s|
  {
    if s != [] && IsJsWhitespace(s[0]) {
      KeptSkipsRun(s[1..]);
    }
  }

  lemma {:induction false} RunCountSkipsRun(s: string)
    ensures RunCount(true, s) == RunCount(false, TrimStart(s))
    decreases |s|
  {
    if s != [] && IsJsWhitespace(s[0]) {
      RunCountSkipsRun(s[1..]);
    }
  }

  /** The result has no whitespace at all. */
  lemma {:induction false} ReplacedHasNoWhitespace(s: string)
    ensures NoWhitespace(ReplaceWhitespaceRuns(s))
    decreases |s|
  {
    if s != [] {
      if IsJsWhitespace(s[0]) {
        ReplacedHasNoWhitespace(TrimStart(s[1..]));
      } else {
        ReplacedHasNoWhitespace(s[1..]);
      }
    }
  }

  /** Every character other than whitespace and `_` survives, in order. */
  lemma {:induction false} ReplacedKeepsTheRest(s: string)
    ensures Kept(ReplaceWhitespaceRuns(s)) == Kept(s)
    decreases |s|
  {
    if s != [] {
      var r := ReplaceWhitespaceRuns(s);
      var rest := s[1..];
      if IsJsWhitespace(s[0]) {
        var t := TrimStart(rest);
        ReplacedKeepsTheRest(t);
        KeptSkipsRun(rest);
        assert r[1..] == ReplaceWhitespaceRuns(t);
      } else {
        ReplacedKeepsTheRest(rest);
        assert r[1..] == ReplaceWhitespaceRuns(rest);
      }
    }
  }

  /** The result holds one more `_` than the input for each run of whitespace. */
  lemma {:induction false} ReplacedAddsOneUnderscorePerRun(s: string)
    ensures multiset(ReplaceWhitespaceRuns(s))['_'] == multiset(s)['_'] + RunCount(false, s)
    decreases |s|
  {
    if s != [] {
      var r := ReplaceWhitespaceRuns(s);
      var rest := s[1..];
      assert s == [s[0]] + rest;
      if IsJsWhitespace(s[0]) {
        var t := TrimStart(rest);
        ReplacedAddsOneUnderscorePerRun(t);
        RunCountSkipsRun(rest);
        RunHoldsNoUnderscore(rest);
        assert r == "_" + ReplaceWhitespaceRuns(t);
      } else {
        ReplacedAddsOneUnderscorePerRun(rest);
        assert r == [s[0]] + ReplaceWhitespaceRuns(rest);
      }
    }
  }

  lemma {:induction false} RunHoldsNoUnderscore(s: string)
    ensures multiset(TrimStart(s))['_'] == multiset(s)['_']
    decreases |s|
  {
    if s != [] && IsJsWhitespace(s[0]) {
      assert s == [s[0]] + s[1..];
      RunHoldsNoUnderscore(s[1..]);
    }
  }

  /** A run of whitespace in front of a character that is not whitespace is skipped entirely. */
  lemma {:induction false} TrimStartSkipsRun(w: string, b: string)
    requires forall i :: 0 <= i < |w| ==> IsJsWhitespace(w[i])
    requires b == [] || !IsJsWhitespace(b[0])
    ensures TrimStart(w + b) == b
    decreases |w|
  {
    if w != [] {
      assert (w + b)[1..] == w[1..] + b;
      TrimStartSkipsRun(w[1..], b);
    } else {
      assert w + b == b;
    }
  }

  /** Trimming the front of a string that holds a non-whitespace character stays inside it. */
  lemma {:induction false} TrimStartOfPrefix(x: string, y: string)
    requires x != [] && !IsJsWhitespace(x[|x| - 1])
    ensures TrimStart(x + y) == TrimStart(x) + y
    decreases |x|
  {
    if IsJsWhitespace(x[0]) {
      assert (x + y)[1..] == x[1..] + y;
      TrimStartOfPrefix(x[1..], y);
    }
  }

  /**
   * The split law: a maximal whitespace run between two parts becomes exactly one `_` between
   * their replacements.  With `ReplaceIsIdentityWithoutWhitespace` this pins the function down:
   * the whitespace-free stretches of a name, `_` included, survive in place.
   */
  lemma {:induction false} ReplaceSplitsAtRun(a: string, w: string, b: string)
    requires a == [] || !IsJsWhitespace(a[|a| - 1])
    requires w != [] && forall i :: 0 <= i < |w| ==> IsJsWhitespace(w[i])
    requires b == [] || !IsJsWhitespace(b[0])
    ensures ReplaceWhitespaceRuns(a + w + b) == ReplaceWhitespaceRuns(a) + ("_" + ReplaceWhitespaceRuns(b))
    decreases |a|
  {
    if a == [] {
      assert a + w + b == w + b;
      ReplaceLeadingRun(w, b);
    } else {
      var t := if IsJsWhitespace(a[0]) then TrimStart(a[1..]) else a[1..];
      var p := if IsJsWhitespace(a[0]) then "_" else [a[0]];
      if IsJsWhitespace(a[0]) {
        ReplaceAfterLeadingWhitespace(a, w, b);
      } else {
        ReplaceAfterKeptChar(a, w, b);
      }
      ReplaceSplitsAtRun(t, w, b);
      var u := "_" + ReplaceWhitespaceRuns(b);
      SplitStep(p, ReplaceWhitespaceRuns(a + w + b), ReplaceWhitespaceRuns(t + w + b),
                ReplaceWhitespaceRuns(a), ReplaceWhitespaceRuns(t), u);
    }
  }

  /**
   * Both replacements start with `p`, and the rest of one is the rest of the other plus `u`.
   * A lemma of its own so that this step is taken without the facts about the replacement in
   * view; inlined into `ReplaceSplitsAtRun`, the proof runs out of resources on some seeds.
   */
  lemma SplitStep(p: string, whole: string, rest: string, ra: string, rt: string, u: string)
    requires whole == p + rest && ra == p + rt && rest == rt + u
    ensures whole == ra + u
  {
  }

  /** A name that starts with a whitespace run loses the run to one `_`. */
  lemma ReplaceLeadingRun(w: string, b: string)
    requires w != [] && forall i :: 0 <= i < |w| ==> IsJsWhitespace(w[i])
    requires b == [] || !IsJsWhitespace(b[0])
    ensures ReplaceWhitespaceRuns(w + b) == "_" + ReplaceWhitespaceRuns(b)
  {
    var s := w + b;
    assert s[0] == w[0];
    assert s[1..] == w[1..] + b;
    TrimStartSkipsRun(w[1..], b);
  }

  /** Leading whitespace in front of a part that ends in a kept character. */
  lemma ReplaceAfterLeadingWhitespace(a: string, w: string, b: string)
    requires a != [] && IsJsWhitespace(a[0]) && !IsJsWhitespace(a[|a| - 1])
    ensures TrimStart(a[1..]) != [] && TrimStart(a[1..])[|TrimStart(a[1..])| - 1] == a[|a| - 1]
    ensures |TrimStart(a[1..])| < |a|
    ensures ReplaceWhitespaceRuns(a + w + b) == "_" + ReplaceWhitespaceRuns(TrimStart(a[1..]) + w + b)
    ensures ReplaceWhitespaceRuns(a) == "_" + ReplaceWhitespaceRuns(TrimStart(a[1..]))
  {
    TrimTailKeepsLast(a);
    ReplaceJoinAfterLeadingWhitespace(a, w, b);
    ReplaceAtWhitespace(a);
  }

  /** Past a leading whitespace character, trimming the front keeps the kept last character. */
  lemma TrimTailKeepsLast(a: string)
    requires a != [] && IsJsWhitespace(a[0]) && !IsJsWhitespace(a[|a| - 1])
    ensures TrimStart(a[1..]) != [] && TrimStart(a[1..])[|TrimStart(a[1..])| - 1] == a[|a| - 1]
    ensures |TrimStart(a[1..])| < |a|
  {
    var x := a[1..];
    assert x != [] && x[|x| - 1] == a[|a| - 1];
    TrimStartKeepsLast(x);
  }

  /** The whitespace at the front of `a` is replaced before `w` and `b` are reached. */
  lemma ReplaceJoinAfterLeadingWhitespace(a: string, w: string, b: string)
    requires a != [] && IsJsWhitespace(a[0]) && !IsJsWhitespace(a[|a| - 1])
    ensures ReplaceWhitespaceRuns(a + w + b) == "_" + ReplaceWhitespaceRuns(TrimStart(a[1..]) + w + b)
  {
    var x := a[1..];
    assert x != [] && x[|x| - 1] == a[|a| - 1];
    TrimStartOfPrefix(x, w + b);
    DropFirstOfJoin(a, w, b);
    ReplaceAtWhitespace(a + w + b);
    assert TrimStart(x) + (w + b) == TrimStart(x) + w + b;
  }

  /**
   * Dropping the first character of a three-part join drops it from the first part.  A lemma
   * of its own for the same reason as `SplitStep`: in a context holding the facts about
   * `TrimStart`, this sequence equality runs out of resources.
   */
  lemma DropFirstOfJoin(a: string, w: string, b: string)
    requires a != []
    ensures (a + w + b)[0] == a[0] && (a + w + b)[1..] == a[1..] + (w + b)
  {
  }

  /** A name that starts with whitespace: one `_`, then the rest after the run. */
  lemma ReplaceAtWhitespace(s: string)
    requires s != [] && IsJsWhitespace(s[0])
    ensures ReplaceWhitespaceRuns(s) == "_" + ReplaceWhitespaceRuns(TrimStart(s[1..]))
  {
  }

  /** Trimming the front of a string that ends in a kept character keeps that last character. */
  lemma TrimStartKeepsLast(x: string)
    requires x != [] && !IsJsWhitespace(x[|x| - 1])
    ensures TrimStart(x) != [] && TrimStart(x)[|TrimStart(x)| - 1] == x[|x| - 1]
  {
  }

  /** A kept first character stays first. */
  lemma ReplaceAfterKeptChar(a: string, w: string, b: string)
    requires a != [] && !IsJsWhitespace(a[0])
    ensures ReplaceWhitespaceRuns(a + w + b) == [a[0]] + ReplaceWhitespaceRuns(a[1..] + w + b)
    ensures ReplaceWhitespaceRuns(a) == [a[0]] + ReplaceWhitespaceRuns(a[1..])
  {
    var s := a + w + b;
    assert s[0] == a[0];
    assert s[1..] == a[1..] + w + b;
  }

  /**
   * A name with one whitespace run between two whitespace-free parts becomes the first part,
   * one `_` and the second part: `a b_c` becomes `a_b_c`, with the `_` it had kept in its place.
   */
  lemma ReplaceSingleRun(a: string, w: string, b: string)
    requires NoWhitespace(a) && NoWhitespace(b)
    requires w != [] && forall i :: 0 <= i < |w| ==> IsJsWhitespace(w[i])
    ensures ReplaceWhitespaceRuns(a + w + b) == a + "_" + b
  {
    NoWhitespaceEnds(a);
    NoWhitespaceEnds(b);
    ReplaceSplitsAtRun(a, w, b);
    ReplaceIsIdentityWithoutWhitespace(a);
    ReplaceIsIdentityWithoutWhitespace(b);
  }

  /** A whitespace-free string neither starts nor ends in whitespace. */
  lemma NoWhitespaceEnds(s: string)
    requires NoWhitespace(s)
    ensures s == [] || (!IsJsWhitespace(s[0]) && !IsJsWhitespace(s[|s| - 1]))
  {
  }

  /** A name without whitespace is kept as it is, so replacing twice is replacing once. */
  lemma {:induction false} ReplaceIsIdentityWithoutWhitespace(s: string)
    requires NoWhitespace(s)
    ensures ReplaceWhitespaceRuns(s) == s
    decreases |s|
  {
    if s != [] {
      ReplaceIsIdentityWithoutWhitespace(s[1..]);
      assert s == [s[0]] + s[1..];
    }
  }

  lemma ReplaceIsIdempotent(s: string)
    ensures ReplaceWhitespaceRuns(ReplaceWhitespaceRuns(s)) == ReplaceWhitespaceRuns(s)
  {
    ReplacedHasNoWhitespace(s);
    ReplaceIsIdentityWithoutWhitespace(ReplaceWhitespaceRuns(s));
  }

  /** `${name.replace(/\s+/g, '_')}_${Date.now()}_log.json`. */
  function ExportFileName(chatName: string, now: nat): (r: string)
    ensures NoWhitespace(r)
    ensures |r| >= |ReplaceWhitespaceRuns(chatName)| + 10
    ensures r[..|ReplaceWhitespaceRuns(chatName)|] == ReplaceWhitespaceRuns(chatName)
    ensures r[|r| - 9..] == "_log.json"
  {
    var base := ReplaceWhitespaceRuns(chatName);
    var tail := "_" + DecimalString(now) + "_log.json";
    ReplacedHasNoWhitespace(chatName);
    assert NoWhitespace(tail) by {
      forall i | 0 <= i < |tail| ensures !IsJsWhitespace(tail[i]) {
        if 1 <= i < |tail| - 9 {
          assert tail[i] == DecimalString(now)[i - 1];
        }
      }
    }
    var r := base + tail;
    assert r[..|base|] == base;
    assert r[|r| - 9..] == tail[|tail| - 9..];
    r
  }

  // ---------------------------------------------------------------------------------------
  // The chat list.
  // ---------------------------------------------------------------------------------------

  /** `chats.find(c => c.id === id)`: the first chat with that id; a null id matches none. */
  function FindById(chats: seq<ChatSession>, id: Option<string>): (r: Option<nat>)
    ensures r.Some? ==> id.Some? && r.value < |chats| && chats[r.value].id == id.value
    ensures r.Some? ==> forall j :: 0 <= j < r.value ==> chats[j].id != id.value
    ensures r.None? ==> id.None? || forall j :: 0 <= j < |chats| ==> chats[j].id != id.value
    decreases |chats|
  {
    if id.None? || chats == [] then None
    else if chats[0].id == id.value then Some(0)
    else match FindById(chats[1..], id)
      case None => None
      case Some(k) => Some(k + 1)
  }

  /** `chats.find(c => c.name === name)`: the first chat with that name. */
  function FindByName(chats: seq<ChatSession>, name: string): (r: Option<nat>)
    ensures r.Some? ==> r.value < |chats| && chats[r.value].name == name
    ensures r.Some? ==> forall j :: 0 <= j < r.value ==> chats[j].name != name
    ensures r.None? ==> forall j :: 0 <= j < |chats| ==> chats[j].name != name
    decreases |chats|
  {
    if chats == [] then None
    else if chats[0].name == name then Some(0)
    else match FindByName(chats[1..], name)
      case None => None
      case Some(k) => Some(k + 1)
  }

  /**
   * A chat after `m` was appended to it, `{...chat, messages: [...messages, m], ...}`: the old
   * messages come first, `m` is last and becomes the preview; id, name, avatar, presence and
   * kind stay.
   */
  function WithMessage(chat: ChatSession, m: Message): (r: ChatSession)
    ensures |r.messages| == |chat.messages| + 1
    ensures r.messages[..|chat.messages|] == chat.messages && r.messages[|chat.messages|] == m
    ensures r.lastMessage == m.text && r.timestamp == m.timestamp
    ensures r.id == chat.id && r.name == chat.name && r.avatar == chat.avatar
    ensures r.isOnline == chat.isOnline && r.kind == chat.kind
  {
    chat.(messages := chat.messages + [m], lastMessage := m.text, timestamp := m.timestamp)
  }

  /**
   * `prev.map(chat => chat.id === id ? WithMessage(chat, m) : chat)`: every chat with the id gets
   * `m` as its last message and as its preview; every other chat, the length and the order of
   * the list stay as they were.
   */
  function AppendToChat(chats: seq<ChatSession>, id: string, m: Message): (r: seq<ChatSession>)
    ensures |r| == |chats|
    ensures forall i :: 0 <= i < |r| ==> r[i].id == chats[i].id
    ensures forall i :: 0 <= i < |r| && chats[i].id != id ==> r[i] == chats[i]
    ensures forall i :: 0 <= i < |r| && chats[i].id == id ==>
      r[i].messages == chats[i].messages + [m] &&
      r[i].lastMessage == m.text && r[i].timestamp == m.timestamp &&
      r[i].name == chats[i].name && r[i].avatar == chats[i].avatar &&
      r[i].isOnline == chats[i].isOnline && r[i].kind == chats[i].kind
  {
    seq(|chats|, i requires 0 <= i < |chats| => if chats[i].id == id then WithMessage(chats[i], m) else chats[i])
  }

  /** A send to an id no chat has leaves the list as it is. */
  lemma AppendToMissingChat(chats: seq<ChatSession>, id: string, m: Message)
    requires forall i :: 0 <= i < |chats| ==> chats[i].id != id
    ensures AppendToChat(chats, id, m) == chats
  {
  }

  /** The guard of `handleSendMessage`: `!inputText.trim() || !selectedChatId` fails it. */
  predicate SendAllowed(inputText: string, selected: Option<string>) {
    Trim(inputText) != [] && selected.Some? && selected.value != ""
  }

  /**
   * A send goes ahead exactly when the input holds a character that is not whitespace and a
   * chat is selected; an empty id is falsy and counts as no selection.
   */
  lemma SendAllowedIffText(inputText: string, selected: Option<string>)
    ensures SendAllowed(inputText, selected) <==>
      (exists i :: 0 <= i < |inputText| && !IsJsWhitespace(inputText[i])) &&
      selected.Some? && selected.value != ""
  {
    TrimEmptyIffBlank(inputText);
  }

  /**
   * The message the user sends: from `me`, with the text as typed, no assistant flag, and an
   * id that reads back as its timestamp (both come from one clock reading).
   */
  function OwnMessage(text: string, now: nat): (m: Message)
    ensures m.senderId == "me" && m.text == text && m.isAi.None?
    ensures m.timestamp == now
    ensures forall i :: 0 <= i < |m.id| ==> '0' <= m.id[i] <= '9'
    ensures DecimalValue(m.id) == m.timestamp
  {
    DecimalRoundTrip(now);
    Message(DecimalString(now), "me", text, now, None)
  }

  /** What the generative-model call came back with: a failure, or a response whose text may be absent. */
  datatype AiResponse = Failed | Responded(text: Option<string>)

  /** `response.text || fallback`: an absent or empty text falls back to the fixed apology. */
  function ReplyText(text: Option<string>): (r: string)
    ensures text.Some? && text.value != "" ==> r == text.value
    ensures text.None? || text.value == "" ==> r == AI_FALLBACK
    ensures r != ""
  {
    if text.Some? && text.value != "" then text.value else AI_FALLBACK
  }

  /**
   * The assistant's reply: from `ai`, flagged as such, stamped with the clock reading, and with
   * the id one past it, so it never takes the id of the user's message from the same reading.
   */
  function AiMessage(text: string, now: nat): (m: Message)
    ensures m.senderId == "ai" && m.text == text && m.isAi == Some(true) && m.timestamp == now
    ensures forall i :: 0 <= i < |m.id| ==> '0' <= m.id[i] <= '9'
    ensures DecimalValue(m.id) == now + 1
    ensures m.id != OwnMessage(text, now).id
  {
    DecimalRoundTrip(now + 1);
    DecimalRoundTrip(now);
    Message(DecimalString(now + 1), "ai", text, now, Some(true))
  }

  /** A send that is waiting for the assistant: the chat it went to and the text it carried. */
  datatype PendingReply = PendingReply(chatId: string, prompt: string)

  /** `activeChat?.type === 'ai'`: the first chat with the selected id is the assistant's. */
  predicate IsAiChat(chats: seq<ChatSession>, selected: Option<string>) {
    var found := FindById(chats, selected);
    found.Some? && chats[found.value].kind == Ai
  }

  /** A chat's kind decides the reply: the first chat with the id is the one that counts. */
  lemma {:induction false} IsAiChatIffFirstIsAi(chats: seq<ChatSession>, id: string, i: nat)
    requires i < |chats| && chats[i].id == id
    requires forall j :: 0 <= j < i ==> chats[j].id != id
    ensures IsAiChat(chats, Some(id)) <==> chats[i].kind == Ai
    decreases i
  {
    if i > 0 {
      IsAiChatIffFirstIsAi(chats[1..], id, i - 1);
    }
  }

  /** The chat `handleStartChatFromCall` creates for a name no chat has. */
  function NewChat(contactName: string, now: nat): (c: ChatSession)
    ensures c.name == contactName && c.messages == [] && c.kind == Direct && !c.isOnline
    ensures c.lastMessage == NEW_CHAT_LAST_MESSAGE && c.timestamp == now
    ensures c.id == "chat_" + DecimalString(now)
  {
    ChatSession(
      "chat_" + DecimalString(now),
      contactName,
      "https://ui-avatars.com/api/?name=" + EncodeUriComponent(contactName) + "&background=random",
      [],
      NEW_CHAT_LAST_MESSAGE,
      now,
      false,
      Direct)
  }

  /** The chat list and the selected id after `handleStartChatFromCall(contactName)`. */
  function StartChat(chats: seq<ChatSession>, contactName: string, now: nat): (r: (seq<ChatSession>, string))
    ensures FindByName(chats, contactName).Some? ==>
      r.0 == chats && r.1 == chats[FindByName(chats, contactName).value].id
    ensures FindByName(chats, contactName).None? ==>
      |r.0| == |chats| + 1 && r.0[0] == NewChat(contactName, now) && r.0[1..] == chats && r.1 == r.0[0].id
  {
    match FindByName(chats, contactName)
    case Some(i) => (chats, chats[i].id)
    case None =>
      var c := NewChat(contactName, now);
      ([c] + chats, c.id)
  }

  /** Opening a chat for a name twice in a row changes nothing the second time. */
  lemma StartChatTwice(chats: seq<ChatSession>, contactName: string, now: nat, later: nat)
    ensures var (once, selected) := StartChat(chats, contactName, now);
            StartChat(once, contactName, later) == (once, selected)
  {
    var (once, selected) := StartChat(chats, contactName, now);
    match FindByName(chats, contactName)
    case Some(i) =>
    case None => assert once[0].name == contactName;
  }

  // ---------------------------------------------------------------------------------------
  // The call log's expanded row.
  // ---------------------------------------------------------------------------------------

  /** `expandedCallId === id ? null : id`. */
  function Toggle(expanded: Option<string>, id: string): (r: Option<string>)
    ensures r.None? <==> expanded == Some(id)
    ensures r.Some? ==> r.value == id
  {
    if expanded == Some(id) then None else Some(id)
  }

  /** Clicking the same row twice restores the earlier state exactly when no other row was open. */
  lemma ToggleTwice(expanded: Option<string>, id: string)
    ensures Toggle(Toggle(expanded, id), id) == expanded <==> expanded.None? || expanded == Some(id)
    ensures expanded.Some? && expanded != Some(id) ==> Toggle(Toggle(expanded, id), id).None?
  {
  }

  // ---------------------------------------------------------------------------------------
  // The mock data the app starts with, read at `now`.
  // ---------------------------------------------------------------------------------------

  function MockChats(now: int): seq<ChatSession> {
    [
      ChatSession("0", "Tech Skyline AI Assistant", "https://ui-avatars.com/api/?name=AI&background=0891b2&color=fff",
        [Message("m0", "ai", "Welcome to Tech Skyline! I am your personal AI assistant. Your line " + USER_PHONE_NUMBER +
          " is active and secured. How can I help you today?", now - 100000, Some(true))],
        "Your line is active and secured.", now - 50000, true, Ai),
      ChatSession("1", "International Student Group", "https://picsum.photos/200/200?random=1",
        [Message("m1", "other", "Has anyone applied for the visa extension yet?", now - 300000, None),
         Message("m2", "me", "Yes, I submitted mine yesterday via the portal.", now - 100000, None)],
        "Yes, I submitted mine yesterday...", now - 100000, false, Group),
      ChatSession("2", "Sarah Jenkins", "https://picsum.photos/200/200?random=2", [],
        "Call me back on my US number.", now - 800000, true, Direct)
    ]
  }

  function MockCalls(now: int): seq<CallLog> {
    [
      CallLog("c1", "Mom", Audio, Incoming, "12m 45s", now - 3600000),
      CallLog("c2", "Sarah Jenkins", Video, Outgoing, "45m 12s", now - 86400000),
      CallLog("c3", "University Office", Audio, Missed, "0s", now - 172800000),
      CallLog("c4", "Tech Support", Audio, Incoming, "5m 22s", now - 259200000)
    ]
  }

  /** The seed chats and calls have distinct ids, and only the first seed chat is the assistant's. */
  lemma SeedData(now: int)
    ensures forall i, j :: 0 <= i < j < |MockChats(now)| ==> MockChats(now)[i].id != MockChats(now)[j].id
    ensures forall i, j :: 0 <= i < j < |MockCalls(now)| ==> MockCalls(now)[i].id != MockCalls(now)[j].id
    ensures IsAiChat(MockChats(now), Some("0"))
    ensures !IsAiChat(MockChats(now), Some("1")) && !IsAiChat(MockChats(now), Some("2"))
  {
    var chats := MockChats(now);
    assert chats[0].id == "0" && chats[1].id == "1" && chats[2].id == "2";
    IsAiChatIffFirstIsAi(chats, "0", 0);
    IsAiChatIffFirstIsAi(chats, "1", 1);
    IsAiChatIffFirstIsAi(chats, "2", 2);
  }

  /**
   * From the call log, messaging Sarah Jenkins opens her existing chat and leaves the list as it
   * is, while messaging Mom, who has no chat, prepends a new one.
   */
  lemma CallLogOpensChats(now: int, later: nat)
    ensures StartChat(MockChats(now), MockCalls(now)[1].name, later) == (MockChats(now), "2")
    ensures var (next, selected) := StartChat(MockChats(now), MockCalls(now)[0].name, later);
      next == [NewChat("Mom", later)] + MockChats(now) && selected == "chat_" + DecimalString(later)
  {
    var chats := MockChats(now);
    assert chats[0].name != "Sarah Jenkins" && chats[1].name != "Sarah Jenkins";
    assert chats[1..][1..] == chats[2..] && chats[2..][0] == chats[2];
    assert FindByName(chats[2..], "Sarah Jenkins") == Some(0);
    assert FindByName(chats[1..], "Sarah Jenkins") == Some(1);
    assert forall j :: 0 <= j < |chats| ==> chats[j].name != "Mom";
  }

  // ---------------------------------------------------------------------------------------
  // The component's state and its handlers.
  // ---------------------------------------------------------------------------------------

  class ChatApp {
    /** `MOCK_CALLS`, the rows of the call log. */
    const calls: seq<CallLog>
    var activeView: AppView
    var selectedChatId: Option<string>
    var chats: seq<ChatSession>
    var inputText: string
    var isTyping: bool
    var expandedCallId: Option<string>

    /** The initial state: the chats view, the first mock chat selected, nothing typed. */
    constructor (now: int)
      ensures activeView == Chats && chats == MockChats(now) && selectedChatId == Some("0")
      ensures inputText == "" && !isTyping && expandedCallId.None?
      ensures calls == MockCalls(now)
    {
      calls := MockCalls(now);
      activeView := Chats;
      chats := MockChats(now);
      selectedChatId := Some(MockChats(now)[0].id);
      inputText := "";
      isTyping := false;
      expandedCallId := None;
    }

    /** Typing in the message box. */
    method SetInputText(text: string)
      modifies this`inputText
      ensures inputText == text
    {
      inputText := text;
    }

    /** Clicking a chat in the list. */
    method SelectChat(id: string)
      modifies this`selectedChatId
      ensures selectedChatId == Some(id)
    {
      selectedChatId := Some(id);
    }

    /** A navigation button. */
    method Navigate(view: AppView)
      modifies this`activeView
      ensures activeView == view
    {
      activeView := view;
    }

    /**
     * `handleSendMessage` up to the `await`: with blank input or no selected chat nothing
     * changes.  Otherwise the message joins the selected chat, the box is emptied, and when the
     * selected chat is the assistant's the typing indicator turns on and a reply is awaited.
     */
    method SendMessage(now: nat) returns (pending: Option<PendingReply>)
      modifies this`chats, this`inputText, this`isTyping
      ensures !SendAllowed(old(inputText), selectedChatId) ==>
        chats == old(chats) && inputText == old(inputText) && isTyping == old(isTyping) && pending.None?
      ensures SendAllowed(old(inputText), selectedChatId) ==>
        chats == AppendToChat(old(chats), selectedChatId.value, OwnMessage(old(inputText), now)) &&
        inputText == "" &&
        (pending.Some? <==> IsAiChat(old(chats), selectedChatId)) &&
        (pending.Some? ==> pending.value == PendingReply(selectedChatId.value, old(inputText)) && isTyping) &&
        (pending.None? ==> isTyping == old(isTyping))
    {
      pending := None;
      if !SendAllowed(inputText, selectedChatId) {
        return;
      }
      var target := selectedChatId.value;
      var message := OwnMessage(inputText, now);
      var wasAi := IsAiChat(chats, selectedChatId);
      chats := AppendToChat(chats, target, message);
      inputText := "";
      if wasAi {
        isTyping := true;
        pending := Some(PendingReply(target, message.text));
      }
    }

    /**
     * `handleSendMessage` after the `await`: a response (with the fallback for an empty text)
     * is appended to the chat the message went to; on failure nothing is appended.  Either way
     * the typing indicator ends.
     */
    method ReceiveAiReply(pending: PendingReply, response: AiResponse, now: nat)
      modifies this`chats, this`isTyping
      ensures !isTyping
      ensures response.Failed? ==> chats == old(chats)
      ensures response.Responded? ==>
        chats == AppendToChat(old(chats), pending.chatId, AiMessage(ReplyText(response.text), now))
    {
      if response.Responded? {
        chats := AppendToChat(chats, pending.chatId, AiMessage(ReplyText(response.text), now));
      }
      isTyping := false;
    }

    /**
     * `handleStartChatFromCall`: selects the first chat with that name, or prepends a new one
     * and selects it; either way the chats view is shown.
     */
    method StartChatFromCall(contactName: string, now: nat)
      modifies this`chats, this`selectedChatId, this`activeView
      ensures selectedChatId.Some? && (chats, selectedChatId.value) == StartChat(old(chats), contactName, now)
      ensures activeView == Chats
    {
      var (next, selected) := StartChat(chats, contactName, now);
      selectedChatId := Some(selected);
      chats := next;
      activeView := Chats;
    }

    /** `handleKeypadMessage`: the dialled number is the contact name. */
    method KeypadMessage(number: string, now: nat)
      modifies this`chats, this`selectedChatId, this`activeView
      ensures selectedChatId.Some? && (chats, selectedChatId.value) == StartChat(old(chats), number, now)
      ensures activeView == Chats
    {
      StartChatFromCall(number, now);
    }

    /** The message button on row `i` of the call log: opens a chat with that caller. */
    method MessageFromCallLog(i: nat, now: nat)
      requires i < |calls|
      modifies this`chats, this`selectedChatId, this`activeView
      ensures selectedChatId.Some? && (chats, selectedChatId.value) == StartChat(old(chats), calls[i].name, now)
      ensures activeView == Chats
    {
      StartChatFromCall(calls[i].name, now);
    }

    /** Clicking row `i` of the call log. */
    method ToggleCall(i: nat)
      requires i < |calls|
      modifies this`expandedCallId
      ensures expandedCallId == Toggle(old(expandedCallId), calls[i].id)
    {
      expandedCallId := Toggle(expandedCallId, calls[i].id);
    }

    /** The file name `handleDownloadChat` gives the export; nothing when no chat is active. */
    method DownloadFileName(now: nat) returns (name: Option<string>)
      ensures FindById(chats, selectedChatId).None? <==> name.None?
      ensures name.Some? ==> name.value == ExportFileName(chats[FindById(chats, selectedChatId).value].name, now)
      ensures name.Some? ==> NoWhitespace(name.value)
    {
      var found := FindById(chats, selectedChatId);
      if found.None? {
        return None;
      }
      name := Some(ExportFileName(chats[found.value].name, now));
    }
  }
}
