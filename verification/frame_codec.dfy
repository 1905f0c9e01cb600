/**
 * The `~m~<len>~m~<payload>` framing of the quote protocol: `create_message` builds one frame,
 * `parse_tradingview_message` scans a raw transport message into its payloads with a cursor.
 * Both fetcher variants carry byte-identical copies of the two helpers; this module is the one
 * definition both session models use. Lengths count characters (Python `str` lengths).
 */
module FrameCodec {
  import opened Wrappers
  import opened Strings

  const MARKER := "~m~"

  function DigitChar(d: nat): (c: char)
    requires d < 10
    ensures IsDigit(c) && c as int - '0' as int == d
  {
    ('0' as int + d) as char
  }

  function DigitValue(c: char): nat
    requires IsDigit(c)
  {
    c as int - '0' as int
  }

  /** `str(n)`: the decimal digits of `n`, without sign or leading zero. */
  function DecimalString(n: nat): (r: string)
    ensures 1 <= |r| && AllDigits(r)
    ensures n < 10 <==> |r| == 1
  {
    if n < 10 then [DigitChar(n)] else DecimalString(n / 10) + [DigitChar(n % 10)]
  }

  /** `int(digits)` for a non-empty run of ASCII digits; leading zeros are accepted. */
  function DecimalValue(digits: string): nat
    requires AllDigits(digits)
  {
    if digits == [] then 0
    else 10 * DecimalValue(digits[..|digits| - 1]) + DigitValue(digits[|digits| - 1])
  }

  lemma {:induction false} DecimalRoundTrip(n: nat)
    ensures DecimalValue(DecimalString(n)) == n
  {
    if n >= 10 {
      var s := DecimalString(n);
      assert s[..|s| - 1] == DecimalString(n / 10);
      DecimalRoundTrip(n / 10);
    }
  }

  /** `create_message(content)`: `~m~`, the decimal length of `content`, `~m~`, then `content`. */
  function CreateMessage(content: string): string {
    MARKER + DecimalString(|content|) + MARKER + content
  }

  /** The concatenation of the frames of `contents`, in order. */
  function Frames(contents: seq<string>): string {
    if contents == [] then "" else CreateMessage(contents[0]) + Frames(contents[1..])
  }

  /** The run of digits at the start of `s` that the greedy `\d+` consumes. */
  function LeadingDigits(s: string): (r: string)
    ensures StartsWith(s, r) && AllDigits(r)
    ensures |r| < |s| ==> !IsDigit(s[|r|])
  {
    if s == [] || !IsDigit(s[0]) then [] else [s[0]] + LeadingDigits(s[1..])
  }

  /**
   * `re.compile(r'~m~(\d+)~m~').match(s)`: the captured digits when `s` begins with a header.
   * Since `~` is not a digit, backtracking the greedy `\d+` never helps, so the maximal run is
   * the only candidate.
   */
  function MatchHeader(s: string): (digits: Option<string>)
    ensures digits.Some? ==>
      1 <= |digits.value| && AllDigits(digits.value) && StartsWith(s, MARKER + digits.value + MARKER)
  {
    if StartsWith(s, MARKER) then
      var digits := LeadingDigits(s[3..]);
      if 1 <= |digits| && StartsWith(s[3 + |digits|..], MARKER) then
        assert s[..6 + |digits|] == MARKER + digits + MARKER by {
          assert s[..3] == MARKER;
          assert s[3..3 + |digits|] == digits;
          assert s[3 + |digits|..6 + |digits|] == MARKER;
          assert s[..6 + |digits|] == s[..3] + s[3..3 + |digits|] + s[3 + |digits|..6 + |digits|];
        }
        Some(digits)
      else None
    else None
  }

  /** The header is found whenever one is there: a header fixes its digits uniquely. */
  lemma MatchHeaderComplete(s: string, digits: string)
    requires 1 <= |digits| && AllDigits(digits) && StartsWith(s, MARKER + digits + MARKER)
    ensures MatchHeader(s) == Some(digits)
  {
    var h := MARKER + digits + MARKER;
    assert s[..3] == h[..3] == MARKER;
    assert s[3 + |digits|] == h[3 + |digits|];
    forall i | 0 <= i < |digits| ensures s[3 + i] == digits[i] {
      assert s[3 + i] == h[3 + i];
    }
    LeadingDigitsOfRun(s[3..], digits);
    assert s[3 + |digits|..][..3] == h[3 + |digits|..];
  }

  /** A run of digits ended by a non-digit is exactly what `LeadingDigits` takes. */
  lemma LeadingDigitsOfRun(s: string, digits: string)
    requires AllDigits(digits) && |digits| < |s| && !IsDigit(s[|digits|])
    requires forall i :: 0 <= i < |digits| ==> s[i] == digits[i]
    ensures LeadingDigits(s) == digits
  {
    var run := LeadingDigits(s);
    assert |run| == |digits|;
  }

  /** One step of the scan: a matched header whose payload fits yields that payload. */
  lemma ScanStep(s: string, digits: string, start: nat, end: nat, payload: string, tail: string)
    requires MatchHeader(s) == Some(digits)
    requires start == |MARKER + digits + MARKER| && end == start + DecimalValue(digits) <= |s|
    requires payload == s[start..end] && tail == s[end..]
    ensures Scan(s) == [payload] + Scan(tail)
  {
  }

  lemma FramesCons(contents: seq<string>)
    requires contents != []
    ensures Frames(contents) == CreateMessage(contents[0]) + Frames(contents[1..])
  {
  }

  /** `ScanStep` restated at a cursor into the whole input. */
  lemma ScanAt(s: string, index: nat, digits: string, start: nat, end: nat)
    requires index <= |s| && MatchHeader(s[index..]) == Some(digits)
    requires start == index + |MARKER + digits + MARKER| && end == start + DecimalValue(digits) <= |s|
    ensures Scan(s[index..]) == [s[start..end]] + Scan(s[end..])
  {
    SuffixSlices(s, index, start, end);
    ScanStep(s[index..], digits, start - index, end - index, s[start..end], s[end..]);
  }

  lemma SuffixSlices(s: string, index: nat, start: nat, end: nat)
    requires index <= start <= end <= |s|
    ensures s[index..][start - index..end - index] == s[start..end]
    ensures s[index..][end - index..] == s[end..]
  {
  }

  lemma AppendAssociative<T>(a: seq<T>, b: seq<T>, c: seq<T>)
    ensures (a + b) + c == a + (b + c)
  {
  }

  /** The scan stops at an offset with no header or whose declared payload does not fit. */
  lemma ScanHalt(s: string)
    requires MatchHeader(s).None? ||
             |MARKER + MatchHeader(s).value + MARKER| + DecimalValue(MatchHeader(s).value) > |s|
    ensures Scan(s) == []
  {
  }

  /**
   * The payloads `parse_tradingview_message` returns: at each offset a header must match and the
   * declared payload must fit in the input, otherwise scanning stops with what was found so far.
   */
  function Scan(s: string): seq<string>
    decreases |s|
  {
    if |s| == 0 then []
    else match MatchHeader(s)
      case None => []
      case Some(digits) =>
        var start := |MARKER + digits + MARKER|;
        var end := start + DecimalValue(digits);
        if end > |s| then [] else [s[start..end]] + Scan(s[end..])
  }

  /** `parse_tradingview_message`: the cursor loop, proved to compute `Scan`. */
  method ParseMessage(rawMessage: string) returns (segments: seq<string>)
    ensures segments == Scan(rawMessage)
  {
    segments := [];
    var index := 0;
    assert rawMessage[index..] == rawMessage;
    while index < |rawMessage|
      invariant 0 <= index <= |rawMessage|
      invariant segments + Scan(rawMessage[index..]) == Scan(rawMessage)
      decreases |rawMessage| - index
    {
      var rest := rawMessage[index..];
      var match_ := MatchHeader(rest);
      if match_.None? {
        ScanHalt(rest);
        break;
      }
      var lengthStr := match_.value;
      // `int(length_str)` has no digit cap here. Interpreters that cap integer-string conversion
      // (Python 3.11 and later, 4300 digits by default) raise `ValueError` past the cap, and the
      // `except` then ends the scan; the model reads such a run as its value instead.
      var length := DecimalValue(lengthStr);
      var headerLength := |MARKER + lengthStr + MARKER|;
      var startPos := index + headerLength;
      var endPos := startPos + length;
      if endPos > |rawMessage| {
        ScanHalt(rest);
        break;
      }
      var content := rawMessage[startPos..endPos];
      ScanAt(rawMessage, index, lengthStr, startPos, endPos);
      segments := segments + [content];
      index := endPos;
    }
  }

  /** Scanning one frame followed by anything yields its content, then the scan of the rest. */
  lemma ScanFrame(content: string, rest: string)
    ensures Scan(CreateMessage(content) + rest) == [content] + Scan(rest)
  {
    var digits := DecimalString(|content|);
    var s := CreateMessage(content) + rest;
    assert s == MARKER + digits + MARKER + (content + rest);
    assert StartsWith(s, MARKER + digits + MARKER) by {
      assert s[..6 + |digits|] == MARKER + digits + MARKER;
    }
    MatchHeaderComplete(s, digits);
    DecimalRoundTrip(|content|);
    var start := 6 + |digits|;
    assert s[start..start + |content|] == content;
    assert s[start + |content|..] == rest;
    ScanStep(s, digits, start, start + |content|, content, rest);
  }

  /** Frames followed by any tail: their contents come back, then whatever the tail scans to. */
  lemma {:induction false} ScanAppend(contents: seq<string>, tail: string)
    ensures Scan(Frames(contents) + tail) == contents + Scan(tail)
  {
    if contents == [] {
      assert Frames(contents) + tail == tail;
    } else {
      var first, others := CreateMessage(contents[0]), Frames(contents[1..]);
      FramesCons(contents);
      AppendAssociative(first, others, tail);
      ScanFrame(contents[0], others + tail);
      ScanAppend(contents[1..], tail);
      calc {
        Scan(Frames(contents) + tail);
        Scan(first + (others + tail));
        [contents[0]] + Scan(others + tail);
        [contents[0]] + (contents[1..] + Scan(tail));
        { AppendAssociative([contents[0]], contents[1..], Scan(tail)); }
        ([contents[0]] + contents[1..]) + Scan(tail);
        { assert [contents[0]] + contents[1..] == contents; }
        contents + Scan(tail);
      }
    }
  }

  /** Round trip: scanning concatenated frames returns exactly the contents, even when a content holds `~m~`. */
  lemma RoundTrip(contents: seq<string>)
    ensures Scan(Frames(contents)) == contents
  {
    ScanAppend(contents, "");
    assert Frames(contents) + "" == Frames(contents);
  }

  /** A header that does not match halts the scan silently after the frames before it. */
  lemma ScanStopsAtBadHeader(contents: seq<string>, tail: string)
    requires MatchHeader(tail).None?
    ensures Scan(Frames(contents) + tail) == contents
  {
    ScanAppend(contents, tail);
  }

  /** A header whose declared length runs past the input halts the scan after the frames before it. */
  lemma ScanStopsAtOverlongFrame(contents: seq<string>, tail: string)
    requires MatchHeader(tail).Some?
    requires |MARKER + MatchHeader(tail).value + MARKER| + DecimalValue(MatchHeader(tail).value) > |tail|
    ensures Scan(Frames(contents) + tail) == contents
  {
    ScanAppend(contents, tail);
  }

  /** Every proper prefix of a frame, cut in its header or in its payload, scans to nothing. */
  lemma TruncatedFrameScansToNothing(content: string, k: nat)
    requires k < |CreateMessage(content)|
    ensures Scan(CreateMessage(content)[..k]) == []
  {
    var frame := CreateMessage(content);
    var cut := frame[..k];
    var digits := DecimalString(|content|);
    assert StartsWith(frame, MARKER + digits + MARKER) by {
      assert frame[..6 + |digits|] == MARKER + digits + MARKER;
    }
    MatchHeaderComplete(frame, digits);
    if |cut| > 0 && MatchHeader(cut).Some? {
      // the header seen in the cut is also a header of the whole frame, so it is the frame's own
      var found := MatchHeader(cut).value;
      assert frame[..6 + |found|] == cut[..6 + |found|];
      MatchHeaderComplete(frame, found);
      DecimalRoundTrip(|content|);
    }
  }

  /** Partial-input safety: a stream cut inside a frame yields exactly the complete frames before it. */
  lemma TruncatedStreamYieldsCompleteFrames(contents: seq<string>, content: string, k: nat)
    requires k < |CreateMessage(content)|
    ensures Scan(Frames(contents) + CreateMessage(content)[..k]) == contents
  {
    ScanAppend(contents, CreateMessage(content)[..k]);
    TruncatedFrameScansToNothing(content, k);
  }

  function TotalLength(segments: seq<string>): nat {
    if segments == [] then 0 else |segments[0]| + TotalLength(segments[1..])
  }

  /**
   * Progress: each scanned frame consumes a header of at least 7 characters plus its payload, so the
   * payloads and their headers together never exceed the input.
   */
  lemma {:induction false} ScanConsumesInput(s: string)
    ensures 7 * |Scan(s)| + TotalLength(Scan(s)) <= |s|
  {
    if |s| > 0 && MatchHeader(s).Some? {
      var digits := MatchHeader(s).value;
      var start := |MARKER + digits + MARKER|;
      var end := start + DecimalValue(digits);
      if end <= |s| {
        ScanConsumesInput(s[end..]);
        var segs := Scan(s);
        assert segs == [s[start..end]] + Scan(s[end..]);
        assert segs[1..] == Scan(s[end..]);
      }
    }
  }
}
