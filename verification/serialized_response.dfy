/**
 * `SerializedResponse`: a response rebuilt from stored content and info. Its
 * constructor replays the raw header lines: status lines (section 4 of RFC 9112)
 * set the status code and restart the header set, other lines with a colon add
 * a value under the lower-cased field name (names are case-insensitive, section
 * 5.1 of RFC 9110).
 */
module SerializedResponses {
  import opened Wrappers
  import opened Php
  import opened Coercion

  // ---------------------------------------------------------------------------
  // Status lines

  /** `(int)` of a three-digit capture. */
  function Code(a: char, b: char, c: char): (n: int)
    requires IsDigit(a) && IsDigit(b) && IsDigit(c)
    ensures 0 <= n <= 999
  {
    100 * DigitValue(a) + 10 * DigitValue(b) + DigitValue(c)
  }

  /**
   * The pattern `^HTTP/\d+(?:\.\d+)? (\d\d\d)(?: |$)` with the captured code.
   * Without the `D` modifier, `$` also matches before a final newline. The digit
   * runs are taken whole: a shorter run would leave a digit where the pattern
   * needs a dot or a space.
   */
  function MatchStatus(h: string): (r: Option<int>)
    ensures r.Some? ==> 0 <= r.value <= 999
  {
    if |h| < 5 || h[..5] != "HTTP/" then None
    else
      var major := DigitsEnd(h, 5);
      if major == 5 then None
      else
        var minor := if major + 1 < |h| && h[major] == '.' && IsDigit(h[major + 1]) then DigitsEnd(h, major + 1) else major;
        if minor + 4 <= |h| && h[minor] == ' ' && IsDigit(h[minor + 1]) && IsDigit(h[minor + 2]) && IsDigit(h[minor + 3])
          && (minor + 4 == |h| || h[minor + 4] == ' ' || (minor + 5 == |h| && h[minor + 4] == '\n'))
        then Some(Code(h[minor + 1], h[minor + 2], h[minor + 3]))
        else None
  }

  /** The status-line test: at least 11 characters, a slash at index 4, and the pattern. */
  predicate IsStatusLine(h: string) {
    11 <= |h| && h[4] == '/' && MatchStatus(h).Some?
  }

  /** A status line as the pattern describes it: version digits, an optional fraction, a space and three digits. */
  function StatusLine(major: string, minor: string, code: string, tail: string): string {
    "HTTP/" + major + (if |minor| > 0 then "." + minor else "") + " " + code + tail
  }

  /** What may follow the code: nothing, a final newline, or a space and anything. */
  predicate StatusTail(tail: string) {
    tail == "" || tail == "\n" || (|tail| > 0 && tail[0] == ' ')
  }

  /** Every line of the pattern's form matches, capturing its three digits. */
  lemma StatusLineMatches(major: string, minor: string, code: string, tail: string)
    requires |major| > 0 && AllDigits(major) && AllDigits(minor)
    requires |code| == 3 && AllDigits(code) && StatusTail(tail)
    ensures MatchStatus(StatusLine(major, minor, code, tail)) == Some(Code(code[0], code[1], code[2]))
  {
    var h := StatusLine(major, minor, code, tail);
    var m := 5 + |major|;
    var n := if |minor| > 0 then m + 1 + |minor| else m;
    StatusLineLayout(major, minor, code, tail);
    DigitsEndAt(h, 5, m);
    if |minor| > 0 {
      DigitsEndAt(h, m + 1, n);
    }
    assert n + 4 == |h| || h[n + 4] == tail[0];
  }

  /** Where the parts of a status line sit: the version digits end at `m`, the fraction at `n`. */
  lemma StatusLineLayout(major: string, minor: string, code: string, tail: string)
    requires |major| > 0 && AllDigits(major) && AllDigits(minor) && |code| == 3
    ensures var h := StatusLine(major, minor, code, tail);
      var m := 5 + |major|;
      var n := if |minor| > 0 then m + 1 + |minor| else m;
      n + 4 + |tail| == |h| && h[..5] == "HTTP/" &&
      (forall k :: 5 <= k < m ==> IsDigit(h[k])) &&
      h[m] == (if |minor| > 0 then '.' else ' ') &&
      (|minor| > 0 ==> IsDigit(h[m + 1]) && forall k :: m + 1 <= k < n ==> IsDigit(h[k])) &&
      h[n] == ' ' && h[n + 1..n + 4] == code && h[n + 4..] == tail
  {
    var h := StatusLine(major, minor, code, tail);
    var fraction := if |minor| > 0 then "." + minor else "";
    assert h == "HTTP/" + major + fraction + " " + code + tail;
    var m := 5 + |major|;
    var n := m + |fraction|;
    assert forall k :: 5 <= k < m ==> h[k] == major[k - 5];
    assert forall k :: m <= k < n ==> h[k] == fraction[k - m];
  }

  /**
   * Every line the pattern matches has the pattern's form, and the captured
   * code is its three digits: the converse of `StatusLineMatches`.
   */
  lemma MatchedIsStatusLine(h: string) returns (major: string, minor: string, code: string, tail: string)
    requires MatchStatus(h).Some?
    ensures |major| > 0 && AllDigits(major) && AllDigits(minor)
    ensures |code| == 3 && AllDigits(code) && StatusTail(tail)
    ensures h == StatusLine(major, minor, code, tail)
    ensures MatchStatus(h) == Some(Code(code[0], code[1], code[2]))
  {
    var m, n := MatchedPositions(h);
    major := h[5..m];
    minor := if n == m then "" else h[m + 1..n];
    code := h[n + 1..n + 4];
    tail := h[n + 4..];
    SplitStatusLine(h, m, n);
  }

  /** A line cut at the positions `MatchedPositions` finds is the concatenation of its parts. */
  lemma SplitStatusLine(h: string, m: nat, n: nat)
    requires 5 < m <= n && n + 4 <= |h| && h[..5] == "HTTP/"
    requires n > m ==> n > m + 1 && h[m] == '.'
    requires h[n] == ' '
    ensures h == StatusLine(h[5..m], if n == m then "" else h[m + 1..n], h[n + 1..n + 4], h[n + 4..])
  {
    var major, minor, code, tail := h[5..m], if n == m then "" else h[m + 1..n], h[n + 1..n + 4], h[n + 4..];
    var fraction := if |minor| > 0 then "." + minor else "";
    FractionAt(h, m, n);
    CodeAndTailAt(h, n);
    PrefixesAt(h, m, n);
    StatusLineAssociates(major, fraction, code, tail);
  }

  /** The text between the version digits and the space before the code. */
  lemma FractionAt(h: string, m: nat, n: nat)
    requires m <= n <= |h|
    requires n > m ==> n > m + 1 && h[m] == '.'
    ensures h[m..n] == if n == m then "" else "." + h[m + 1..n]
  {
    if n > m {
      assert h[m..n] == [h[m]] + h[m + 1..n];
    }
  }

  /** The space, the code and the tail at the end of a matched line. */
  lemma CodeAndTailAt(h: string, n: nat)
    requires n + 4 <= |h| && h[n] == ' '
    ensures h[n..] == " " + (h[n + 1..n + 4] + h[n + 4..])
  {
    assert h[n + 1..] == h[n + 1..n + 4] + h[n + 4..];
    assert h[n..] == [h[n]] + h[n + 1..];
  }

  /** A matched line is its prefix, version digits, fraction and the rest, in that order. */
  lemma PrefixesAt(h: string, m: nat, n: nat)
    requires 5 <= m <= n <= |h| && h[..5] == "HTTP/"
    ensures h == "HTTP/" + (h[5..m] + (h[m..n] + h[n..]))
  {
    assert h[m..] == h[m..n] + h[n..];
    assert h[5..] == h[5..m] + h[m..];
    assert h == h[..5] + h[5..];
  }

  lemma StatusLineAssociates(major: string, fraction: string, code: string, tail: string)
    ensures "HTTP/" + major + fraction + " " + code + tail == "HTTP/" + (major + (fraction + (" " + (code + tail))))
  {
  }

  /** Where a matched line's version digits end (`m`) and its fraction ends (`n`, the space before the code). */
  lemma MatchedPositions(h: string) returns (m: nat, n: nat)
    requires MatchStatus(h).Some?
    ensures 5 < m <= n && n + 4 <= |h| && h[..5] == "HTTP/"
    ensures AllDigits(h[5..m])
    ensures n > m ==> n > m + 1 && h[m] == '.' && AllDigits(h[m + 1..n])
    ensures h[n] == ' ' && AllDigits(h[n + 1..n + 4])
    ensures StatusTail(h[n + 4..])
    ensures MatchStatus(h) == Some(Code(h[n + 1], h[n + 2], h[n + 3]))
  {
    m := DigitsEnd(h, 5);
    n := if m + 1 < |h| && h[m] == '.' && IsDigit(h[m + 1]) then DigitsEnd(h, m + 1) else m;
    assert h[n + 4..] == "" || h[n + 4..][0] == h[n + 4];
  }

  /** `HTTP/1.1 200 OK` is a status line with code 200. */
  lemma OkIsStatusLine()
    ensures IsStatusLine("HTTP/1.1 200 OK") && MatchStatus("HTTP/1.1 200 OK") == Some(200)
  {
    StatusLineMatches("1", "1", "200", " OK");
    assert StatusLine("1", "1", "200", " OK") == "HTTP/1.1 200 OK";
  }

  /** `HTTP/2 200` matches the pattern but has ten characters, so it is not a status line. */
  lemma ShortHttp2NotStatus()
    ensures MatchStatus("HTTP/2 200") == Some(200) && !IsStatusLine("HTTP/2 200")
  {
    StatusLineMatches("2", "", "200", "");
    assert StatusLine("2", "", "200", "") == "HTTP/2 200";
  }

  /** A four-digit code does not match. */
  lemma FourDigitsNoMatch()
    ensures MatchStatus("HTTP/1.1 2000") == None
  {
    var h := "HTTP/1.1 2000";
    assert h[..5] == "HTTP/";
    DigitsEndAt(h, 5, 6);
    DigitsEndAt(h, 7, 8);
  }

  // ---------------------------------------------------------------------------
  // Header fields

  /** One field of the header array: the lower-cased name and its values in order. */
  datatype Field = Field(name: string, values: seq<string>)

  /** `$headers[$name]`, or nothing. */
  function Lookup(hs: seq<Field>, name: string): seq<string> {
    if |hs| == 0 then [] else if hs[0].name == name then hs[0].values else Lookup(hs[1..], name)
  }

  /** `$headers[$name][] = $value`. */
  function AddValue(hs: seq<Field>, name: string, value: string): seq<Field> {
    if |hs| == 0 then [Field(name, [value])]
    else if hs[0].name == name then [Field(name, hs[0].values + [value])] + hs[1..]
    else [hs[0]] + AddValue(hs[1..], name, value)
  }

  /** Adding a value appends it to that name's values and leaves every other name's as they were. */
  lemma {:induction false} AddValueLookup(hs: seq<Field>, name: string, value: string, other: string)
    ensures Lookup(AddValue(hs, name, value), other) == Lookup(hs, other) + (if other == name then [value] else [])
    decreases |hs|
  {
    if |hs| > 0 && hs[0].name != name {
      AddValueLookup(hs[1..], name, value, other);
      assert ([hs[0]] + AddValue(hs[1..], name, value))[1..] == AddValue(hs[1..], name, value);
    }
  }

  /** The index of the first `:`. */
  function FirstColon(h: string): (r: Option<nat>)
    ensures r.Some? ==> r.value < |h| && h[r.value] == ':' && forall k :: 0 <= k < r.value ==> h[k] != ':'
    ensures r.None? ==> forall k :: 0 <= k < |h| ==> h[k] != ':'
  {
    if |h| == 0 then None
    else if h[0] == ':' then Some(0)
    else match FirstColon(h[1..]) case Some(i) => Some(i + 1) case None => None
  }

  /** A header line's lower-cased name and left-trimmed value, when `explode(':', $h, 2)` gives two parts. */
  function NameValue(h: string): Option<(string, string)> {
    match FirstColon(h)
    case Some(i) => Some((ToLower(h[..i]), LTrim(h[i + 1..])))
    case None => None
  }

  /** The parse so far: the last status code seen, and the header fields since the last status line. */
  datatype Parsed = Parsed(code: Option<int>, headers: seq<Field>)

  /** One line of the header replay. */
  function Step(p: Parsed, h: string): Parsed {
    if IsStatusLine(h) then Parsed(MatchStatus(h), [])
    else match NameValue(h)
      case Some((name, value)) => Parsed(p.code, AddValue(p.headers, name, value))
      case None => p
  }

  /** The replay of a list of lines, first to last. */
  function Parse(lines: seq<string>): Parsed
    decreases |lines|
  {
    if |lines| == 0 then Parsed(None, []) else Step(Parse(lines[..|lines| - 1]), lines[|lines| - 1])
  }

  predicate NoStatusLine(lines: seq<string>) {
    forall i :: 0 <= i < |lines| ==> !IsStatusLine(lines[i])
  }

  /** The values a list of header lines gives a name, line by line: the reference for the replay. */
  function ValuesNamed(lines: seq<string>, name: string): seq<string>
    decreases |lines|
  {
    if |lines| == 0 then []
    else
      var rest := ValuesNamed(lines[..|lines| - 1], name);
      match NameValue(lines[|lines| - 1])
      case Some((n, v)) => if n == name then rest + [v] else rest
      case None => rest
  }

  /**
   * Replaying lines after a header set `p`, none of them a status line, keeps
   * the code and adds each line's value under its name, in order and with
   * duplicates.
   */
  lemma {:induction false} ReplayHeaders(p: Parsed, lines: seq<string>, name: string)
    requires NoStatusLine(lines)
    ensures Replay(p, lines).code == p.code
    ensures Lookup(Replay(p, lines).headers, name) == Lookup(p.headers, name) + ValuesNamed(lines, name)
    decreases |lines|
  {
    if |lines| > 0 {
      var init := lines[..|lines| - 1];
      ReplayHeaders(p, init, name);
      var q := Replay(p, init);
      match NameValue(lines[|lines| - 1])
      case Some((n, v)) =>
        AddValueLookup(q.headers, n, v, name);
      case None =>
    }
  }

  /** `Parse` continued from a given state. */
  function Replay(p: Parsed, lines: seq<string>): Parsed
    decreases |lines|
  {
    if |lines| == 0 then p else Step(Replay(p, lines[..|lines| - 1]), lines[|lines| - 1])
  }

  /** Parsing a concatenation is replaying the second part after the first. */
  lemma {:induction false} ParseAppend(a: seq<string>, b: seq<string>)
    ensures Parse(a + b) == Replay(Parse(a), b)
    decreases |b|
  {
    if |b| == 0 {
      assert a + b == a;
    } else {
      assert (a + b)[..|a + b| - 1] == a + b[..|b| - 1];
      ParseAppend(a, b[..|b| - 1]);
    }
  }

  /**
   * Each status line restarts the header set: after the last status line `s`,
   * the code is `s`'s and the headers are exactly those of the lines after it.
   */
  lemma LastStatusLineWins(before: seq<string>, s: string, after: seq<string>, name: string)
    requires IsStatusLine(s) && NoStatusLine(after)
    ensures Parse(before + [s] + after).code == MatchStatus(s)
    ensures Lookup(Parse(before + [s] + after).headers, name) == ValuesNamed(after, name)
  {
    ParseAppend(before + [s], after);
    assert (before + [s])[..|before + [s]| - 1] == before;
    ReplayHeaders(Parse(before + [s]), after, name);
  }

  /** Without status lines, the headers are the lines' values and no code is parsed. */
  lemma HeadersOnly(lines: seq<string>, name: string)
    requires NoStatusLine(lines)
    ensures Parse(lines).code == None
    ensures Lookup(Parse(lines).headers, name) == ValuesNamed(lines, name)
  {
    ParseAppend([], lines);
    assert [] + lines == lines;
    ReplayHeaders(Parse([]), lines, name);
  }

  // ---------------------------------------------------------------------------
  // The response

  datatype SerializedResponse = SerializedResponse(content: string, info: seq<Entry>, headers: seq<Field>, jsonData: Option<seq<Entry>>)

  const ResponseHeaders: Key := StrKey("response_headers")
  const HttpCode: Key := StrKey("http_code")

  /** The header lines of `$info['response_headers']`, when it is an array of strings. */
  function HeaderLines(info: seq<Entry>): Option<seq<string>> {
    match ArrayGet(info, ResponseHeaders)
    case Some(Arr(es)) => if forall i :: 0 <= i < |es| ==> es[i].val.Str? then Some(Strings(es)) else None
    case _ => None
  }

  function Strings(es: seq<Entry>): (r: seq<string>)
    requires forall i :: 0 <= i < |es| ==> es[i].val.Str?
    ensures |r| == |es| && forall i :: 0 <= i < |es| ==> r[i] == es[i].val.s
  {
    seq(|es|, i requires 0 <= i < |es| => es[i].val.s)
  }

  /** `$a[] = $h` for each line in turn. */
  function PushAll(a: seq<Entry>, lines: seq<string>): (r: seq<Entry>)
    ensures |Values(r)| == |Values(a)| + |lines|
    ensures Values(r)[..|a|] == Values(a)
    ensures forall i :: 0 <= i < |lines| ==> Values(r)[|a| + i] == Str(lines[i])
    decreases |lines|
  {
    if |lines| == 0 then a else PushAll(ArrayPush(a, Str(lines[0])), lines[1..])
  }

  /**
   * The info the constructor ends with: the last parsed code under
   * `http_code`, and every line appended to `response_headers`, which already
   * held them.
   */
  function ReplayedInfo(info: seq<Entry>, lines: seq<string>, es: seq<Entry>): seq<Entry> {
    var p := Parse(lines);
    var withCode := if p.code.Some? then ArraySet(info, HttpCode, Int(p.code.value)) else info;
    ArraySet(withCode, ResponseHeaders, Arr(PushAll(es, lines)))
  }

  /**
   * `new SerializedResponse($content, $info)`. The header lines must be an
   * array of strings; a missing list is not an array and is rejected.
   */
  function NewSerialized(content: string, info: seq<Entry>): (r: Result<SerializedResponse, Error>)
    ensures r.Success? <==> HeaderLines(info).Some?
    ensures r.Success? ==> r.value.content == content && r.value.jsonData == None
    ensures r.Success? ==> r.value.headers == Parse(HeaderLines(info).value).headers
  {
    match HeaderLines(info)
    case None => Failure(TypeError("SerializedResponse::addResponseHeaders"))
    case Some(lines) =>
      var es := ArrayGet(info, ResponseHeaders).value.entries;
      Success(SerializedResponse(content, ReplayedInfo(info, lines, es), Parse(lines).headers, None))
  }

  /** The rebuilt info's `response_headers` is the stored list with every line pushed onto it. */
  lemma InfoHeaderList(content: string, info: seq<Entry>)
    requires HeaderLines(info).Some?
    ensures ArrayGet(NewSerialized(content, info).value.info, ResponseHeaders) ==
      Some(Arr(PushAll(ArrayGet(info, ResponseHeaders).value.entries, HeaderLines(info).value)))
  {
    var lines := HeaderLines(info).value;
    var es := ArrayGet(info, ResponseHeaders).value.entries;
    var p := Parse(lines);
    var withCode := if p.code.Some? then ArraySet(info, HttpCode, Int(p.code.value)) else info;
    ArraySetGet(withCode, ResponseHeaders, Arr(PushAll(es, lines)), ResponseHeaders);
  }

  /** Pushing a list's own lines onto it lists every line twice: the stored ones, then the same again. */
  lemma PushOwnLinesTwice(es: seq<Entry>, lines: seq<string>)
    requires |es| == |lines| && forall i :: 0 <= i < |es| ==> es[i].val == Str(lines[i])
    ensures var vs := Values(PushAll(es, lines));
      |vs| == 2 * |lines| && forall i :: 0 <= i < |lines| ==> vs[i] == vs[|lines| + i] == Str(lines[i])
  {
    var vs := Values(PushAll(es, lines));
    var stored := Values(es);
    assert vs[..|es|] == stored;
    forall i | 0 <= i < |lines|
      ensures vs[i] == Str(lines[i]) && vs[|lines| + i] == Str(lines[i])
    {
      assert vs[..|es|][i] == vs[i];
      assert stored[i] == es[i].val;
    }
  }

  /** The header lines in the rebuilt info: the stored list, followed by the same lines again. */
  lemma InfoListsLinesTwice(content: string, info: seq<Entry>)
    requires HeaderLines(info).Some?
    ensures match ArrayGet(NewSerialized(content, info).value.info, ResponseHeaders)
      case Some(Arr(list)) =>
        var lines := HeaderLines(info).value;
        var vs := Values(list);
        |vs| == 2 * |lines| && forall i :: 0 <= i < |lines| ==> vs[i] == vs[|lines| + i] == Str(lines[i])
      case _ => false
  {
    InfoHeaderList(content, info);
    var es := ArrayGet(info, ResponseHeaders).value.entries;
    PushOwnLinesTwice(es, HeaderLines(info).value);
  }

  /** As written, the rebuilt info's header lines are the stored lines followed by the same lines again. */
  lemma RebuiltLinesDoubled(content: string, info: seq<Entry>)
    requires HeaderLines(info).Some?
    ensures HeaderLines(NewSerialized(content, info).value.info) == Some(HeaderLines(info).value + HeaderLines(info).value)
  {
    InfoHeaderList(content, info);
    StoredLinesDoubled(info);
  }

  /** The stored list with its own lines pushed reads back as those lines twice over. */
  lemma StoredLinesDoubled(info: seq<Entry>)
    requires HeaderLines(info).Some?
    ensures var list := PushAll(ArrayGet(info, ResponseHeaders).value.entries, HeaderLines(info).value);
      (forall j :: 0 <= j < |list| ==> list[j].val.Str?) &&
      Strings(list) == HeaderLines(info).value + HeaderLines(info).value
  {
    var lines := HeaderLines(info).value;
    var es := ArrayGet(info, ResponseHeaders).value.entries;
    PushStoredLines(es, lines);
    DoubledStrings(PushAll(es, lines), lines);
  }

  /** The stored list with its own lines pushed holds each line at its place and again after the list. */
  lemma PushStoredLines(es: seq<Entry>, lines: seq<string>)
    requires forall i :: 0 <= i < |es| ==> es[i].val.Str?
    requires Strings(es) == lines
    ensures var list := PushAll(es, lines);
      |list| == 2 * |lines| &&
      forall i :: 0 <= i < |lines| ==> list[i].val == Str(lines[i]) && list[|lines| + i].val == Str(lines[i])
  {
    forall i | 0 <= i < |es|
      ensures es[i].val == Str(lines[i])
    {
    }
    PushOwnLinesTwice(es, lines);
    var list := PushAll(es, lines);
    var vs := Values(list);
    forall i | 0 <= i < |lines|
      ensures list[i].val == Str(lines[i]) && list[|lines| + i].val == Str(lines[i])
    {
      assert vs[i] == vs[|lines| + i] == Str(lines[i]);
    }
  }

  /** A list whose values are the lines, twice over, reads back as the lines twice over. */
  lemma DoubledStrings(list: seq<Entry>, lines: seq<string>)
    requires |list| == 2 * |lines|
    requires forall i :: 0 <= i < |lines| ==> list[i].val == Str(lines[i]) && list[|lines| + i].val == Str(lines[i])
    ensures forall j :: 0 <= j < |list| ==> list[j].val.Str?
    ensures Strings(list) == lines + lines
  {
    forall j | 0 <= j < |list|
      ensures list[j].val == Str((lines + lines)[j])
    {
      if j >= |lines| {
        var i := j - |lines|;
        assert list[|lines| + i].val == Str(lines[i]);
      }
    }
  }

  /**
   * The constructor as evidently intended: the lines are replayed into an info
   * whose `response_headers` starts empty, so each line is listed once.
   */
  function NewSerializedIntended(content: string, info: seq<Entry>): (r: Result<SerializedResponse, Error>)
    ensures r.Success? <==> HeaderLines(info).Some?
    ensures r.Success? ==> r.value.content == content && r.value.jsonData == None
    ensures r.Success? ==> r.value.headers == Parse(HeaderLines(info).value).headers
  {
    match HeaderLines(info)
    case None => Failure(TypeError("SerializedResponse::addResponseHeaders"))
    case Some(lines) => Success(SerializedResponse(content, ReplayedInfo(info, lines, []), Parse(lines).headers, None))
  }

  /** The lines pushed onto an empty array, read back as strings, are the lines. */
  lemma PushedLinesReadBack(lines: seq<string>)
    ensures var es := PushAll([], lines);
      (forall i :: 0 <= i < |es| ==> es[i].val.Str?) && Strings(es) == lines
  {
    var es := PushAll([], lines);
    var vs := Values(es);
    assert |es| == |vs| == |lines|;
    forall i | 0 <= i < |es|
      ensures es[i].val == Str(lines[i])
    {
      assert vs[0 + i] == Str(lines[i]);
    }
    var ss := Strings(es);
    forall i | 0 <= i < |ss|
      ensures ss[i] == lines[i]
    {
      assert ss[i] == es[i].val.s;
    }
    assert ss == lines;
  }

  /** As intended, `response_headers` holds each stored line once, in order. */
  lemma IntendedListsLinesOnce(content: string, info: seq<Entry>)
    requires HeaderLines(info).Some?
    ensures HeaderLines(NewSerializedIntended(content, info).value.info) == HeaderLines(info)
  {
    var lines := HeaderLines(info).value;
    var p := Parse(lines);
    var withCode := if p.code.Some? then ArraySet(info, HttpCode, Int(p.code.value)) else info;
    ArraySetGet(withCode, ResponseHeaders, Arr(PushAll([], lines)), ResponseHeaders);
    PushedLinesReadBack(lines);
  }

  /** As intended, rebuilding a response from its own info changes nothing: the round trip is stable. */
  lemma IntendedRebuildStable(content: string, info: seq<Entry>)
    requires HeaderLines(info).Some?
    ensures var r := NewSerializedIntended(content, info).value;
      NewSerializedIntended(content, r.info) == Success(r)
  {
    var lines := HeaderLines(info).value;
    var p := Parse(lines);
    var r := NewSerializedIntended(content, info).value;
    var withCode := if p.code.Some? then ArraySet(info, HttpCode, Int(p.code.value)) else info;
    var list := Arr(PushAll([], lines));
    IntendedListsLinesOnce(content, info);
    ArraySetGet(withCode, ResponseHeaders, list, ResponseHeaders);
    var withCode' := if p.code.Some? then ArraySet(r.info, HttpCode, Int(p.code.value)) else r.info;
    if p.code.Some? {
      ArraySetGet(withCode, ResponseHeaders, list, HttpCode);
      ArraySetGet(info, HttpCode, Int(p.code.value), HttpCode);
      ArraySetSame(r.info, HttpCode, Int(p.code.value));
    }
    ArraySetSame(withCode', ResponseHeaders, list);
  }

  /** As written, a one-line list comes back with the line twice. */
  lemma OneLineListedTwice(content: string, line: string)
    ensures var info := [Entry(ResponseHeaders, Arr([Entry(IntKey(0), Str(line))]))];
      match ArrayGet(NewSerialized(content, info).value.info, ResponseHeaders)
      case Some(Arr(list)) => Values(list) == [Str(line), Str(line)]
      case _ => false
  {
    var info := [Entry(ResponseHeaders, Arr([Entry(IntKey(0), Str(line))]))];
    var es := [Entry(IntKey(0), Str(line))];
    assert ArrayGet(info, ResponseHeaders) == Some(Arr(es));
    assert Strings(es) == [line];
    InfoListsLinesTwice(content, info);
  }

  /**
   * `getStatusCode`: `$info['http_code']`, converted by the `int` return type
   * as PHP converts without strict types; a missing code reads as null, which
   * no `int` takes.
   */
  function GetStatusCode(r: SerializedResponse): (c: Result<int, Error>)
    ensures c.Success? <==> ArrayGet(r.info, HttpCode).Some? && ToInt(ArrayGet(r.info, HttpCode).value).Some?
    ensures c.Success? ==> c.value == ToInt(ArrayGet(r.info, HttpCode).value).value
    ensures forall n :: ArrayGet(r.info, HttpCode) == Some(Int(n)) ==> c == Success(n)
  {
    match ArrayGet(r.info, HttpCode)
    case Some(v) => if ToInt(v).Some? then Success(ToInt(v).value) else Failure(TypeError("SerializedResponse::getStatusCode"))
    case None => Failure(TypeError("SerializedResponse::getStatusCode"))
  }

  /** An integer code reads back as itself, a numeric string such as `'404'` as its number, and `'OK'` throws. */
  lemma StatusCodeConversions(content: string, headers: seq<Field>)
    ensures GetStatusCode(SerializedResponse(content, [Entry(HttpCode, Int(200))], headers, None)) == Success(200)
    ensures GetStatusCode(SerializedResponse(content, [Entry(HttpCode, Str("404"))], headers, None)) == Success(404)
    ensures GetStatusCode(SerializedResponse(content, [Entry(HttpCode, Str("OK"))], headers, None)).Failure?
    ensures GetStatusCode(SerializedResponse(content, [], headers, None)).Failure?
  {
    ToIntOfIntText(404);
    assert IntText(404) == "404" by {
      assert NatText(40) == "40" by { assert NatText(4) == "4"; }
    }
    assert SpaceEnd("OK", 0) == 0;
    DigitsEndAt("OK", 0, 0);
  }

  /** The status code is the last status line's; without one it is the `http_code` the info came with. */
  lemma StatusCodeIsLastParsed(content: string, info: seq<Entry>)
    requires HeaderLines(info).Some?
    ensures var lines := HeaderLines(info).value;
      var r := NewSerialized(content, info).value;
      Parse(lines).code.Some? ==> GetStatusCode(r) == Success(Parse(lines).code.value)
    ensures var lines := HeaderLines(info).value;
      var r := NewSerialized(content, info).value;
      Parse(lines).code.None? ==> ArrayGet(r.info, HttpCode) == ArrayGet(info, HttpCode)
  {
    var lines := HeaderLines(info).value;
    var es := ArrayGet(info, ResponseHeaders).value.entries;
    var p := Parse(lines);
    var withCode := if p.code.Some? then ArraySet(info, HttpCode, Int(p.code.value)) else info;
    ArraySetGet(withCode, ResponseHeaders, Arr(PushAll(es, lines)), HttpCode);
    if p.code.Some? {
      ArraySetGet(info, HttpCode, Int(p.code.value), HttpCode);
    }
  }

  /** `getInfo($type)`: the whole info for null, otherwise `$info[$type] ?? null`. */
  function GetInfo(r: SerializedResponse, infoType: Option<string>): (v: Value)
    ensures infoType.None? ==> v == Arr(r.info)
    ensures infoType.Some? && ArrayGet(r.info, ArrayKey(infoType.value)).None? ==> v == Null
  {
    match infoType
    case None => Arr(r.info)
    case Some(t) => ArrayGet(r.info, ArrayKey(t)).GetOr(Null)
  }

  /**
   * The type name goes through PHP's key canonicalisation: the text of a 64-bit
   * integer reads the integer key, and a name that is not one reads its string key.
   */
  lemma GetInfoKeys(r: SerializedResponse, n: int, name: string)
    requires IntMin <= n <= IntMax
    requires ArrayKey(name).StrKey?
    ensures GetInfo(r, Some(IntText(n))) == ArrayGet(r.info, IntKey(n)).GetOr(Null)
    ensures GetInfo(r, Some(name)) == ArrayGet(r.info, StrKey(name)).GetOr(Null)
  {
    IntTextKey(n);
  }

  /** `cancel` does nothing. */
  function Cancel(r: SerializedResponse): (r': SerializedResponse)
    ensures r' == r
  {
    r
  }

  /**
   * `toArray`: empty content always fails; otherwise the memoised array, or the
   * decoded content, which must be an array and is then memoised. `decode` is
   * `json_decode`, giving a value or an error message.
   */
  function ToArray(r: SerializedResponse, decode: string -> Result<Value, string>): (out: (SerializedResponse, Result<seq<Entry>, Error>))
    ensures r.content == "" ==> out.0 == r && out.1.Failure?
    ensures r.content != "" && r.jsonData.Some? ==> out == (r, Success(r.jsonData.value))
    ensures out.1.Success? ==> out.0 == r.(jsonData := Some(out.1.value))
    ensures out.1.Failure? ==> out.0 == r
    ensures r.content != "" && r.jsonData.None? ==>
      (out.1.Success? <==> decode(r.content).Success? && decode(r.content).value.Arr?) &&
      (out.1.Success? ==> out.1.value == decode(r.content).value.entries)
  {
    if r.content == "" then (r, Failure(JsonException("Response body is empty.")))
    else if r.jsonData.Some? then (r, Success(r.jsonData.value))
    else match decode(r.content)
      case Failure(message) => (r, Failure(JsonException(message)))
      case Success(Arr(es)) => (r.(jsonData := Some(es)), Success(es))
      case Success(_) => (r, Failure(JsonException("JSON content was expected to decode to an array")))
  }

  /** After one successful `toArray`, the next answers the same without decoding again. */
  lemma ToArrayMemoised(r: SerializedResponse, decode: string -> Result<Value, string>, decode': string -> Result<Value, string>)
    requires ToArray(r, decode).1.Success?
    ensures ToArray(ToArray(r, decode).0, decode') == ToArray(r, decode)
  {
  }
}
