/** Content-Length framing over a text pipe: `send_message` writes
    `Content-Length: N\r\n\r\n<body>` where N counts the body's characters, and
    `read_message` reads `Key: value` header lines up to a blank line, then N characters
    of body, and decodes them. */
module Framing {
  import opened Common
  import opened JsonValues
  import opened Streams

  const LengthKey := "Content-Length"

  /** The header block announcing a body of n characters. */
  function FrameHeader(n: nat): string
  {
    LengthKey + ": " + NatToDecimal(n) + "\r\n\r\n"
  }

  /** The text send_message writes for a body. */
  function Frame(body: string): string
  {
    FrameHeader(|body|) + body
  }

  /** send_message(proc, payload): the frame of json.dumps(payload) goes to the pipe. */
  method SendMessage(out: OutStream, payload: Json, encode: Json -> string)
    modifies out
    ensures out.written == old(out.written) + Frame(encode(payload))
  {
    var body := encode(payload);
    out.Write(FrameHeader(|body|) + body);
  }

  // ---------------------------------------------------------------------------
  // Reading

  /** How the header loop ends: at a blank line (or the end of the text) with the headers
      read so far, or at a line that has no ':' (the two-name unpack raises). `end` is
      the cursor after the last line read. */
  datatype Scan = Headers(fields: map<string, string>, end: nat) | NoColon(line: string, end: nat)

  /** The header loop of read_message, from cursor i with headers h already read. */
  function ScanHeaders(s: string, i: nat, h: map<string, string>): (r: Scan)
    requires i <= |s|
    ensures i <= r.end <= |s|
    decreases |s| - i
  {
    var line := LineAt(s, i);
    var e := LineEnd(s, i);
    if Strip(line) == [] then Headers(h, e)
    else match SplitOnce(line, ':')
      case None => NoColon(line, e)
      case Some(kv) => ScanHeaders(s, e, h[Strip(kv.0) := Strip(kv.1)])
  }

  /** What read_message returns or raises. */
  datatype Received =
    | Message(value: Json)         // the decoded body
    | NoMessage                    // None: no Content-Length header, or a length of 0
    | MissingColon(line: string)   // ValueError: a header line without ':'
    | BadLength(text: string)      // ValueError: int() rejects the header value
    | BadBody(body: string)        // JSONDecodeError: the body does not decode

  /** What one read_message call returns or raises, and where it leaves the cursor. */
  datatype Reading = Reading(got: Received, cursor: nat)

  /** read_message on a text at cursor i. */
  function ReadSpec(s: string, i: nat, decode: string -> Option<Json>): Reading
    requires i <= |s|
  {
    AfterHeaders(s, ScanHeaders(s, i, map[]), decode)
  }

  /** What read_message does once its header loop has ended as `scan`. */
  function AfterHeaders(s: string, scan: Scan, decode: string -> Option<Json>): Reading
    requires scan.end <= |s|
  {
    match scan
    case NoColon(line, e) => Reading(MissingColon(line), e)
    case Headers(h, e) =>
      if LengthKey !in h then Reading(NoMessage, e)
      else match ParseInt(h[LengthKey])
        case None => Reading(BadLength(h[LengthKey]), e)
        case Some(n) =>
          if n == 0 then Reading(NoMessage, e)
          else
            var j := ReadEnd(s, e, n);
            var body := s[e..j];
            match decode(body)
            case None => Reading(BadBody(body), j)
            case Some(v) => Reading(Message(v), j)
  }

  /** What each outcome of read_message means: it raises on a header line without ':'
      and on a length int() rejects, returns None exactly when the headers carry no
      Content-Length or a length of 0, and otherwise reads up to that many characters
      after the blank line and returns them decoded (or raises when they do not decode).
      The cursor ends after the headers, or after the body when one was read. */
  lemma AfterHeadersOutcomes(s: string, scan: Scan, decode: string -> Option<Json>)
    requires scan.end <= |s|
    ensures var r := AfterHeaders(s, scan, decode);
      && scan.end <= r.cursor <= |s|
      && (r.got.MissingColon? <==> scan.NoColon?)
      && (r.got.MissingColon? ==> r == Reading(MissingColon(scan.line), scan.end))
      && (r.got.NoMessage? <==>
            (scan.Headers? &&
             (LengthKey !in scan.fields || ParseInt(scan.fields[LengthKey]) == Some(0))))
      && (r.got.BadLength? <==>
            (scan.Headers? && LengthKey in scan.fields && ParseInt(scan.fields[LengthKey]).None?))
      && (r.got.NoMessage? || r.got.BadLength? ==> r.cursor == scan.end)
      && (r.got.Message? || r.got.BadBody? ==>
            && scan.Headers? && LengthKey in scan.fields
            && var n := ParseInt(scan.fields[LengthKey]);
            && n.Some? && n.value != 0
            && r.cursor == ReadEnd(s, scan.end, n.value)
            && (r.got.Message? <==> decode(s[scan.end..r.cursor]).Some?)
            && (r.got.Message? ==> decode(s[scan.end..r.cursor]) == Some(r.got.value)))
  {
  }

  /** read_message(proc) */
  method ReadMessage(p: TextStream, decode: string -> Option<Json>) returns (r: Received)
    requires p.Valid()
    modifies p
    ensures p.Valid()
    ensures ReadSpec(p.data, old(p.pos), decode) == Reading(r, p.pos)
  {
    var headers: map<string, string> := map[];
    var scan: Scan;
    while true
      invariant p.Valid() && old(p.pos) <= p.pos
      invariant ScanHeaders(p.data, p.pos, headers) == ScanHeaders(p.data, old(p.pos), map[])
      decreases |p.data| - p.pos
    {
      ghost var before := p.pos;
      var line := p.ReadLine();
      if Strip(line) == [] {
        scan := Headers(headers, p.pos);
        break;
      }
      var kv := SplitOnce(line, ':');
      if kv.None? {
        assert ScanHeaders(p.data, before, headers) == NoColon(line, p.pos);
        return MissingColon(line);
      }
      headers := headers[Strip(kv.value.0) := Strip(kv.value.1)];
    }
    if LengthKey !in headers {
      return NoMessage;
    }
    var n := ParseInt(headers[LengthKey]);
    if n.None? {
      return BadLength(headers[LengthKey]);
    }
    if n.value == 0 {
      return NoMessage;
    }
    var body := p.Read(n.value);
    var v := decode(body);
    if v.None? {
      r := BadBody(body);
    } else {
      r := Message(v.value);
    }
  }

  // ---------------------------------------------------------------------------
  // Properties of the header loop

  /** One header line as a writer produces it: `key + ":" + value + "\n"`. */
  datatype HeaderLine = HeaderLine(key: string, value: string)

  predicate WellFormed(hs: seq<HeaderLine>)
  {
    forall k :: 0 <= k < |hs| ==> ':' !in hs[k].key && '\n' !in hs[k].key && '\n' !in hs[k].value
  }

  function HeaderText(hs: seq<HeaderLine>): string
  {
    if |hs| == 0 then "" else hs[0].key + ":" + hs[0].value + "\n" + HeaderText(hs[1..])
  }

  /** The headers a run of header lines leaves: both halves stripped, later lines
      overwriting earlier ones. */
  function HeaderMap(h: map<string, string>, hs: seq<HeaderLine>): map<string, string>
    decreases |hs|
  {
    if |hs| == 0 then h else HeaderMap(h[Strip(hs[0].key) := Strip(hs[0].value)], hs[1..])
  }

  /** Header reading stops at the first blank line: header lines followed by a blank
      (whitespace-only) line give the headers those lines define, each split at its first
      ':' only so that a value may hold more ':'; the cursor ends just past the blank line,
      and nothing after it is read. */
  lemma ScanStopsAtBlank(s: string, i: nat, h: map<string, string>, hs: seq<HeaderLine>,
                         blank: string, rest: string)
    requires WellFormed(hs)
    requires AllSpace(blank) && '\n' !in blank
    requires i <= |s| && s[i..] == HeaderText(hs) + blank + "\n" + rest
    ensures ScanHeaders(s, i, h) ==
      Headers(HeaderMap(h, hs), i + |HeaderText(hs)| + |blank| + 1)
  {
    var m, end := HeaderMap(h, hs), i + |HeaderText(hs)| + |blank| + 1;
    ScanToBlank(s, i, h, hs, blank, rest, m, end);
  }

  /** ScanStopsAtBlank, with the final headers m and cursor end named. */
  lemma {:induction false} ScanToBlank(s: string, i: nat, h: map<string, string>,
                                       hs: seq<HeaderLine>, blank: string, rest: string,
                                       m: map<string, string>, end: nat)
    requires WellFormed(hs)
    requires AllSpace(blank) && '\n' !in blank
    requires i <= |s| && s[i..] == HeaderText(hs) + blank + "\n" + rest
    requires m == HeaderMap(h, hs) && end == i + |HeaderText(hs)| + |blank| + 1
    ensures ScanHeaders(s, i, h) == Headers(m, end)
    decreases |hs|
  {
    if |hs| == 0 {
      NoHeaderLines(s, i, h, hs, blank, rest, m, end);
    } else {
      var e, h' := FirstLineStep(s, i, h, hs, blank, rest);
      ScanToBlank(s, e, h', hs[1..], blank, rest, m, end);
    }
  }

  /** ScanToBlank without header lines: the blank line ends the loop at once. */
  lemma NoHeaderLines(s: string, i: nat, h: map<string, string>, hs: seq<HeaderLine>,
                      blank: string, rest: string, m: map<string, string>, end: nat)
    requires |hs| == 0
    requires AllSpace(blank) && '\n' !in blank
    requires i <= |s| && s[i..] == HeaderText(hs) + blank + "\n" + rest
    requires m == HeaderMap(h, hs) && end == i + |HeaderText(hs)| + |blank| + 1
    ensures ScanHeaders(s, i, h) == Headers(m, end)
  {
    assert HeaderText(hs) == "" && m == h;
    assert s[i..] == blank + "\n" + rest;
    BlankLineStep(s, i, h, blank, rest);
  }

  /** The first header line is recorded and the loop goes on at the next line, which
      starts at e. */
  lemma FirstLineStep(s: string, i: nat, h: map<string, string>, hs: seq<HeaderLine>,
                      blank: string, rest: string) returns (e: nat, h': map<string, string>)
    requires |hs| > 0 && WellFormed(hs)
    requires i <= |s| && s[i..] == HeaderText(hs) + blank + "\n" + rest
    ensures e <= |s| && s[e..] == HeaderText(hs[1..]) + blank + "\n" + rest
    ensures e + |HeaderText(hs[1..])| == i + |HeaderText(hs)|
    ensures ScanHeaders(s, i, h) == ScanHeaders(s, e, h')
    ensures HeaderMap(h, hs) == HeaderMap(h', hs[1..])
    ensures WellFormed(hs[1..])
  {
    var k, v := hs[0].key, hs[0].value;
    var y := HeaderText(hs[1..]) + blank + "\n" + rest;
    e, h' := i + |k| + |v| + 2, h[Strip(k) := Strip(v)];
    HeaderTextSplit(hs, blank, rest, k, v, y);
    HeaderLineStep(s, i, h, k, v, y, e, h');
    WellFormedTail(hs);
  }

  /** The text of a non-empty run of header lines is its first line followed by the rest. */
  lemma HeaderTextSplit(hs: seq<HeaderLine>, blank: string, rest: string, k: string, v: string,
                        y: string)
    requires |hs| > 0 && k == hs[0].key && v == hs[0].value
    requires y == HeaderText(hs[1..]) + blank + "\n" + rest
    ensures HeaderText(hs) + blank + "\n" + rest == k + ":" + v + "\n" + y
    ensures |HeaderText(hs)| == |k| + |v| + 2 + |HeaderText(hs[1..])|
  {
    HeaderTextCons(hs);
  }

  lemma HeaderTextCons(hs: seq<HeaderLine>)
    requires |hs| > 0
    ensures HeaderText(hs) == hs[0].key + ":" + hs[0].value + "\n" + HeaderText(hs[1..])
  {
  }

  lemma WellFormedTail(hs: seq<HeaderLine>)
    requires |hs| > 0 && WellFormed(hs)
    ensures WellFormed(hs[1..])
  {
    forall j | 0 <= j < |hs[1..]|
      ensures ':' !in hs[1..][j].key && '\n' !in hs[1..][j].key && '\n' !in hs[1..][j].value
    {
      assert hs[1..][j] == hs[j + 1];
    }
  }

  /** A blank line: the loop ends just past it. */
  lemma BlankLineStep(s: string, i: nat, h: map<string, string>, blank: string, rest: string)
    requires AllSpace(blank) && '\n' !in blank
    requires i <= |s| && s[i..] == blank + "\n" + rest
    ensures ScanHeaders(s, i, h) == Headers(h, i + |blank| + 1)
  {
    SliceParts(s, i, blank + "\n", rest);
    LineEndAfter(s, i, blank);
    assert LineAt(s, i) == blank + "\n";
    StripBlank(blank);
    StripNewline(blank);
    ScanBlank(s, i, h);
  }

  /** One header line followed by the text y: the line is recorded and the loop goes on
      at y, which starts at e. */
  lemma HeaderLineStep(s: string, i: nat, h: map<string, string>, k: string, v: string, y: string,
                       e: nat, h': map<string, string>)
    requires ':' !in k && '\n' !in k && '\n' !in v
    requires i <= |s| && s[i..] == k + ":" + v + "\n" + y
    requires e == i + |k| + |v| + 2 && h' == h[Strip(k) := Strip(v)]
    ensures e <= |s| && s[e..] == y
    ensures ScanHeaders(s, i, h) == ScanHeaders(s, e, h')
  {
    NoNewline(k, v);
    assert |k + ":" + v| + 1 == |k| + |v| + 2;
    LineFacts(s, i, k + ":" + v, y, e);
    FieldLine(k, v);
    ScanHeaderLine(s, i, h, k, v + "\n", e, h');
  }

  /** The line at i is `l + "\n"` when the text there is that line followed by y. */
  lemma LineFacts(s: string, i: nat, l: string, y: string, e: nat)
    requires '\n' !in l
    requires i <= |s| && s[i..] == l + "\n" + y && e == i + |l| + 1
    ensures e <= |s| && s[e..] == y
    ensures LineEnd(s, i) == e && LineAt(s, i) == l + "\n"
  {
    SliceParts(s, i, l + "\n", y);
    LineEndAfter(s, i, l);
  }

  /** How the header loop sees the line `k:v\n`. */
  lemma FieldLine(k: string, v: string)
    requires ':' !in k
    ensures Strip(k + ":" + v + "\n") != []
    ensures SplitOnce(k + ":" + v + "\n", ':') == Some((k, v + "\n"))
    ensures Strip(v + "\n") == Strip(v)
  {
    var l := k + ":" + v + "\n";
    assert !AllSpace(l) by { assert l[|k|] == ':'; }
    StripNonBlank(l);
    assert l == k + [':'] + (v + "\n");
    SplitOnceAt(l, ':', k, v + "\n");
    StripNewline(v);
  }

  lemma NoNewline(k: string, v: string)
    requires '\n' !in k && '\n' !in v
    ensures '\n' !in k + ":" + v
  {
  }

  /** One blank line ends the header loop. */
  lemma ScanBlank(s: string, i: nat, h: map<string, string>)
    requires i <= |s| && Strip(LineAt(s, i)) == []
    ensures ScanHeaders(s, i, h) == Headers(h, LineEnd(s, i))
  {
  }

  /** One `key: value` line is recorded and the loop goes on. */
  lemma ScanHeaderLine(s: string, i: nat, h: map<string, string>, k: string, v: string,
                       e: nat, h': map<string, string>)
    requires i <= |s| && Strip(LineAt(s, i)) != [] && SplitOnce(LineAt(s, i), ':') == Some((k, v))
    requires e == LineEnd(s, i) && h' == h[Strip(k) := Strip(v)]
    ensures ScanHeaders(s, i, h) == ScanHeaders(s, e, h')
  {
  }

  lemma SliceParts(s: string, i: nat, x: string, y: string)
    requires i <= |s| && s[i..] == x + y
    ensures s[i..i + |x|] == x && s[i + |x|..] == y
  {
    assert s[i..i + |x|] == s[i..][..|x|];
    assert s[i + |x|..] == s[i..][|x|..];
  }

  /** A repeated key keeps its last value: the last line whose stripped key is k decides
      the header k. */
  lemma {:induction false} LastValueWins(h: map<string, string>, pre: seq<HeaderLine>,
                                         key: string, value: string, post: seq<HeaderLine>)
    requires forall j :: 0 <= j < |post| ==> Strip(post[j].key) != Strip(key)
    ensures var m := HeaderMap(h, pre + [HeaderLine(key, value)] + post);
      Strip(key) in m && m[Strip(key)] == Strip(value)
    decreases |pre|
  {
    var hs := pre + [HeaderLine(key, value)] + post;
    if |pre| == 0 {
      assert hs == [HeaderLine(key, value)] + post;
      assert hs[1..] == post;
      KeyUntouched(h[Strip(key) := Strip(value)], post, Strip(key));
    } else {
      assert hs[1..] == pre[1..] + [HeaderLine(key, value)] + post;
      LastValueWins(h[Strip(pre[0].key) := Strip(pre[0].value)], pre[1..], key, value, post);
    }
  }

  /** Lines for other keys leave a header alone. */
  lemma {:induction false} KeyUntouched(h: map<string, string>, hs: seq<HeaderLine>, k: string)
    requires k in h
    requires forall j :: 0 <= j < |hs| ==> Strip(hs[j].key) != k
    ensures k in HeaderMap(h, hs) && HeaderMap(h, hs)[k] == h[k]
    decreases |hs|
  {
    if |hs| > 0 {
      KeyUntouched(h[Strip(hs[0].key) := Strip(hs[0].value)], hs[1..], k);
    }
  }

  /** Once the header loop stops at a line without ':', read_message raises. */
  lemma ReadsMissingColon(s: string, i: nat, decode: string -> Option<Json>, line: string, e: nat)
    requires i <= |s| && ScanHeaders(s, i, map[]) == NoColon(line, e)
    ensures ReadSpec(s, i, decode) == Reading(MissingColon(line), e)
  {
  }

  /** A length of 0 reads nothing and returns None. */
  lemma ReadsZeroLength(s: string, i: nat, decode: string -> Option<Json>, m: map<string, string>,
                        e: nat)
    requires i <= |s| && ScanHeaders(s, i, map[]) == Headers(m, e)
    requires LengthKey in m && ParseInt(m[LengthKey]) == Some(0)
    ensures ReadSpec(s, i, decode) == Reading(NoMessage, e)
  {
  }

  /** A nonzero length reads that many characters after the headers and decodes them. */
  lemma ReadsBody(s: string, i: nat, decode: string -> Option<Json>, m: map<string, string>,
                  e: nat, n: int, j: nat, v: Json)
    requires i <= |s| && ScanHeaders(s, i, map[]) == Headers(m, e)
    requires LengthKey in m && ParseInt(m[LengthKey]) == Some(n) && n != 0
    requires e <= |s| && j == ReadEnd(s, e, n) && decode(s[e..j]) == Some(v)
    ensures ReadSpec(s, i, decode) == Reading(Message(v), j)
  {
  }

  /** A non-blank header line without ':' makes read_message raise, after consuming that
      line only. */
  lemma NoColonRaises(s: string, i: nat, line: string, decode: string -> Option<Json>)
    requires '\n' !in line && ':' !in line && !AllSpace(line)
    requires i + |line| + 1 <= |s| && s[i..i + |line| + 1] == line + "\n"
    ensures ReadSpec(s, i, decode) == Reading(MissingColon(line + "\n"), i + |line| + 1)
  {
    var e := i + |line| + 1;
    LineEndAfter(s, i, line);
    assert LineAt(s, i) == line + "\n";
    StripNonBlank(line);
    StripNewline(line);
    assert ':' !in line + "\n";
    assert ScanHeaders(s, i, map[]) == NoColon(line + "\n", e);
    ReadsMissingColon(s, i, decode, line + "\n", e);
  }

  // ---------------------------------------------------------------------------
  // Round trip

  /** The shape of a one-field header block for any key and any digit string d, each
      line ended by `cr` + "\n" (cr is "\r" as written, "" once a pipe has translated
      newlines): a first line without '\n' inside, then a line holding only cr. */
  lemma FrameShape(key: string, d: string, cr: string, body: string)
    requires cr == "\r" || cr == ""
    requires '\n' !in key && forall k :: 0 <= k < |d| ==> IsDigit(d[k])
    ensures key + ": " + d + cr + "\n" + cr + "\n" + body
            == key + ":" + (" " + d + cr) + "\n" + cr + "\n" + body
    ensures '\n' !in " " + d + cr
  {
    assert forall k :: 0 <= k < |d| ==> d[k] != '\n';
  }

  /** A header block `key: d` followed by a blank line, its lines ended by cr + "\n",
      scans to the single entry key -> d, with the cursor just before the body. */
  lemma HeaderScan(s: string, i: nat, key: string, d: string, cr: string, body: string,
                   m: map<string, string>, end: nat)
    requires cr == "\r" || cr == ""
    requires key != [] && !IsSpace(key[0]) && !IsSpace(key[|key| - 1])
    requires ':' !in key && '\n' !in key
    requires d != [] && forall k :: 0 <= k < |d| ==> IsDigit(d[k])
    requires var f := key + ": " + d + cr + "\n" + cr + "\n" + body;
      i + |f| <= |s| && s[i..i + |f|] == f
    requires m == map[key := d] && end == i + |key| + |d| + 4 + 2 * |cr|
    ensures ScanHeaders(s, i, map[]) == Headers(m, end)
  {
    var f := key + ": " + d + cr + "\n" + cr + "\n" + body;
    var after := s[i + |f|..];
    var hl := HeaderLine(key, " " + d + cr);
    PrefixAt(s, i, f);
    OneFieldText(key, d, cr, body, after, hl);
    OneFieldMap(key, d, cr, hl);
    assert AllSpace(cr) && '\n' !in cr;
    ScanToBlank(s, i, map[], [hl], cr, body + after, m, end);
  }

  lemma PrefixAt(s: string, i: nat, f: string)
    requires i + |f| <= |s| && s[i..i + |f|] == f
    ensures s[i..] == f + s[i + |f|..]
  {
  }

  /** The text of a one-field header block, as header lines. */
  lemma OneFieldText(key: string, d: string, cr: string, body: string, after: string,
                     hl: HeaderLine)
    requires cr == "\r" || cr == ""
    requires ':' !in key && '\n' !in key && forall k :: 0 <= k < |d| ==> IsDigit(d[k])
    requires hl == HeaderLine(key, " " + d + cr)
    ensures WellFormed([hl])
    ensures key + ": " + d + cr + "\n" + cr + "\n" + body + after
            == HeaderText([hl]) + cr + "\n" + (body + after)
    ensures |HeaderText([hl])| == |key| + |d| + 3 + |cr|
  {
    FrameShape(key, d, cr, body);
    assert HeaderText([hl]) == key + ":" + (" " + d + cr) + "\n";
  }

  /** The headers a one-field header block defines. */
  lemma OneFieldMap(key: string, d: string, cr: string, hl: HeaderLine)
    requires cr == "\r" || cr == ""
    requires key != [] && !IsSpace(key[0]) && !IsSpace(key[|key| - 1])
    requires d != [] && forall k :: 0 <= k < |d| ==> IsDigit(d[k])
    requires hl == HeaderLine(key, " " + d + cr)
    ensures HeaderMap(map[], [hl]) == map[key := d]
  {
    StripTrimmed(key);
    assert AllSpace(cr);
    StripPadded(" ", d, cr);
    assert [hl][1..] == [];
  }

  /** The facts about the key "Content-Length" the header loop needs. */
  lemma LengthKeyShape()
    ensures LengthKey != [] && !IsSpace(LengthKey[0]) && !IsSpace(LengthKey[|LengthKey| - 1])
    ensures ':' !in LengthKey && '\n' !in LengthKey
  {
  }

  /** A frame as a reader sees it, each header line ended by cr + "\n": cr is "\r" on a
      pipe that shows what send_message wrote, "" on one that translates newlines. */
  function Framed(body: string, cr: string): string
  {
    LengthKey + ": " + NatToDecimal(|body|) + cr + "\n" + cr + "\n" + body
  }

  lemma FrameIsFramed(body: string)
    ensures Frame(body) == Framed(body, "\r")
  {
  }

  /** Through a pipe opened with text=True, send_message's "\r\n" pairs arrive as "\n",
      and a body without '\r' arrives unchanged. */
  lemma FrameTranslated(body: string)
    requires '\r' !in body
    ensures Translated(Frame(body)) == Framed(body, "")
  {
    var h := LengthKey + ": " + NatToDecimal(|body|);
    assert Frame(body) == h + ("\r\n" + ("\r\n" + body));
    assert Framed(body, "") == h + ("\n" + ("\n" + body));
    HeadPlain(NatToDecimal(|body|), h);
    TwoLinesTranslated(h, body);
  }

  /** A line without '\r', a "\r\n", another "\r\n", then a body without '\r'. */
  lemma TwoLinesTranslated(h: string, body: string)
    requires h != [] && '\r' !in h && '\r' !in body
    ensures Translated(h + ("\r\n" + ("\r\n" + body))) == h + ("\n" + ("\n" + body))
  {
    TranslatedAppend(h, "\r\n" + ("\r\n" + body));
    TranslatedPlain(h);
    TranslatedCrLf("\r\n" + body);
    TranslatedCrLf(body);
    TranslatedPlain(body);
  }

  /** The first header line holds no '\r' and ends in a digit. */
  lemma HeadPlain(d: string, h: string)
    requires |d| > 0 && forall k :: 0 <= k < |d| ==> IsDigit(d[k])
    requires h == LengthKey + ": " + d
    ensures '\r' !in h && h[|h| - 1] != '\r'
  {
    assert h[|h| - 1] == d[|d| - 1];
  }

  /** A one-field Content-Length block scans to the single entry Content-Length -> |body|
      in decimal, with the cursor at the body. */
  lemma FrameHeaders(s: string, i: nat, body: string, cr: string, m: map<string, string>,
                     e: nat)
    requires cr == "\r" || cr == ""
    requires i + |Framed(body, cr)| <= |s| && s[i..i + |Framed(body, cr)|] == Framed(body, cr)
    requires m == map[LengthKey := NatToDecimal(|body|)]
    requires e + |body| == i + |Framed(body, cr)|
    ensures ScanHeaders(s, i, map[]) == Headers(m, e)
  {
    LengthKeyShape();
    FrameLength(body, cr);
    assert e == i + |LengthKey| + |NatToDecimal(|body|)| + 4 + 2 * |cr|;
    HeaderScan(s, i, LengthKey, NatToDecimal(|body|), cr, body, m, e);
  }

  lemma FrameLength(body: string, cr: string)
    ensures |Framed(body, cr)| == |LengthKey| + |NatToDecimal(|body|)| + 4 + 2 * |cr| + |body|
  {
  }

  /** The body of a frame at i lies between e and j. */
  lemma FrameBody(s: string, i: nat, body: string, cr: string, e: nat, j: nat)
    requires i + |Framed(body, cr)| <= |s| && s[i..i + |Framed(body, cr)|] == Framed(body, cr)
    requires j == i + |Framed(body, cr)| && e + |body| == j
    ensures s[e..j] == body
  {
    var f := Framed(body, cr);
    assert f[|f| - |body|..] == body;
    assert s[e..j] == s[i..i + |f|][|f| - |body|..];
  }

  /** The header send_message writes scans to a Content-Length int() reads back as the
      body's length, with the cursor at the body, on either kind of pipe. */
  lemma FrameScan(s: string, i: nat, body: string, cr: string)
    requires cr == "\r" || cr == ""
    requires i + |Framed(body, cr)| <= |s| && s[i..i + |Framed(body, cr)|] == Framed(body, cr)
    ensures var sc := ScanHeaders(s, i, map[]);
      && sc.Headers? && sc.end + |body| == i + |Framed(body, cr)|
      && LengthKey in sc.fields && ParseInt(sc.fields[LengthKey]) == Some(|body|)
  {
    var e := i + |Framed(body, cr)| - |body|;
    var m := map[LengthKey := NatToDecimal(|body|)];
    FrameLength(body, cr);
    FrameHeaders(s, i, body, cr, m, e);
    ParseDecimal(|body|);
  }

  /** Reading a stream at the start of a frame, whether the pipe shows it as written
      (cr = "\r") or with its newlines translated (cr = ""), returns the body decoded
      and leaves the cursor just past the body, whatever follows. */
  lemma RoundTrip(s: string, i: nat, body: string, cr: string, v: Json,
                  decode: string -> Option<Json>)
    requires cr == "\r" || cr == ""
    requires body != [] && decode(body) == Some(v)
    requires i + |Framed(body, cr)| <= |s| && s[i..i + |Framed(body, cr)|] == Framed(body, cr)
    ensures ReadSpec(s, i, decode) == Reading(Message(v), i + |Framed(body, cr)|)
  {
    var j := i + |Framed(body, cr)|;
    var sc := ScanHeaders(s, i, map[]);
    FrameScan(s, i, body, cr);
    FrameBody(s, i, body, cr, sc.end, j);
    ReadsBody(s, i, decode, sc.fields, sc.end, |body|, j, v);
  }

  /** A frame with an empty body reads as None, consuming the whole frame. */
  lemma EmptyBodyReadsNone(s: string, i: nat, cr: string, decode: string -> Option<Json>)
    requires cr == "\r" || cr == ""
    requires i + |Framed([], cr)| <= |s| && s[i..i + |Framed([], cr)|] == Framed([], cr)
    ensures ReadSpec(s, i, decode) == Reading(NoMessage, i + |Framed([], cr)|)
  {
    var sc := ScanHeaders(s, i, map[]);
    FrameScan(s, i, [], cr);
    ReadsZeroLength(s, i, decode, sc.fields, sc.end);
  }

  /** send_message followed by read_message on what it wrote, through a pipe opened with
      text=True. json.dumps writes no raw '\r' (it escapes control characters), so the
      body's characters are read back as they were sent. */
  method SendThenRead(payload: Json, encode: Json -> string, decode: string -> Option<Json>)
    returns (r: Received)
    requires encode(payload) != [] && '\r' !in encode(payload)
    requires decode(encode(payload)) == Some(payload)
    ensures r == Message(payload)
  {
    var out := new OutStream();
    SendMessage(out, payload, encode);
    var body := encode(payload);
    assert out.written == Frame(body);
    FrameTranslated(body);
    var p := new TextStream(Translated(out.written));
    assert p.data[0..|Framed(body, "")|] == Framed(body, "");
    RoundTrip(p.data, 0, body, "", payload, decode);
    r := ReadMessage(p, decode);
  }
}
