// Message framing of the command-line RPC server (internal/app/cli.go):
// readRPCMessage and writeRPC, on a stream of octets written as characters.
module RpcFraming {
  import opened Wrappers
  import opened GoIntegers
  import opened Decimals

  const MAX_RPC_CONTENT_LENGTH: nat := 0x10_0000

  datatype ReadError =
    | EndOfInput | UnexpectedEnd | InvalidHeader | InvalidContentLength | ContentTooLong | MissingContentLength

  // What one call of readRPCMessage returns: a message and how it was framed,
  // or an error.
  datatype Read = Got(message: string, framed: bool) | Failed(error: ReadError)

  datatype Body = Body(text: string, framed: bool)

  // ---- The library functions it uses ----

  // The ASCII part of strings.TrimSpace.
  predicate IsSpace(c: char) { c == ' ' || c == '\t' || c == '\n' || c == '\r' || c == 11 as char || c == 12 as char }

  function TrimLeft(s: string): (r: string)
    ensures |r| <= |s| && s[|s| - |r|..] == r
    ensures r != "" ==> !IsSpace(r[0])
  {
    if s != "" && IsSpace(s[0]) then TrimLeft(s[1..]) else s
  }

  function TrimRight(s: string): (r: string)
    ensures r <= s
    ensures r != "" ==> !IsSpace(r[|r| - 1])
  {
    if s != "" && IsSpace(s[|s| - 1]) then TrimRight(s[..|s| - 1]) else s
  }

  function TrimSpace(s: string): string { TrimRight(TrimLeft(s)) }

  // The index of the first c, or the length if there is none.
  function IndexOf(s: string, c: char): (n: nat)
    ensures n <= |s| && (n < |s| ==> s[n] == c) && forall i :: 0 <= i < n ==> s[i] != c
  {
    if s == "" || s[0] == c then 0 else 1 + IndexOf(s[1..], c)
  }

  function Lower(c: char): char { if 'A' <= c <= 'Z' then (c as int + 32) as char else c }

  // strings.EqualFold against an ASCII name without k or s.
  predicate EqualFold(a: string, b: string) {
    |a| == |b| && forall i :: 0 <= i < |a| ==> Lower(a[i]) == Lower(b[i])
  }

  // strconv.Atoi.
  function Atoi(s: string): Option<int64> {
    var digits := if s != "" && (s[0] == '-' || s[0] == '+') then s[1..] else s;
    if digits == "" || !AllDigits(digits) then None
    else
      var v: int := Value(digits);
      var n := if s[0] == '-' then -v else v;
      if -TWO_TO_63 <= n < TWO_TO_63 then Some(n) else None
  }

  // ---- Reading and writing, as functions of the stream ----

  // One line with its newline, if it has one, and what follows.
  function LineEnd(input: string): (n: nat)
    ensures n <= |input| && (input != "" ==> n > 0)
  {
    var k := IndexOf(input, '\n');
    if k < |input| then k + 1 else k
  }

  // One header line: the content length it sets, if any.
  function HeaderLength(trimmed: string): Result<Option<nat>, ReadError> {
    var k := IndexOf(trimmed, ':');
    if k == |trimmed| then Err(InvalidHeader)
    else if !EqualFold(trimmed[..k], "Content-Length") then Ok(None)
    else
      var length := Atoi(TrimSpace(trimmed[k + 1..]));
      if length.None? || length.value < 0 then Err(InvalidContentLength)
      else if length.value > MAX_RPC_CONTENT_LENGTH then Err(ContentTooLong)
      else Ok(Some(length.value))
  }

  function ReadBody(input: string, length: Option<nat>): (Read, string) {
    if length.None? then (Failed(MissingContentLength), input)
    else if length.value <= |input| then (Got(input[..length.value], true), input[length.value..])
    else (Failed(if input == "" then EndOfInput else UnexpectedEnd), "")
  }

  function ReadHeaders(input: string, length: Option<nat>): (Read, string)
    decreases |input|
  {
    var n := LineEnd(input);
    if n == 0 || input[n - 1] != '\n' then (Failed(EndOfInput), "")
    else
      var trimmed := TrimSpace(input[..n]);
      if trimmed == "" then ReadBody(input[n..], length)
      else
        var h := HeaderLength(trimmed);
        if h.Err? then (Failed(h.error), input[n..])
        else ReadHeaders(input[n..], if h.value.Some? then h.value else length)
  }

  predicate StartsHeader(input: string) { input != "" && (input[0] == 'C' || input[0] == 'c') }

  function ReadMessage(input: string): (Read, string) {
    if input == "" then (Failed(EndOfInput), "")
    else if !StartsHeader(input) then (Got(input[..LineEnd(input)], false), input[LineEnd(input)..])
    else ReadHeaders(input, None)
  }

  function Written(b: Body): string {
    if b.framed then "Content-Length: " + Decimal(|b.text|) + "\r\n\r\n" + b.text else b.text + "\n"
  }

  // ---- The same over a reader and a writer ----

  class Stream {
    var rest: string

    constructor (input: string)
      ensures rest == input
    {
      rest := input;
    }

    // bufio.Reader.ReadString('\n').
    method ReadLine() returns (line: string, ended: bool)
      modifies this
      ensures line == old(rest)[..LineEnd(old(rest))] && rest == old(rest)[LineEnd(old(rest))..]
      ensures ended <==> line == "" || line[|line| - 1] != '\n'
    {
      var n := LineEnd(rest);
      line := rest[..n];
      rest := rest[n..];
      ended := line == "" || line[|line| - 1] != '\n';
    }

    // io.ReadFull into a buffer of n octets.
    method ReadFull(n: nat) returns (message: string, e: Option<ReadError>)
      modifies this
      ensures if n <= |old(rest)| then message == old(rest)[..n] && rest == old(rest)[n..] && e == None
              else rest == "" && e == Some(if old(rest) == "" then EndOfInput else UnexpectedEnd)
    {
      if n <= |rest| {
        message, e := rest[..n], None;
        rest := rest[n..];
      } else {
        message, e := rest, Some(if rest == "" then EndOfInput else UnexpectedEnd);
        rest := "";
      }
    }

    method Write(data: string)
      modifies this
      ensures rest == old(rest) + data
    {
      rest := rest + data;
    }
  }

  method ReadRPCMessage(reader: Stream) returns (r: Read)
    modifies reader
    ensures (r, reader.rest) == ReadMessage(old(reader.rest))
  {
    hide HeaderLength, TrimSpace;
    if reader.rest == "" { return Failed(EndOfInput); }
    var first := reader.rest[0];
    if first != 'C' && first != 'c' {
      var line, ended := reader.ReadLine();
      return Got(line, false);
    }
    var contentLength: int := -1;
    ghost var known := None;
    while true
      invariant contentLength == if known.Some? then known.value else -1
      invariant ReadHeaders(reader.rest, known) == ReadMessage(old(reader.rest))
      decreases |reader.rest|
    {
      ghost var input := reader.rest;
      var line, ended := reader.ReadLine();
      if ended {
        assert reader.rest == "";
        return Failed(EndOfInput);
      }
      var trimmed := TrimSpace(line);
      if trimmed == "" { break; }
      var h := HeaderLength(trimmed);
      if h.Err? { return Failed(h.error); }
      if h.value.Some? {
        contentLength := h.value.value;
        known := h.value;
      }
    }
    if contentLength < 0 { return Failed(MissingContentLength); }
    var message, e := reader.ReadFull(contentLength);
    if e.Some? { return Failed(e.value); }
    return Got(message, true);
  }

  method WriteRPC(out: Stream, b: Body)
    modifies out
    ensures out.rest == old(out.rest) + Written(b)
  {
    if b.framed {
      out.Write("Content-Length: " + Decimal(|b.text|) + "\r\n\r\n");
      out.Write(b.text);
      return;
    }
    out.Write(b.text + "\n");
  }

  // ---- Writing and reading undo each other ----

  // What may be written so that the reader gives it back.
  predicate Sendable(b: Body) {
    if b.framed then |b.text| <= MAX_RPC_CONTENT_LENGTH
    else '\n' !in b.text && !StartsHeader(b.text)
  }

  // What the reader hands on: the body, and in line mode its newline too.
  function Delivered(b: Body): Read { Got(if b.framed then b.text else b.text + "\n", b.framed) }

  lemma {:induction false} FirstAt(s: string, c: char, t: string)
    requires c !in s
    ensures IndexOf(s + [c] + t, c) == |s|
  {
    if s == "" {
      assert s + [c] + t == [c] + t;
    } else {
      assert (s + [c] + t)[1..] == s[1..] + [c] + t;
      FirstAt(s[1..], c, t);
    }
  }

  // A line with its newline splits off whatever follows.
  lemma LineSplits(s: string, t: string)
    requires '\n' !in s
    ensures var input := s + "\n" + t;
      LineEnd(input) == |s| + 1 && input[..|s| + 1] == s + "\n" && input[|s| + 1..] == t
  {
    FirstAt(s, '\n', t);
  }

  lemma TrimLeftDrops(c: char, s: string)
    requires IsSpace(c)
    ensures TrimLeft([c] + s) == TrimLeft(s)
  {
    assert ([c] + s)[1..] == s;
  }

  lemma TrimRightDrops(s: string, c: char)
    requires IsSpace(c)
    ensures TrimRight(s + [c]) == TrimRight(s)
  {
    assert (s + [c])[..|s|] == s;
  }

  // A text that neither begins nor ends with a space.
  predicate Tight(s: string) { s != "" && !IsSpace(s[0]) && !IsSpace(s[|s| - 1]) }

  lemma TightIsTrimmed(s: string)
    requires Tight(s)
    ensures TrimLeft(s) == s && TrimRight(s) == s
  {
  }

  lemma TrimmedValue(s: string)
    requires Tight(s)
    ensures TrimSpace(" " + s) == s
  {
    hide TrimLeft, TrimRight, Tight;
    TrimLeftDrops(' ', s);
    TightIsTrimmed(s);
  }

  lemma TrimmedLine(s: string)
    requires Tight(s)
    ensures TrimSpace(s + "\r\n") == s
  {
    hide TrimLeft, TrimRight;
    TightIsTrimmed(s);
    TrimLeftStops(s + "\r\n");
    assert s + "\r\n" == (s + ['\r']) + ['\n'];
    TrimRightDrops(s + ['\r'], '\n');
    TrimRightDrops(s, '\r');
  }

  lemma TrimLeftStops(s: string)
    requires s != "" && !IsSpace(s[0])
    ensures TrimLeft(s) == s
  {
  }

  lemma AtoiOfDecimal(n: nat)
    ensures Atoi(Decimal(n)) == if n < TWO_TO_63 then Some(n) else None
  {
    var d := Decimal(n);
    assert IsDigit(d[0]);
    ValueOfDecimal(n);
  }

  lemma DecimalIsTight(n: nat)
    ensures Tight(Decimal(n))
  {
    var d := Decimal(n);
    assert IsDigit(d[0]) && IsDigit(d[|d| - 1]);
  }

  lemma HeaderCuts(name: string, value: string)
    requires ':' !in name
    ensures var line := name + ":" + value;
      IndexOf(line, ':') == |name| < |line| && line[..|name|] == name && line[|name| + 1..] == value
  {
    FirstAt(name, ':', value);
  }

  const LENGTH_NAME: string := "Content-Length"

  function LengthLine(n: nat): string { LENGTH_NAME + ":" + (" " + Decimal(n)) }

  lemma LengthHeader(n: nat)
    ensures n <= MAX_RPC_CONTENT_LENGTH ==> HeaderLength(LengthLine(n)) == Ok(Some(n))
    ensures n > MAX_RPC_CONTENT_LENGTH ==> HeaderLength(LengthLine(n)).Err?
  {
    hide IndexOf, TrimSpace, Decimal, Tight, Atoi;
    HeaderCuts(LENGTH_NAME, " " + Decimal(n));
    DecimalIsTight(n);
    TrimmedValue(Decimal(n));
    AtoiOfDecimal(n);
  }

  lemma LengthLineIsTight(n: nat)
    ensures Tight(LengthLine(n)) && '\n' !in LengthLine(n) && StartsHeader(LengthLine(n))
  {
    hide Decimal;
    var d := Decimal(n);
    assert IsDigit(d[|d| - 1]) && LengthLine(n)[|LengthLine(n)| - 1] == d[|d| - 1];
    assert '\n' !in d by { assert forall c :: c in d ==> IsDigit(c); }
    assert '\n' !in LENGTH_NAME;
  }

  lemma BlankLine()
    ensures TrimSpace("\r\n") == ""
  {
    assert TrimLeft("") == "" && TrimLeft("\r\n"[1..]) == "";
  }

  // The length header, whatever follows it.
  lemma HeaderRead(n: nat, after: string)
    ensures var r := ReadHeaders(LengthLine(n) + "\r" + "\n" + after, None);
      if n <= MAX_RPC_CONTENT_LENGTH then r == ReadHeaders(after, Some(n)) else r.0.Failed?
  {
    hide LineEnd, TrimSpace, HeaderLength, LengthLine, Tight;
    var line := LengthLine(n);
    LengthLineIsTight(n);
    assert line + "\r" + "\n" == line + "\r\n";
    LineSplits(line + "\r", after);
    TrimmedLine(line);
    LengthHeader(n);
  }

  // The blank line and the body, whatever follows.
  lemma BodyRead(text: string, rest: string)
    ensures ReadHeaders("\r" + "\n" + (text + rest), Some(|text|)) == (Got(text, true), rest)
  {
    hide LineEnd, TrimSpace, HeaderLength;
    LineSplits("\r", text + rest);
    assert "\r" + "\n" == "\r\n";
    BlankLine();
    assert (text + rest)[..|text|] == text && (text + rest)[|text|..] == rest;
  }

  lemma FramedReadsBack(text: string, rest: string)
    ensures var r := ReadMessage(Written(Body(text, true)) + rest);
      if |text| <= MAX_RPC_CONTENT_LENGTH then r == (Got(text, true), rest) else r.0.Failed?
  {
    hide ReadHeaders, LengthLine, Tight, Written;
    var line := LengthLine(|text|);
    var after := "\r" + "\n" + (text + rest);
    var input := Written(Body(text, true)) + rest;
    HeaderText(text);
    Assembled(line, text, rest);
    LengthLineIsTight(|text|);
    assert StartsHeader(input);
    HeaderRead(|text|, after);
    BodyRead(text, rest);
  }

  lemma Assembled(line: string, text: string, rest: string)
    ensures line + "\r\n\r\n" + text + rest == line + "\r" + "\n" + ("\r" + "\n" + (text + rest))
  {
  }

  lemma HeaderText(text: string)
    ensures Written(Body(text, true)) == LengthLine(|text|) + "\r\n\r\n" + text
  {
    hide Decimal;
    assert "Content-Length: " == LENGTH_NAME + ":" + " ";
  }

  lemma LineReadsBack(text: string, rest: string)
    ensures var r := ReadMessage(Written(Body(text, false)) + rest);
      if '\n' !in text && !StartsHeader(text) then r == (Got(text + "\n", false), rest) else r.0 != Got(text + "\n", false)
  {
    hide ReadHeaders;
    var input := text + "\n" + rest;
    assert Written(Body(text, false)) + rest == input;
    if StartsHeader(text) {
      HeadersConsume(input, None);
      assert StartsHeader(input);
    } else if '\n' !in text {
      LineSplits(text, rest);
    } else {
      var i :| 0 <= i < |text| && text[i] == '\n';
      assert input[i] == '\n';
      assert LineEnd(input) <= |text|;
    }
  }

  // One message, whatever follows it on the stream: it is read back, and
  // leaves exactly what follows, if it is sendable; if not, something else is
  // read.
  lemma ReadsBackExactly(b: Body, rest: string)
    ensures Sendable(b) ==> ReadMessage(Written(b) + rest) == (Delivered(b), rest)
    ensures !Sendable(b) ==> ReadMessage(Written(b) + rest).0 != Delivered(b)
  {
    hide ReadMessage;
    if b.framed { FramedReadsBack(b.text, rest); } else { LineReadsBack(b.text, rest); }
  }

  // ---- Headers as others may write them ----

  // White space at either end is trimmed, all of it and nothing else.
  predicate Blank(s: string) { forall c :: c in s ==> c as int in {9, 10, 11, 12, 13, 32} }

  lemma TrimsBlanks(before: string, t: string, after: string)
    requires Blank(before) && Blank(after) && (t == "" || Tight(t))
    ensures TrimSpace(before + t + after) == t
  {
    hide TrimLeft, TrimRight, Blank, Tight;
    assert before + t + after == before + (t + after);
    TrimsLeading(before, t + after);
    if t == "" {
      assert "" + after == after + "";
      TrimsLeading(after, "");
      assert TrimLeft("") == "" && TrimRight("") == "" by { NothingToTrim(); }
    } else {
      TrimLeftStops(t + after) by { TightIsSome(t); TightStart(t, after); }
      TrimsTrailing(t, after);
    }
  }

  lemma NothingToTrim()
    ensures TrimLeft("") == "" && TrimRight("") == ""
  {
  }

  lemma TightStart(t: string, after: string)
    requires Tight(t)
    ensures t + after != "" && !IsSpace((t + after)[0])
  {
  }

  lemma {:induction false} TrimsLeading(before: string, s: string)
    requires Blank(before)
    ensures TrimLeft(before + s) == TrimLeft(s)
    decreases |before|
  {
    if before == "" {
      assert before + s == s;
    } else {
      assert before[0] in before && forall c :: c in before[1..] ==> c in before;
      assert before + s == [before[0]] + (before[1..] + s);
      TrimLeftDrops(before[0], before[1..] + s);
      TrimsLeading(before[1..], s);
    }
  }

  lemma {:induction false} TrimsTrailing(t: string, after: string)
    requires Blank(after) && Tight(t)
    ensures TrimRight(t + after) == t
    decreases |after|
  {
    if after == "" {
      assert t + after == t;
      TightIsTrimmed(t);
    } else {
      var n := |after| - 1;
      assert after[n] in after && forall c :: c in after[..n] ==> c in after;
      assert t + after == (t + after[..n]) + [after[n]];
      TrimRightDrops(t + after[..n], after[n]);
      TrimsTrailing(t, after[..n]);
    }
  }

  // The name of the length header, in any case.
  predicate NamesLength(name: string) {
    |name| == 14 && forall i :: 0 <= i < 14 ==> name[i] == "content-length"[i] || name[i] == "CONTENT-LENGTH"[i]
  }

  lemma CaseDoesNotMatter(name: string)
    ensures EqualFold(name, "Content-Length") <==> NamesLength(name)
  {
    if |name| == 14 {
      forall i | 0 <= i < 14
        ensures Lower(name[i]) == Lower("Content-Length"[i]) <==> name[i] == "content-length"[i] || name[i] == "CONTENT-LENGTH"[i]
      {
        var c := "content-length"[i];
        assert Lower("Content-Length"[i]) == c;
        assert c == '-' || 'a' <= c <= 'z';
      }
    }
  }

  // One header: a line without a colon is none; a length is read whatever the
  // case of its name; any other header is passed over.
  lemma HeaderExactly(name: string, value: string)
    requires ':' !in name
    ensures HeaderLength(name) == Err(InvalidHeader)
    ensures !NamesLength(name) ==> HeaderLength(name + ":" + value) == Ok(None)
    ensures NamesLength(name) ==>
      HeaderLength(name + ":" + value)
      == match Atoi(TrimSpace(value))
         case None => Err(InvalidContentLength)
         case Some(n) => if n < 0 then Err(InvalidContentLength) else if n > 1048576 then Err(ContentTooLong) else Ok(Some(n))
  {
    hide Atoi, TrimSpace, EqualFold, NamesLength;
    HeaderCuts(name, value);
    CaseDoesNotMatter(name);
    NoColonNoCut(name);
  }

  lemma NoColonNoCut(s: string)
    requires ':' !in s
    ensures IndexOf(s, ':') == |s|
  {
  }

  // Signed and unsigned numerals, and nothing else, are numbers.
  lemma AtoiExactly(n: int64, s: string)
    requires n >= 0
    ensures Atoi(Decimal(n)) == Atoi("+" + Decimal(n)) == Some(n)
    ensures Atoi("-" + Decimal(n)).Some? && Atoi("-" + Decimal(n)).value == -n
    ensures (if s != "" && s[0] in "+-" then !AllDigits(s[1..]) || |s| == 1 else s == "" || !AllDigits(s)) ==> Atoi(s) == None
  {
    hide Decimal;
    AtoiOfDecimal(n);
    DecimalIsTight(n);
    ValueOfDecimal(n);
    assert ("+" + Decimal(n))[1..] == Decimal(n) && ("-" + Decimal(n))[1..] == Decimal(n);
  }

  // A header line: its text, and whatever white space before the newline.
  datatype Header = Header(text: string, blank: string)

  predicate Writable(h: Header) { Tight(h.text) && '\n' !in h.text && Blank(h.blank) && '\n' !in h.blank }

  function LineOf(h: Header): string { h.text + h.blank + "\n" }

  function LinesOf(hs: seq<Header>): string { if hs == [] then "" else LineOf(hs[0]) + LinesOf(hs[1..]) }

  lemma OneHeaderRead(h: Header, rest: string, length: Option<nat>)
    requires Writable(h)
    ensures ReadHeaders(LineOf(h) + rest, length)
            == match HeaderLength(h.text)
               case Err(e) => (Failed(e), rest)
               case Ok(n) => ReadHeaders(rest, if n.Some? then n else length)
  {
    hide TrimSpace, HeaderLength, Tight, Blank, LineEnd;
    LineSplits(h.text + h.blank, rest);
    TrimsBlanks("", h.text, h.blank + "\n") by { BlankWithNewline(h.blank); }
    assert "" + h.text + (h.blank + "\n") == h.text + h.blank + "\n";
    assert h.text != "" by { TightIsSome(h.text); }
  }

  lemma BlankWithNewline(s: string)
    requires Blank(s)
    ensures Blank(s + "\n") && Blank("")
  {
  }

  lemma TightIsSome(s: string)
    requires Tight(s)
    ensures s != ""
  {
  }

  // The length in force after these headers: the last one given.
  function LastLength(hs: seq<Header>, length: Option<nat>): Option<nat> {
    if hs == [] then length
    else
      var h := HeaderLength(hs[0].text);
      LastLength(hs[1..], if h.Ok? && h.value.Some? then h.value else length)
  }

  lemma {:induction false} HeadersRead(hs: seq<Header>, rest: string, length: Option<nat>)
    requires forall h :: h in hs ==> Writable(h) && HeaderLength(h.text).Ok?
    ensures ReadHeaders(LinesOf(hs) + rest, length) == ReadHeaders(rest, LastLength(hs, length))
    decreases |hs|
  {
    hide ReadHeaders, HeaderLength, Writable, LineOf;
    if hs == [] {
      assert LinesOf(hs) + rest == rest;
    } else {
      assert hs[0] in hs && forall h :: h in hs[1..] ==> h in hs;
      var h := HeaderLength(hs[0].text);
      assert LinesOf(hs) + rest == LineOf(hs[0]) + (LinesOf(hs[1..]) + rest);
      OneHeaderRead(hs[0], LinesOf(hs[1..]) + rest, length);
      HeadersRead(hs[1..], rest, if h.value.Some? then h.value else length);
    }
  }

  // A framed message with any headers, in any order and case: read exactly if
  // the last length among them is that of the body. Without one it is missing.
  lemma AnyHeadersRead(hs: seq<Header>, blank: string, text: string, rest: string)
    requires forall h :: h in hs ==> Writable(h) && HeaderLength(h.text).Ok?
    requires Blank(blank) && '\n' !in blank && StartsHeader(LinesOf(hs))
    ensures var r := ReadMessage(LinesOf(hs) + (blank + "\n" + (text + rest)));
      && (LastLength(hs, None) == Some(|text|) ==> r == (Got(text, true), rest))
      && (LastLength(hs, None) == None ==> r == (Failed(MissingContentLength), text + rest))
      && (LastLength(hs, None).Some? && LastLength(hs, None).value > |text + rest| ==>
            r == (Failed(if text + rest == "" then EndOfInput else UnexpectedEnd), ""))
  {
    hide HeaderLength, Writable, LastLength, LinesOf, TrimSpace, LineEnd, Blank;
    var after := blank + "\n" + (text + rest);
    assert StartsHeader(LinesOf(hs) + after);
    HeadersRead(hs, after, None);
    LineSplits(blank, text + rest);
    TrimsBlanks("", "", blank + "\n") by { BlankWithNewline(blank); }
    assert "" + "" + (blank + "\n") == blank + "\n";
    assert (text + rest)[..|text|] == text && (text + rest)[|text|..] == rest;
  }

  // A header only ever yields a framed message, and a message is never read
  // from nothing.
  lemma {:induction false} HeadersConsume(input: string, length: Option<nat>)
    ensures var r := ReadHeaders(input, length); r.0.Got? ==> r.0.framed && |r.1| < |input|
    decreases |input|
  {
    hide LineEnd, TrimSpace, HeaderLength;
    var n := LineEnd(input);
    LineEndBounds(input);
    if n > 0 && input[n - 1] == '\n' && TrimSpace(input[..n]) != "" {
      var h := HeaderLength(TrimSpace(input[..n]));
      if h.Ok? { HeadersConsume(input[n..], if h.value.Some? then h.value else length); }
    }
  }

  lemma LineEndBounds(input: string)
    ensures LineEnd(input) <= |input| && (input != "" ==> LineEnd(input) > 0)
  {
  }

  lemma MessageConsumes(input: string)
    ensures var r := ReadMessage(input); r.0.Got? ==> |r.1| < |input|
  {
    hide ReadHeaders, LineEnd;
    HeadersConsume(input, None);
    LineEndBounds(input);
  }

  function WrittenAll(bs: seq<Body>): string { if bs == [] then "" else Written(bs[0]) + WrittenAll(bs[1..]) }

  // Repeated reading, up to the first error.
  function ReadAll(input: string): seq<Read>
    decreases |input|
  {
    var (r, rest) := ReadMessage(input);
    if r.Failed? then [r] else MessageConsumes(input); [r] + ReadAll(rest)
  }

  function DeliveredAll(bs: seq<Body>): seq<Read> {
    if bs == [] then [Failed(EndOfInput)] else [Delivered(bs[0])] + DeliveredAll(bs[1..])
  }

  // Any mix of framed and line messages written one after another is read back
  // as the same messages in the same framing, and then the end of input, if
  // and only if every one of them is sendable.
  lemma {:induction false} StreamsReadBackExactly(bs: seq<Body>)
    ensures ReadAll(WrittenAll(bs)) == DeliveredAll(bs) <==> forall b :: b in bs ==> Sendable(b)
  {
    hide ReadMessage, Written, Sendable, Delivered;
    if bs == [] {
      NothingToRead();
    } else {
      var rest := WrittenAll(bs[1..]);
      ReadsBackExactly(bs[0], rest);
      StreamsReadBackExactly(bs[1..]);
      assert bs == [bs[0]] + bs[1..];
      var r := ReadMessage(Written(bs[0]) + rest).0;
      assert ReadAll(WrittenAll(bs))[0] == r && DeliveredAll(bs)[0] == Delivered(bs[0]);
      if Sendable(bs[0]) {
        DeliveredIsNoFailure(bs[0]);
        assert ReadAll(WrittenAll(bs))[1..] == ReadAll(rest) && DeliveredAll(bs)[1..] == DeliveredAll(bs[1..]);
      }
    }
  }

  lemma NothingToRead()
    ensures ReadAll("") == [Failed(EndOfInput)]
  {
  }

  lemma DeliveredIsNoFailure(b: Body)
    ensures Delivered(b).Got?
  {
  }
}
