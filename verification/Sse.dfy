// The strict server-sent-event framer (internal/base/sse/sse.go): a variant of section 9.2.6 of the
// WHATWG HTML Living Standard that dispatches blocks with empty data, keeps ids per block, discards
// an unterminated trailing block, and caps the bytes since the last dispatched frame.
//
// Text is a sequence of characters standing for bytes.
module Sse {
  import opened Common
  import opened Text

  datatype Frame = Frame(id: string, event: string, data: string)

  // ---------------------------------------------------------------- lines to frames

  // What the lines of an unfinished block have said so far.
  datatype Block = Block(event: string, dataLines: seq<string>, id: string, sawField: bool)

  const Empty := Block("message", [], "", false)

  predicate IsComment(line: string) { line != "" && line[0] == ':' }

  // A non-blank line: a comment changes nothing, any other line is a field, known or not.
  function Field(b: Block, line: string): Block {
    if IsComment(line) then b
    else
      var parts := Cut(line, ':');
      var name := if parts.Some? then parts.value.0 else line;
      var value := if parts.Some? then TrimPrefix(parts.value.1, " ") else "";
      var b := b.(sawField := true);
      if name == "event" then b.(event := value)
      else if name == "data" then b.(dataLines := b.dataLines + [value])
      else if name == "id" then b.(id := value)
      else b
  }

  function FrameOf(b: Block): Frame { Frame(b.id, b.event, Join(b.dataLines, '\n')) }

  // A blank line dispatches a block in which any field was seen.
  predicate Dispatches(b: Block, line: string) { line == "" && b.sawField }

  function Emitted(b: Block, line: string): seq<Frame> {
    if Dispatches(b, line) then [FrameOf(b)] else []
  }

  function Step(b: Block, line: string): Block {
    if Dispatches(b, line) then Empty else if line == "" then b else Field(b, line)
  }

  // The reference reading of a stream as its lines, with no limit on their size.
  function FramesOfLines(b: Block, lines: seq<string>): seq<Frame>
    decreases |lines|
  {
    if lines == [] then [] else Emitted(b, lines[0]) + FramesOfLines(Step(b, lines[0]), lines[1..])
  }

  // ---------------------------------------------------------------- bytes to frames

  // Where the first line ends: the index of its LF, or the end of the stream.
  function LineEnd(s: string): (k: nat)
    ensures k <= |s| && '\n' !in s[..k] && (k < |s| ==> s[k] == '\n')
  {
    if s == "" || s[0] == '\n' then 0 else 1 + LineEnd(s[1..])
  }

  // The bytes that count against the cap after a line: none once a frame is dispatched.
  function Used(b: Block, line: string, bytes: nat): nat {
    if Dispatches(b, line) then 0 else bytes
  }

  // Frames dispatched, and whether the stream died of its size.
  datatype Parsed = Parsed(frames: seq<Frame>, tooBig: bool)

  // The framer from any point: `b` is the block so far and `used` the bytes since the last frame.
  function Parse(s: string, cap: nat, b: Block, used: nat): Parsed
    decreases |s|
  {
    var k := LineEnd(s);
    if k > cap then Parsed([], true)                       // one line is too long
    else if k == |s| then Parsed([], used + k > cap)       // whatever is left is discarded
    else if used + k + 1 > cap then Parsed([], true)
    else
      var line := TrimLast(s[..k], '\r');
      var p := Parse(s[k + 1..], cap, Step(b, line), Used(b, line, used + k + 1));
      p.(frames := Emitted(b, line) + p.frames)
  }

  // ---------------------------------------------------------------- truncation

  lemma {:induction false} LineEndOfPrefix(s: string, k: nat)
    requires k <= |s|
    ensures LineEnd(s[..k]) == Min(LineEnd(s), k)
  {
    if s != "" && k > 0 && s[0] != '\n' {
      assert s[..k][1..] == s[1..][..k - 1];
      LineEndOfPrefix(s[1..], k - 1);
    }
  }

  // Parse, at a line that is complete in the stream.
  lemma ParseComplete(s: string, pos: nat, cap: nat, b: Block, used: nat)
    requires pos <= |s| && pos + LineEnd(s[pos..]) < |s| && used + LineEnd(s[pos..]) + 1 <= cap
    ensures var k := LineEnd(s[pos..]); var text := TrimLast(s[pos..pos + k], '\r');
      var p := Parse(s[pos + k + 1..], cap, Step(b, text), Used(b, text, used + k + 1));
      Parse(s[pos..], cap, b, used) == p.(frames := Emitted(b, text) + p.frames)
  {
    hide LineEnd, TrimLast, Step, Used, Emitted;
    var k := LineEnd(s[pos..]);
    assert s[pos..][..k] == s[pos..pos + k];
    assert s[pos..][k + 1..] == s[pos + k + 1..];
  }

  // Parse, at a line that is too long, or unterminated, or too much for its frame.
  lemma ParseLast(s: string, cap: nat, b: Block, used: nat)
    ensures var k := LineEnd(s);
      && (k > cap || used + k > cap || (k < |s| && used + k + 1 > cap) ==> Parse(s, cap, b, used) == Parsed([], true))
      && (k == |s| && used + k <= cap ==> Parse(s, cap, b, used) == Parsed([], false))
  {
  }

  // However a stream is cut, the frames of what arrived are the first frames of the whole stream: no
  // partial frame is dispatched, and no id is seen before its block is complete.
  lemma {:induction false} TruncationSafe(s: string, k: nat, cap: nat, b: Block, used: nat)
    requires k <= |s|
    ensures Parse(s[..k], cap, b, used).frames <= Parse(s, cap, b, used).frames
    decreases |s|
  {
    hide LineEnd, TrimLast, Step, Used, Emitted, Parse;
    var e := LineEnd(s);
    LineEndOfPrefix(s, k);
    if e < k && e <= cap && used + e + 1 <= cap {
      ParseComplete(s, 0, cap, b, used);
      ParseComplete(s[..k], 0, cap, b, used);
      assert s[0..] == s && s[..k][0..] == s[..k];
      assert s[..k][0..e] == s[0..e];
      assert s[..k][e + 1..] == s[e + 1..][..k - e - 1];
      var line := TrimLast(s[0..e], '\r');
      TruncationSafe(s[e + 1..], k - e - 1, cap, Step(b, line), Used(b, line, used + e + 1));
    } else {
      ParseLast(s[..k], cap, b, used);
    }
  }

  // ---------------------------------------------------------------- lines on the wire

  // A line as sent, ended by LF or by CRLF.
  datatype WireLine = WireLine(text: string, crlf: bool)

  function Bytes(l: WireLine): string { l.text + if l.crlf then "\r\n" else "\n" }

  function Wire(lines: seq<WireLine>): string {
    if lines == [] then "" else Bytes(lines[0]) + Wire(lines[1..])
  }

  function Texts(lines: seq<WireLine>): seq<string> {
    if lines == [] then [] else [lines[0].text] + Texts(lines[1..])
  }

  // A text that survives being sent as one line.
  predicate Clean(text: string) { '\n' !in text && (text == "" || text[|text|-1] != '\r') }

  predicate AllClean(lines: seq<WireLine>) { forall i | 0 <= i < |lines| :: Clean(lines[i].text) }

  // The bytes since the last dispatched frame, comments included, stay within the cap.
  predicate Fits(lines: seq<WireLine>, cap: nat, b: Block, used: nat)
    decreases |lines|
  {
    used <= cap &&
    (lines == [] ||
     var more := used + |Bytes(lines[0])|;
     more <= cap && Fits(lines[1..], cap, Step(b, lines[0].text), Used(b, lines[0].text, more)))
  }

  lemma {:induction false} LineEndAt(a: string, rest: string)
    requires '\n' !in a
    ensures LineEnd(a + "\n" + rest) == |a|
  {
    if a != "" {
      assert (a + "\n" + rest)[1..] == a[1..] + "\n" + rest;
      LineEndAt(a[1..], rest);
    }
  }

  // The first line of a wire, read back.
  lemma FirstLine(l: WireLine, rest: string)
    requires Clean(l.text)
    ensures var s := Bytes(l) + rest; var k := LineEnd(s);
      && k + 1 == |Bytes(l)| && k < |s|
      && TrimLast(s[..k], '\r') == l.text && s[k + 1..] == rest
  {
    var a := if l.crlf then l.text + "\r" else l.text;
    assert Bytes(l) + rest == a + "\n" + rest;
    LineEndAt(a, rest);
    assert (a + "\n" + rest)[..|a|] == a;
    assert (a + "\n" + rest)[|a| + 1..] == rest;
    if l.crlf { assert a[..|a|-1] == l.text; }
  }

  lemma EmptyStream(cap: nat, b: Block, used: nat)
    ensures Parse("", cap, b, used) == Parsed([], used > cap)
  {
  }

  // How the framer takes one whole line.
  lemma ParseLine(l: WireLine, rest: string, cap: nat, b: Block, used: nat)
    requires Clean(l.text)
    ensures Parse(Bytes(l) + rest, cap, b, used) ==
      var more := used + |Bytes(l)|;
      if more > cap then Parsed([], true)
      else
        var p := Parse(rest, cap, Step(b, l.text), Used(b, l.text, more));
        p.(frames := Emitted(b, l.text) + p.frames)
  {
    hide LineEnd, TrimLast, Step, Used, Emitted, Bytes;
    FirstLine(l, rest);
  }

  // Reading a wire gives the frames of its lines, however each line is ended: all of them if the cap
  // is respected, the first of them otherwise.
  lemma {:induction false} WireMeans(lines: seq<WireLine>, cap: nat, b: Block, used: nat)
    requires AllClean(lines)
    ensures Parse(Wire(lines), cap, b, used).frames <= FramesOfLines(b, Texts(lines))
    ensures Fits(lines, cap, b, used) ==>
      Parse(Wire(lines), cap, b, used) == Parsed(FramesOfLines(b, Texts(lines)), false)
    decreases |lines|
  {
    hide Parse, Step, Used, Emitted, Bytes;
    if lines == [] {
      EmptyStream(cap, b, used);
    } else {
      var l, rest := lines[0], lines[1..];
      ParseLine(l, Wire(rest), cap, b, used);
      assert Texts(lines)[1..] == Texts(rest);
      WireMeans(rest, cap, Step(b, l.text), Used(b, l.text, used + |Bytes(l)|));
    }
  }

  // ---------------------------------------------------------------- comments

  function WithoutComments(lines: seq<string>): seq<string> {
    if lines == [] then []
    else if IsComment(lines[0]) then WithoutComments(lines[1..])
    else [lines[0]] + WithoutComments(lines[1..])
  }

  lemma {:induction false} CommentsIgnored(b: Block, lines: seq<string>)
    ensures FramesOfLines(b, lines) == FramesOfLines(b, WithoutComments(lines))
    decreases |lines|
  {
    if lines != [] {
      var rest := lines[1..];
      CommentsIgnored(Step(b, lines[0]), rest);
      if !IsComment(lines[0]) { assert WithoutComments(lines)[1..] == WithoutComments(rest); }
    }
  }

  lemma KeepaliveStep(text: string, bytes: nat)
    requires text == "" || IsComment(text)
    ensures Step(Empty, text) == Empty && Emitted(Empty, text) == [] && Used(Empty, text, bytes) == bytes
  {
  }

  // Keepalives alone use the cap up: a stream of comments and blank lines never dispatches, and dies
  // exactly when its bytes pass the cap.
  lemma {:induction false} KeepalivesCount(lines: seq<WireLine>, cap: nat, used: nat)
    requires AllClean(lines) && used <= cap
    requires forall i | 0 <= i < |lines| :: lines[i].text == "" || IsComment(lines[i].text)
    ensures Parse(Wire(lines), cap, Empty, used) == Parsed([], used + |Wire(lines)| > cap)
    decreases |lines|
  {
    hide Parse, Step, Used, Emitted, Bytes, Clean, IsComment;
    if lines == [] {
      EmptyStream(cap, Empty, used);
    } else {
      ParseLine(lines[0], Wire(lines[1..]), cap, Empty, used);
      KeepaliveStep(lines[0].text, used + |Bytes(lines[0])|);
      if used + |Bytes(lines[0])| <= cap {
        KeepalivesCount(lines[1..], cap, used + |Bytes(lines[0])|);
      }
    }
  }

  // ---------------------------------------------------------------- printing frames

  function DataLines(parts: seq<string>): seq<string> {
    if parts == [] then [] else ["data: " + parts[0]] + DataLines(parts[1..])
  }

  // A frame as a server sends it: its id and event if it has them, its data line by line, a blank line.
  function FrameLines(f: Frame): seq<string> {
    (if f.id != "" then ["id: " + f.id] else [])
    + (if f.event != "message" then ["event: " + f.event] else [])
    + DataLines(Split(f.data, '\n')) + [""]
  }

  function AllLines(frames: seq<Frame>): seq<string> {
    if frames == [] then [] else FrameLines(frames[0]) + AllLines(frames[1..])
  }

  lemma FieldLine(b: Block, name: string, value: string)
    requires name != "" && ':' !in name
    ensures name + ": " + value != ""
    ensures Field(b, name + ": " + value) ==
      var b := b.(sawField := true);
      if name == "event" then b.(event := value)
      else if name == "data" then b.(dataLines := b.dataLines + [value])
      else if name == "id" then b.(id := value) else b
  {
    assert name + ": " + value == name + [':'] + (" " + value);
    CutAt(name, ':', " " + value);
    assert (" " + value)[1..] == value;
  }

  lemma {:induction false} ReadData(b: Block, parts: seq<string>, rest: seq<string>)
    ensures FramesOfLines(b, DataLines(parts) + rest) ==
      FramesOfLines(b.(dataLines := b.dataLines + parts, sawField := b.sawField || parts != []), rest)
    decreases |parts|
  {
    hide Field;
    if parts == [] {
      assert DataLines(parts) + rest == rest;
      assert b.dataLines + parts == b.dataLines;
    } else {
      assert "data" + ": " + parts[0] == "data: " + parts[0];
      FieldLine(b, "data", parts[0]);
      assert (DataLines(parts) + rest)[1..] == DataLines(parts[1..]) + rest;
      ReadData(Field(b, "data: " + parts[0]), parts[1..], rest);
      assert b.dataLines + [parts[0]] + parts[1..] == b.dataLines + parts;
    }
  }

  lemma ReadField(b: Block, name: string, value: string, rest: seq<string>)
    requires name != "" && ':' !in name
    ensures FramesOfLines(b, [name + ": " + value] + rest) == FramesOfLines(Field(b, name + ": " + value), rest)
  {
    hide Field;
    FieldLine(b, name, value);
    assert ([name + ": " + value] + rest)[1..] == rest;
  }

  lemma ReadBlank(b: Block, rest: seq<string>)
    requires b.sawField
    ensures FramesOfLines(b, [""] + rest) == [FrameOf(b)] + FramesOfLines(Empty, rest)
  {
    assert ([""] + rest)[1..] == rest;
  }

  lemma ReadFrame(f: Frame, rest: seq<string>)
    ensures FramesOfLines(Empty, FrameLines(f) + rest) == [f] + FramesOfLines(Empty, rest)
  {
    hide Field, FramesOfLines, Split, Join;
    var parts := Split(f.data, '\n');
    JoinSplit(f.data, '\n');
    var tail := [""] + rest;
    var withData := DataLines(parts) + tail;
    var withEvent := (if f.event != "message" then ["event: " + f.event] else []) + withData;
    var b1 := Empty.(id := f.id, sawField := f.id != "");
    var b2 := b1.(event := f.event, sawField := f.id != "" || f.event != "message");
    assert FrameLines(f) + rest == (if f.id != "" then ["id: " + f.id] else []) + withEvent;
    if f.id != "" {
      assert "id" + ": " + f.id == "id: " + f.id;
      FieldLine(Empty, "id", f.id);
      ReadField(Empty, "id", f.id, withEvent);
    } else {
      assert FrameLines(f) + rest == withEvent;
    }
    if f.event != "message" {
      assert "event" + ": " + f.event == "event: " + f.event;
      FieldLine(b1, "event", f.event);
      ReadField(b1, "event", f.event, withData);
    } else {
      assert withEvent == withData;
    }
    ReadData(b2, parts, tail);
    assert b2.dataLines + parts == parts;
    ReadBlank(b2.(dataLines := parts, sawField := true), rest);
  }

  lemma {:induction false} ReadAll(frames: seq<Frame>)
    ensures FramesOfLines(Empty, AllLines(frames)) == frames
  {
    if frames != [] {
      ReadFrame(frames[0], AllLines(frames[1..]));
      ReadAll(frames[1..]);
    }
  }

  // Frames that can be sent at all: no part of one holds a line break or ends in CR.
  predicate CleanFrame(f: Frame) {
    && Clean(f.id) && Clean(f.event)
    && forall i | 0 <= i < |Split(f.data, '\n')| :: Clean(Split(f.data, '\n')[i])
  }

  // The plain way to send lines: each ended by LF.
  function Plain(lines: seq<string>): seq<WireLine> {
    if lines == [] then [] else [WireLine(lines[0], false)] + Plain(lines[1..])
  }

  lemma {:induction false} PlainTexts(lines: seq<string>)
    requires forall i | 0 <= i < |lines| :: Clean(lines[i]) && !IsComment(lines[i])
    ensures AllClean(Plain(lines)) && WithoutComments(Texts(Plain(lines))) == lines
  {
    if lines != [] {
      PlainTexts(lines[1..]);
      assert Plain(lines)[1..] == Plain(lines[1..]);
      assert Texts(Plain(lines))[1..] == Texts(Plain(lines[1..]));
    }
  }

  lemma {:induction false} DataLinesClean(parts: seq<string>)
    requires forall i | 0 <= i < |parts| :: Clean(parts[i])
    ensures forall i | 0 <= i < |DataLines(parts)| :: Clean(DataLines(parts)[i]) && !IsComment(DataLines(parts)[i])
  {
    if parts != [] { DataLinesClean(parts[1..]); }
  }

  lemma FrameLinesClean(f: Frame)
    requires CleanFrame(f)
    ensures forall i | 0 <= i < |FrameLines(f)| :: Clean(FrameLines(f)[i]) && !IsComment(FrameLines(f)[i])
  {
    hide DataLines, Split;
    DataLinesClean(Split(f.data, '\n'));
  }

  lemma {:induction false} AllLinesClean(frames: seq<Frame>)
    requires forall i | 0 <= i < |frames| :: CleanFrame(frames[i])
    ensures forall i | 0 <= i < |AllLines(frames)| :: Clean(AllLines(frames)[i]) && !IsComment(AllLines(frames)[i])
  {
    hide FrameLines, Clean, IsComment, CleanFrame;
    if frames != [] {
      FrameLinesClean(frames[0]);
      AllLinesClean(frames[1..]);
    }
  }

  // Parsing undoes printing, for every list of frames that can be sent.
  lemma PrintParse(frames: seq<Frame>, cap: nat)
    requires forall i | 0 <= i < |frames| :: CleanFrame(frames[i])
    requires Fits(Plain(AllLines(frames)), cap, Empty, 0)
    ensures Parse(Wire(Plain(AllLines(frames))), cap, Empty, 0) == Parsed(frames, false)
  {
    AllLinesClean(frames);
    PlainTexts(AllLines(frames));
    RoundTrip(frames, Plain(AllLines(frames)), cap);
  }

  // Any frames, printed, come back: with LF or CRLF at each line, with comments between any lines, for
  // as long as the bytes between frames stay within the cap.
  lemma RoundTrip(frames: seq<Frame>, lines: seq<WireLine>, cap: nat)
    requires AllClean(lines) && WithoutComments(Texts(lines)) == AllLines(frames) && Fits(lines, cap, Empty, 0)
    ensures Parse(Wire(lines), cap, Empty, 0) == Parsed(frames, false)
  {
    WireMeans(lines, cap, Empty, 0);
    CommentsIgnored(Empty, Texts(lines));
    ReadAll(frames);
  }

  // Lines cut anywhere, under any cap, give the first of their frames.
  lemma CutMeans(lines: seq<WireLine>, cap: nat, k: nat)
    requires AllClean(lines) && k <= |Wire(lines)|
    ensures Parse(Wire(lines)[..k], cap, Empty, 0).frames <= FramesOfLines(Empty, Texts(lines))
  {
    TruncationSafe(Wire(lines), k, cap, Empty, 0);
    WireMeans(lines, cap, Empty, 0);
  }

  // And cut anywhere, under any cap, the frames that come are the first ones sent.
  lemma CutRoundTrip(frames: seq<Frame>, lines: seq<WireLine>, cap: nat, k: nat)
    requires AllClean(lines) && WithoutComments(Texts(lines)) == AllLines(frames) && k <= |Wire(lines)|
    ensures Parse(Wire(lines)[..k], cap, Empty, 0).frames <= frames
  {
    CutMeans(lines, cap, k);
    CommentsIgnored(Empty, Texts(lines));
    ReadAll(frames);
  }

  // ---------------------------------------------------------------- the framer's loops

  datatype LineStatus = Complete | Ended | TooLong

  lemma LineEndStep(s: string)
    requires s != ""
    ensures LineEnd(s) == if s[0] == '\n' then 0 else 1 + LineEnd(s[1..])
  {
  }

  // readLine: through the next LF, to the end of the stream, or until it is longer than `most`.
  method ReadLine(s: string, pos: nat, most: nat) returns (line: string, status: LineStatus, next: nat)
    requires pos <= |s|
    ensures pos <= next <= |s| && line == s[pos..next]
    ensures var k := LineEnd(s[pos..]);
      && (status.TooLong? <==> k > most)
      && (status.Ended? <==> k <= most && pos + k == |s|)
      && (status.Complete? ==> line == s[pos..pos + k] + "\n")
      && (status.Ended? ==> line == s[pos..])
  {
    hide LineEnd;
    line, next := "", pos;
    while next < |s|
      invariant pos <= next <= |s| && line == s[pos..next] && |line| <= most
      invariant LineEnd(s[pos..]) == next - pos + LineEnd(s[next..])
    {
      var c := s[next];
      LineEndStep(s[next..]);
      assert s[next..][1..] == s[next + 1..];
      line, next := line + [c], next + 1;
      if c == '\n' { return line, Complete, next; }
      if |line| > most { return line, TooLong, next; }
    }
    status := Ended;
  }

  // One field line of the block being read.
  method TakeField(text: string, event: string, dataLines: seq<string>, id: string, ghost sawField: bool)
    returns (event': string, dataLines': seq<string>, id': string)
    requires text != "" && !IsComment(text)
    ensures Block(event', dataLines', id', true) == Field(Block(event, dataLines, id, sawField), text)
  {
    event', dataLines', id' := event, dataLines, id;
    var parts := Cut(text, ':');
    var name, value := text, "";
    if parts.Some? { name, value := parts.value.0, TrimPrefix(parts.value.1, " "); }
    if name == "event" { event' := value; }
    else if name == "data" { dataLines' := dataLines + [value]; }
    else if name == "id" { id' := value; }
  }

  // framesWithCap over the whole of a stream that arrived: what it dispatched, and whether it gave up
  // on its size.
  method FramesWithCap(s: string, cap: nat) returns (frames: seq<Frame>, tooBig: bool)
    ensures Parsed(frames, tooBig) == Parse(s, cap, Empty, 0)
  {
    hide Parse, LineEnd, Field, TrimLast, Step, Used, Emitted, Join;
    frames, tooBig := [], false;
    var pos: nat, frameBytes: nat := 0, 0;
    var event, dataLines, id, sawField := "message", [], "", false;
    assert s[0..] == s;
    while true
      invariant pos <= |s|
      invariant var p := Parse(s[pos..], cap, Block(event, dataLines, id, sawField), frameBytes);
        Parse(s, cap, Empty, 0) == Parsed(frames + p.frames, p.tooBig)
      decreases |s| - pos
    {
      ghost var b, used := Block(event, dataLines, id, sawField), frameBytes;
      ghost var k := LineEnd(s[pos..]);
      var line, status, next := ReadLine(s, pos, cap);
      ParseLast(s[pos..], cap, b, used);
      if status.TooLong? { return frames, true; }
      frameBytes := frameBytes + |line|;
      if frameBytes > cap { return frames, true; }
      if status.Ended? { return frames, false; }      // what is left is an unterminated block
      ParseComplete(s, pos, cap, b, used);
      var text := TrimLast(TrimLast(line, '\n'), '\r');
      StripLf(s[pos..pos + k]);
      StepCases(b, text, used + k + 1);
      pos := next;
      if text == "" {
        if sawField {
          frames := frames + [Frame(id, event, Join(dataLines, '\n'))];
          event, dataLines, id, sawField, frameBytes := "message", [], "", false, 0;
        }
      } else if text[0] != ':' {
        event, dataLines, id := TakeField(text, event, dataLines, id, sawField);
        sawField := true;
      } else {
        CommentLine(b, text);
      }
    }
  }

  lemma StripLf(a: string)
    ensures TrimLast(a + "\n", '\n') == a
  {
  }

  lemma StepCases(b: Block, text: string, bytes: nat)
    ensures Step(b, text) == if text != "" then Field(b, text) else if b.sawField then Empty else b
    ensures Emitted(b, text) == if text == "" && b.sawField then [Frame(b.id, b.event, Join(b.dataLines, '\n'))] else []
    ensures Used(b, text, bytes) == if text == "" && b.sawField then 0 else bytes
  {
  }

  lemma CommentLine(b: Block, text: string)
    requires IsComment(text)
    ensures Field(b, text) == b
  {
  }
}
