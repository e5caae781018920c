/**
 The incremental reader of Server-Sent Events.

 `EventReader` keeps a byte buffer, a scan cursor, the pending data lines and a first-line flag, and
 is fed one chunk at a time.  `Reference` is the whole-stream reading of sections 9.2.5 and 9.2.6 of
 the WHATWG HTML Living Standard, written as a byte automaton.  `IterSseData` shows that the reader
 delivers exactly the reference payloads, however the stream was cut into chunks.
 */
module Sse {
  import opened Options

  newtype byte = x: int | 0 <= x < 256

  type Bytes = seq<byte>

  const LF: byte := 0x0A
  const CR: byte := 0x0D
  const SPACE: byte := 0x20
  const COLON: byte := 0x3A
  const BOM: Bytes := [0xEF, 0xBB, 0xBF]
  const DATA: Bytes := [0x64, 0x61, 0x74, 0x61]

  predicate IsBreak(b: byte) {
    b == LF || b == CR
  }

  /** The first `k` bytes of `s` hold no line break. */
  predicate NoBreak(s: Bytes, k: nat)
    requires k <= |s|
  {
    forall i :: 0 <= i < k ==> !IsBreak(s[i])
  }

  function Concat(chunks: seq<Bytes>): Bytes {
    if chunks == [] then [] else chunks[0] + Concat(chunks[1..])
  }

  // ----- the reference reading of a whole stream

  /** The terminated lines of `s`, where `line` is the line read so far and `afterCR` says that the
      byte before `s` was a CR, so that a LF in front only completes a CR LF pair. */
  ghost function TerminatedLines(s: Bytes, line: Bytes, afterCR: bool): seq<Bytes> {
    if s == [] then []
    else if s[0] == LF && afterCR then TerminatedLines(s[1..], line, false)
    else if IsBreak(s[0]) then [line] + TerminatedLines(s[1..], [], s[0] == CR)
    else TerminatedLines(s[1..], line + [s[0]], false)
  }

  /** The position of the first colon, or the length of the line. */
  function ColonAt(line: Bytes): (k: nat)
    ensures k <= |line| && (k < |line| ==> line[k] == COLON)
    ensures forall i :: 0 <= i < k ==> line[i] != COLON
  {
    if line == [] || line[0] == COLON then 0 else 1 + ColonAt(line[1..])
  }

  function FieldName(line: Bytes): Bytes {
    line[..ColonAt(line)]
  }

  function FieldValue(line: Bytes): Bytes {
    var k := ColonAt(line);
    if k == |line| then []
    else if k + 1 < |line| && line[k + 1] == SPACE then line[k + 2..]
    else line[k + 1..]
  }

  /** The payloads dispatched by `lines`.  The data buffer is a byte string in which every data line is
      followed by a LF; a blank line dispatches a non-empty buffer without its last LF. */
  ghost function Dispatch(lines: seq<Bytes>, dataBuffer: Bytes): seq<Bytes> {
    if lines == [] then []
    else if lines[0] == [] then
      if dataBuffer == [] then Dispatch(lines[1..], [])
      else [dataBuffer[..|dataBuffer| - 1]] + Dispatch(lines[1..], [])
    else if lines[0][0] != COLON && FieldName(lines[0]) == DATA then
      Dispatch(lines[1..], dataBuffer + FieldValue(lines[0]) + [LF])
    else Dispatch(lines[1..], dataBuffer)
  }

  function WithoutBom(s: Bytes): Bytes {
    if BOM <= s then s[3..] else s
  }

  ghost function Reference(stream: Bytes): seq<Bytes> {
    Dispatch(TerminatedLines(WithoutBom(stream), [], false), [])
  }

  // ----- what one call of the line popper does to a buffer

  function FirstBreak(s: Bytes): (k: nat)
    ensures k <= |s| && NoBreak(s, k) && (k < |s| ==> IsBreak(s[k]))
  {
    if s == [] || IsBreak(s[0]) then 0 else
      var k := 1 + FirstBreak(s[1..]);
      assert forall i :: 0 < i < k ==> s[i] == s[1..][i - 1];
      k
  }

  datatype Cut = NoLine | Line(text: Bytes, size: nat)

  /** The next line in `s` and the number of bytes it takes up with its terminator; a trailing CR is
      left alone until the next byte or the end of the stream shows whether a LF belongs to it. */
  function NextLine(s: Bytes, eof: bool): (r: Cut)
    ensures r.Line? ==> 0 < r.size <= |s|
  {
    var k := FirstBreak(s);
    if k < |s| then
      if s[k] == LF then Line(s[..k], k + 1)
      else if k + 1 == |s| && !eof then NoLine
      else if k + 1 < |s| && s[k + 1] == LF then Line(s[..k], k + 2)
      else Line(s[..k], k + 1)
    else if eof && s != [] then Line(s, |s|)
    else NoLine
  }

  /** Popping `lines` one after the other leads from the buffer `s` to the buffer `rest`. */
  ghost predicate Pops(s: Bytes, eof: bool, lines: seq<Bytes>, rest: Bytes)
    decreases lines
  {
    if lines == [] then s == rest
    else
      var cut := NextLine(s, eof);
      cut.Line? && cut.text == lines[0] && Pops(s[cut.size..], eof, lines[1..], rest)
  }

  /** What the reader remembers between lines. */
  datatype Pending = Pending(first: bool, dataLines: seq<Bytes>)

  function JoinLines(lines: seq<Bytes>): Bytes {
    if lines == [] then []
    else if |lines| == 1 then lines[0]
    else lines[0] + [LF] + JoinLines(lines[1..])
  }

  function Stripped(line: Bytes, first: bool): Bytes {
    if first then WithoutBom(line) else line
  }

  function AfterLine(p: Pending, line: Bytes): Pending {
    var l := Stripped(line, p.first);
    if l == [] then Pending(false, [])
    else if l[0] == COLON || FieldName(l) != DATA then Pending(false, p.dataLines)
    else Pending(false, p.dataLines + [FieldValue(l)])
  }

  function Emitted(p: Pending, line: Bytes): seq<Bytes> {
    if Stripped(line, p.first) == [] && p.dataLines != [] then [JoinLines(p.dataLines)] else []
  }

  ghost function AfterLines(p: Pending, lines: seq<Bytes>): Pending
    decreases lines
  {
    if lines == [] then p else AfterLines(AfterLine(p, lines[0]), lines[1..])
  }

  ghost function Payloads(p: Pending, lines: seq<Bytes>): seq<Bytes>
    decreases lines
  {
    if lines == [] then [] else Emitted(p, lines[0]) + Payloads(AfterLine(p, lines[0]), lines[1..])
  }

  // ----- the reader

  class EventReader {
    var buffer: Bytes
    var dataLines: seq<Bytes>
    var firstLine: bool
    var scanFrom: nat

    /** No line break hides before the cursor. */
    ghost predicate Valid()
      reads this
    {
      scanFrom <= |buffer| && NoBreak(buffer, scanFrom)
    }

    ghost function Memory(): Pending
      reads this
    {
      Pending(firstLine, dataLines)
    }

    constructor ()
      ensures Valid() && buffer == [] && Memory() == Pending(true, [])
    {
      buffer := [];
      dataLines := [];
      firstLine := true;
      scanFrom := 0;
    }

    /** The search of the regular expression `[\r\n]` from the cursor. */
    method Search() returns (index: nat)
      requires Valid()
      ensures index == FirstBreak(buffer)
    {
      index := scanFrom;
      while index < |buffer| && !IsBreak(buffer[index])
        invariant scanFrom <= index <= |buffer|
        invariant NoBreak(buffer, index)
      {
        index := index + 1;
      }
      FirstBreakIs(buffer, index);
    }

    /** Pops one framed line off the front of the buffer. */
    method PopLine(eof: bool) returns (line: Option<Bytes>)
      requires Valid()
      modifies this`buffer, this`scanFrom
      ensures Valid()
      ensures var cut := NextLine(old(buffer), eof);
              if cut.NoLine? then line == None && buffer == old(buffer)
              else line == Some(cut.text) && buffer == old(buffer)[cut.size..]
      ensures scanFrom == if line.None? then FirstBreak(buffer) else 0
    {
      var index := Search();
      if index < |buffer| {
        if buffer[index] == LF {
          line := Some(buffer[..index]);
          buffer := buffer[index + 1..];
          scanFrom := 0;
          return;
        }
        if index + 1 == |buffer| && !eof {
          scanFrom := index;
          return None;
        }
        var terminatorBytes := if index + 1 < |buffer| && buffer[index + 1] == LF then 2 else 1;
        line := Some(buffer[..index]);
        buffer := buffer[index + terminatorBytes..];
        scanFrom := 0;
        return;
      }
      if eof && buffer != [] {
        line := Some(buffer);
        buffer := [];
        scanFrom := 0;
        return;
      }
      scanFrom := |buffer|;
      return None;
    }

    /** `buffer.extend(chunk)`. */
    method Extend(chunk: Bytes)
      requires Valid()
      modifies this`buffer
      ensures Valid() && buffer == old(buffer) + chunk
    {
      buffer := buffer + chunk;
    }

    /** Interprets one line: the body of the consuming loop. */
    method TakeLine(raw: Bytes) returns (out: seq<Bytes>)
      modifies this`dataLines, this`firstLine
      ensures Memory() == AfterLine(old(Memory()), raw)
      ensures out == Emitted(old(Memory()), raw)
    {
      out := [];
      var line := raw;
      if firstLine {
        line := WithoutBom(line);
        firstLine := false;
      }
      if line == [] {
        if dataLines != [] {
          out := [JoinLines(dataLines)];
          dataLines := [];
        }
        return;
      }
      if line[0] == COLON {
        return;
      }
      if FieldName(line) == DATA {
        dataLines := dataLines + [FieldValue(line)];
      }
    }

    /** Drains every line the buffer can yield now. */
    method Consume(eof: bool) returns (out: seq<Bytes>, ghost lines: seq<Bytes>)
      requires Valid()
      modifies this
      ensures Valid()
      ensures Pops(old(buffer), eof, lines, buffer) && NextLine(buffer, eof).NoLine?
      ensures Memory() == AfterLines(old(Memory()), lines)
      ensures out == Payloads(old(Memory()), lines)
    {
      out, lines := [], [];
      while true
        invariant Valid()
        invariant Pops(old(buffer), eof, lines, buffer)
        invariant Memory() == AfterLines(old(Memory()), lines)
        invariant out == Payloads(old(Memory()), lines)
        decreases |buffer|
      {
        ghost var rest := buffer;
        var line := PopLine(eof);
        if line == None {
          return;
        }
        PopsOneMore(old(buffer), eof, lines, rest);
        var data := TakeLine(line.value);
        DeliverOne(old(Memory()), lines, line.value);
        out := out + data;
        lines := lines + [line.value];
      }
    }
  }

  /** Feeds the chunks of a response to a fresh reader and collects what it yields. */
  method IterSseData(chunks: seq<Bytes>) returns (out: seq<Bytes>)
    ensures out == Reference(Concat(chunks))
  {
    var reader := new EventReader();
    out := [];
    ghost var seen: Bytes, lines: seq<Bytes>, start := [], [], Pending(true, []);
    for i := 0 to |chunks|
      invariant reader.Valid() && fresh(reader)
      invariant seen == Concat(chunks[..i])
      invariant Pops(seen, false, lines, reader.buffer)
      invariant reader.Memory() == AfterLines(start, lines) && out == Payloads(start, lines)
    {
      PopsExtended(seen, chunks[i], false, lines, reader.buffer);
      ghost var unread := reader.buffer + chunks[i];
      reader.Extend(chunks[i]);
      var data, more := reader.Consume(false);
      PopsThenPops(seen + chunks[i], false, lines, unread, more, reader.buffer);
      DeliverAppend(start, lines, more);
      out := out + data;
      seen, lines := seen + chunks[i], lines + more;
      ConcatSnoc(chunks, i);
    }
    PopsExtended(seen, [], true, lines, reader.buffer);
    assert seen + [] == seen && reader.buffer + [] == reader.buffer;
    ghost var unread := reader.buffer;
    var data, more := reader.Consume(true);
    PopsThenPops(seen, true, lines, unread, more, reader.buffer);
    DeliverAppend(start, lines, more);
    out := out + data;
    assert chunks[..|chunks|] == chunks;
    PayloadsAreReference(seen, lines + more);
  }

  // ----- supporting lemmas

  lemma {:induction false} FirstBreakIs(s: Bytes, k: nat)
    requires k <= |s| && NoBreak(s, k) && (k < |s| ==> IsBreak(s[k]))
    ensures FirstBreak(s) == k
  {
    if k > 0 {
      FirstBreakIs(s[1..], k - 1);
    }
  }

  lemma {:induction false} ConcatSnoc(chunks: seq<Bytes>, i: nat)
    requires i < |chunks|
    ensures Concat(chunks[..i + 1]) == Concat(chunks[..i]) + chunks[i]
  {
    if i == 0 {
      assert chunks[..1] == [chunks[0]];
    } else {
      ConcatSnoc(chunks[1..], i - 1);
      assert chunks[..i + 1][1..] == chunks[1..][..i];
      assert chunks[..i][1..] == chunks[1..][..i - 1];
    }
  }

  /** Bytes that arrive later never change a line that was already complete. */
  lemma NextLineStable(a: Bytes, b: Bytes, eof: bool)
    requires NextLine(a, false).Line?
    ensures NextLine(a + b, eof) == NextLine(a, false)
  {
    var k := FirstBreak(a);
    assert (a + b)[..k] == a[..k];
    FirstBreakIs(a + b, k);
  }

  lemma {:induction false} PopsExtended(s: Bytes, more: Bytes, eof: bool, lines: seq<Bytes>, rest: Bytes)
    requires Pops(s, false, lines, rest)
    ensures Pops(s + more, eof, lines, rest + more)
    decreases lines
  {
    if lines != [] {
      var cut := NextLine(s, false);
      NextLineStable(s, more, eof);
      assert (s + more)[cut.size..] == s[cut.size..] + more;
      PopsExtended(s[cut.size..], more, eof, lines[1..], rest);
    }
  }

  lemma {:induction false} PopsThenPops(s: Bytes, eof: bool, a: seq<Bytes>, mid: Bytes, b: seq<Bytes>, rest: Bytes)
    requires Pops(s, eof, a, mid) && Pops(mid, eof, b, rest)
    ensures Pops(s, eof, a + b, rest)
    decreases a
  {
    if a == [] {
      assert a + b == b;
    } else {
      assert (a + b)[1..] == a[1..] + b;
      PopsThenPops(s[NextLine(s, eof).size..], eof, a[1..], mid, b, rest);
    }
  }

  lemma PopsOneMore(s: Bytes, eof: bool, lines: seq<Bytes>, mid: Bytes)
    requires Pops(s, eof, lines, mid) && NextLine(mid, eof).Line?
    ensures var cut := NextLine(mid, eof); Pops(s, eof, lines + [cut.text], mid[cut.size..])
  {
    var cut := NextLine(mid, eof);
    assert Pops(mid[cut.size..], eof, [cut.text][1..], mid[cut.size..]);
    PopsThenPops(s, eof, lines, mid, [cut.text], mid[cut.size..]);
  }

  lemma {:induction false} DeliverAppend(p: Pending, a: seq<Bytes>, b: seq<Bytes>)
    ensures AfterLines(p, a + b) == AfterLines(AfterLines(p, a), b)
    ensures Payloads(p, a + b) == Payloads(p, a) + Payloads(AfterLines(p, a), b)
    decreases a
  {
    if a == [] {
      assert a + b == b;
    } else {
      assert (a + b)[1..] == a[1..] + b;
      DeliverAppend(AfterLine(p, a[0]), a[1..], b);
    }
  }

  lemma DeliverOne(p: Pending, a: seq<Bytes>, line: Bytes)
    ensures AfterLines(p, a + [line]) == AfterLine(AfterLines(p, a), line)
    ensures Payloads(p, a + [line]) == Payloads(p, a) + Emitted(AfterLines(p, a), line)
  {
    DeliverAppend(p, a, [line]);
    var q := AfterLines(p, a);
    assert [line][1..] == [];
    assert AfterLines(AfterLine(q, line), []) == AfterLine(q, line);
    assert Payloads(AfterLine(q, line), []) == [];
  }

  // The popped lines and the automaton's lines.

  lemma {:induction false} LineToBreak(s: Bytes, line: Bytes, k: nat)
    requires k <= |s| && NoBreak(s, k)
    ensures TerminatedLines(s, line, false) == TerminatedLines(s[k..], line + s[..k], false)
  {
    if k == 0 {
      assert s[0..] == s && line + s[..0] == line;
    } else {
      assert s[1..][..k - 1] == s[..k][1..];
      assert s[1..][k - 1..] == s[k..];
      LineToBreak(s[1..], line + [s[0]], k - 1);
      assert line + [s[0]] + s[1..][..k - 1] == line + s[..k];
    }
  }

  lemma AutomatonUnfold(s: Bytes)
    ensures var cut := NextLine(s, true);
            if FirstBreak(s) == |s| then TerminatedLines(s, [], false) == []
            else cut.Line? && TerminatedLines(s, [], false) == [cut.text] + TerminatedLines(s[cut.size..], [], false)
  {
    var k := FirstBreak(s);
    LineToBreak(s, [], k);
    assert [] + s[..k] == s[..k];
    if k < |s| {
      assert s[k..][1..] == s[k + 1..];
      if k + 1 < |s| && s[k] == CR {
        if s[k + 1] == LF {
          assert s[k + 1..][1..] == s[k + 2..];
        } else {
          AfterLoneCR(s[k + 1..]);
        }
      }
    } else {
      assert s[k..] == [];
    }
  }

  /** The popped lines are the automaton's lines and, at the end, the unterminated tail. */
  lemma {:induction false} LinesAreTerminatedLines(s: Bytes, lines: seq<Bytes>) returns (tail: Bytes)
    requires Pops(s, true, lines, [])
    ensures lines == TerminatedLines(s, [], false) + (if tail == [] then [] else [tail])
    decreases lines
  {
    AutomatonUnfold(s);
    if lines == [] {
      tail := [];
    } else if FirstBreak(s) == |s| {
      tail := s;
      assert s[|s|..] == [];
      assert lines[1..] == [];
    } else {
      tail := LinesAreTerminatedLines(s[NextLine(s, true).size..], lines[1..]);
      assert lines == [lines[0]] + lines[1..];
    }
  }

  lemma AfterLoneCR(s: Bytes)
    requires s != [] && s[0] != LF
    ensures TerminatedLines(s, [], true) == TerminatedLines(s, [], false)
  {
  }

  // Stripping the byte order mark from the stream strips it from the first line.

  function WithFirst(prefix: Bytes, lines: seq<Bytes>): seq<Bytes> {
    if lines == [] then [] else [prefix + lines[0]] + lines[1..]
  }

  lemma {:induction false} PrefixedLines(s: Bytes, prefix: Bytes, line: Bytes)
    ensures TerminatedLines(s, prefix + line, false) == WithFirst(prefix, TerminatedLines(s, line, false))
  {
    if s != [] && !IsBreak(s[0]) {
      assert prefix + line + [s[0]] == prefix + (line + [s[0]]);
      PrefixedLines(s[1..], prefix, line + [s[0]]);
    }
  }

  lemma BomLines(s: Bytes)
    requires BOM <= s
    ensures TerminatedLines(s, [], false) == WithFirst(BOM, TerminatedLines(s[3..], [], false))
  {
    assert s[..3] == BOM;
    LineToBreak(s, [], 3);
    assert [] + s[..3] == BOM + [];
    PrefixedLines(s[3..], BOM, []);
  }

  lemma FirstLineIsPrefix(s: Bytes)
    ensures var lines := TerminatedLines(s, [], false); lines != [] ==> lines[0] <= s
  {
    var k := FirstBreak(s);
    LineToBreak(s, [], k);
    assert [] + s[..k] == s[..k];
    assert k == |s| ==> s[k..] == [];
  }

  lemma MarkTaken(rest: seq<Bytes>)
    ensures var lines := WithFirst(BOM, rest);
            rest == if lines == [] then [] else [WithoutBom(lines[0])] + lines[1..]
  {
    if rest != [] {
      assert (BOM + rest[0])[3..] == rest[0];
      assert rest == [rest[0]] + rest[1..];
    }
  }

  /** The lines the reader interprets after removing the mark from its first line. */
  lemma StrippedLines(s: Bytes)
    ensures var lines := TerminatedLines(s, [], false);
            TerminatedLines(WithoutBom(s), [], false)
            == if lines == [] then [] else [WithoutBom(lines[0])] + lines[1..]
  {
    var lines := TerminatedLines(s, [], false);
    if BOM <= s {
      BomLines(s);
      MarkTaken(TerminatedLines(s[3..], [], false));
    } else if lines != [] {
      FirstLineIsPrefix(s);
      assert BOM <= lines[0] ==> BOM <= s;
      assert lines == [lines[0]] + lines[1..];
    }
  }

  // A list of data lines and the standard's data buffer describe the same event.

  ghost function BufferOf(dataLines: seq<Bytes>): Bytes {
    if dataLines == [] then [] else dataLines[0] + [LF] + BufferOf(dataLines[1..])
  }

  lemma {:induction false} BufferSnoc(dataLines: seq<Bytes>, line: Bytes)
    ensures BufferOf(dataLines + [line]) == BufferOf(dataLines) + line + [LF]
  {
    if dataLines == [] {
      assert dataLines + [line] == [line];
      assert BufferOf([line]) == line + [LF] + [];
    } else {
      assert (dataLines + [line])[1..] == dataLines[1..] + [line];
      BufferSnoc(dataLines[1..], line);
    }
  }

  lemma {:induction false} JoinIsBuffer(dataLines: seq<Bytes>)
    requires dataLines != []
    ensures BufferOf(dataLines) == JoinLines(dataLines) + [LF]
  {
    if |dataLines| == 1 {
      assert BufferOf(dataLines[1..]) == [];
    } else {
      JoinIsBuffer(dataLines[1..]);
    }
  }

  lemma {:induction false} PayloadsAreDispatched(lines: seq<Bytes>, dataLines: seq<Bytes>)
    ensures Payloads(Pending(false, dataLines), lines) == Dispatch(lines, BufferOf(dataLines))
  {
    if lines != [] {
      var p := AfterLine(Pending(false, dataLines), lines[0]);
      PayloadsAreDispatched(lines[1..], p.dataLines);
      if dataLines != [] {
        JoinIsBuffer(dataLines);
        assert (JoinLines(dataLines) + [LF])[..|JoinLines(dataLines)|] == JoinLines(dataLines);
      }
      if p.dataLines != dataLines && p.dataLines != [] {
        BufferSnoc(dataLines, FieldValue(lines[0]));
      }
    }
  }

  /** A line without a terminator can never complete an event. */
  lemma TailIsSilent(p: Pending, tail: Bytes)
    requires tail != [] && (p.first ==> p.dataLines == [])
    ensures Payloads(p, [tail]) == []
  {
    assert Payloads(AfterLine(p, tail), [tail][1..]) == [];
  }

  lemma {:induction false} FirstHasNoData(p: Pending, lines: seq<Bytes>)
    requires p.first ==> p.dataLines == []
    ensures AfterLines(p, lines).first ==> AfterLines(p, lines).dataLines == []
    decreases lines
  {
    if lines != [] {
      FirstHasNoData(AfterLine(p, lines[0]), lines[1..]);
    }
  }

  lemma FirstLineStripped(lines: seq<Bytes>)
    requires lines != []
    ensures Payloads(Pending(true, []), lines) == Dispatch([WithoutBom(lines[0])] + lines[1..], [])
  {
    var line := WithoutBom(lines[0]);
    var rest := [line] + lines[1..];
    assert rest[1..] == lines[1..];
    PayloadsAreDispatched(rest, []);
    assert AfterLine(Pending(true, []), lines[0]) == AfterLine(Pending(false, []), line);
  }

  lemma PayloadsAreReference(s: Bytes, popped: seq<Bytes>)
    requires Pops(s, true, popped, [])
    ensures Payloads(Pending(true, []), popped) == Reference(s)
  {
    var tail := LinesAreTerminatedLines(s, popped);
    var lines := TerminatedLines(s, [], false);
    var start := Pending(true, []);
    if tail == [] {
      assert lines + [] == lines;
    } else {
      DeliverAppend(start, lines, [tail]);
      FirstHasNoData(start, lines);
      TailIsSilent(AfterLines(start, lines), tail);
    }
    StrippedLines(s);
    if lines != [] {
      FirstLineStripped(lines);
    }
  }

  // ----- what is written is what is read

  datatype End = Lf | Cr | CrLf

  /** What a server may put on a line. */
  datatype Written =
    | Data(spaced: bool, value: Bytes)     // "data:" or "data: " and the value
    | BareData                             // "data" alone
    | Comment(text: Bytes)
    | Other(name: Bytes, rest: Option<Bytes>)
    | Blank

  datatype WrittenLine = WrittenLine(content: Written, end: End)

  predicate OneLine(text: Bytes) {
    NoBreak(text, |text|)
  }

  predicate Proper(w: Written) {
    match w
    case Data(spaced, value) => OneLine(value) && (spaced || value == [] || value[0] != SPACE)
    case BareData => true
    case Comment(text) => OneLine(text)
    case Other(name, rest) =>
      name != [] && name != DATA && OneLine(name) && COLON !in name && (rest.Some? ==> OneLine(rest.value))
    case Blank => true
  }

  function Content(w: Written): Bytes {
    match w
    case Data(spaced, value) => DATA + [COLON] + (if spaced then [SPACE] else []) + value
    case BareData => DATA
    case Comment(text) => [COLON] + text
    case Other(name, rest) => name + if rest.Some? then [COLON] + rest.value else []
    case Blank => []
  }

  function EndBytes(end: End): Bytes {
    match end
    case Lf => [LF]
    case Cr => [CR]
    case CrLf => [CR, LF]
  }

  function Rendered(lines: seq<WrittenLine>): Bytes {
    if lines == [] then [] else Content(lines[0].content) + EndBytes(lines[0].end) + Rendered(lines[1..])
  }

  predicate StartsWithLf(lines: seq<WrittenLine>) {
    lines != [] && lines[0].content.Blank? && lines[0].end.Lf?
  }

  /** Proper lines, and no LF that a CR before it would swallow. */
  predicate WellWritten(lines: seq<WrittenLine>) {
    lines == [] ||
    (Proper(lines[0].content) && WellWritten(lines[1..]) && (lines[0].end.Cr? ==> !StartsWithLf(lines[1..])))
  }

  /** The payloads of the events: the values of each, joined by LF. */
  function Events(lines: seq<WrittenLine>, values: seq<Bytes>): seq<Bytes> {
    if lines == [] then []
    else
      match lines[0].content
      case Data(_, value) => Events(lines[1..], values + [value])
      case BareData => Events(lines[1..], values + [[]])
      case Blank => (if values == [] then [] else [JoinLines(values)]) + Events(lines[1..], [])
      case _ => Events(lines[1..], values)
  }

  function Contents(lines: seq<WrittenLine>): (r: seq<Bytes>)
    ensures |r| == |lines|
  {
    if lines == [] then [] else [Content(lines[0].content)] + Contents(lines[1..])
  }

  lemma ProperIsOneLine(w: Written)
    requires Proper(w)
    ensures OneLine(Content(w))
  {
  }

  lemma AfterCrDoesNotMatter(s: Bytes, line: Bytes)
    requires s == [] || s[0] != LF
    ensures TerminatedLines(s, line, true) == TerminatedLines(s, line, false)
  {
  }

  /** One line and its terminator. */
  lemma OneTerminated(content: Bytes, end: End, rest: Bytes)
    requires OneLine(content)
    ensures TerminatedLines(content + EndBytes(end) + rest, [], false)
         == [content] + TerminatedLines(rest, [], end.Cr?)
  {
    var s, k := content + EndBytes(end) + rest, |content|;
    assert s[..k] == content && s[k..] == EndBytes(end) + rest;
    LineToBreak(s, [], k);
    assert [] + content == content;
    assert (EndBytes(end) + rest)[1..] == EndBytes(end)[1..] + rest;
    if end.CrLf? {
      assert (EndBytes(end) + rest)[1..][1..] == rest;
    } else {
      assert EndBytes(end)[1..] + rest == rest;
    }
  }

  lemma {:induction false} SilentTail(tail: Bytes, line: Bytes, afterCR: bool)
    requires OneLine(tail)
    ensures TerminatedLines(tail, line, afterCR) == []
  {
    if tail != [] {
      SilentTail(tail[1..], line + [tail[0]], false);
    }
  }

  lemma FirstByte(lines: seq<WrittenLine>, tail: Bytes)
    requires WellWritten(lines) && !StartsWithLf(lines) && OneLine(tail)
    ensures var s := Rendered(lines) + tail; s == [] || s[0] != LF
  {
    if lines != [] {
      ProperIsOneLine(lines[0].content);
      var c := Content(lines[0].content);
      if c != [] {
        assert (Rendered(lines) + tail)[0] == c[0];
      } else {
        assert (Rendered(lines) + tail)[0] == EndBytes(lines[0].end)[0];
      }
    } else if tail != [] {
      assert (Rendered(lines) + tail)[0] == tail[0];
    }
  }

  lemma {:induction false} RenderedLines(lines: seq<WrittenLine>, tail: Bytes)
    requires WellWritten(lines) && OneLine(tail)
    ensures TerminatedLines(Rendered(lines) + tail, [], false) == Contents(lines)
  {
    if lines == [] {
      assert Rendered(lines) + tail == tail;
      SilentTail(tail, [], false);
    } else {
      var c, end, rest := Content(lines[0].content), lines[0].end, Rendered(lines[1..]) + tail;
      assert Rendered(lines) + tail == c + EndBytes(end) + rest;
      ProperIsOneLine(lines[0].content);
      OneTerminated(c, end, rest);
      RenderedLines(lines[1..], tail);
      if end.Cr? {
        FirstByte(lines[1..], tail);
        AfterCrDoesNotMatter(rest, []);
      }
    }
  }

  lemma {:induction false} ColonIs(name: Bytes, rest: Bytes)
    requires COLON !in name
    ensures ColonAt(name) == |name| && ColonAt(name + [COLON] + rest) == |name|
  {
    if name != [] {
      ColonIs(name[1..], rest);
      assert (name + [COLON] + rest)[1..] == name[1..] + [COLON] + rest;
    }
  }

  /** A field is its name, and its value without one leading space. */
  lemma FieldParts(name: Bytes, value: Bytes)
    requires COLON !in name
    ensures FieldName(name) == name && FieldValue(name) == []
    ensures var line := name + [COLON] + value;
            && FieldName(line) == name
            && FieldValue(line) == if value != [] && value[0] == SPACE then value[1..] else value
  {
    ColonIs(name, value);
    var line := name + [COLON] + value;
    assert line[..|name|] == name && line[|name| + 1..] == value;
    if value != [] {
      assert line[|name| + 1] == value[0] && line[|name| + 2..] == value[1..];
    }
  }

  lemma DataIsRead(w: Written)
    requires Proper(w) && (w.Data? || w.BareData?)
    ensures var line := Content(w);
            && line != [] && line[0] != COLON && FieldName(line) == DATA
            && FieldValue(line) == if w.Data? then w.value else []
  {
    if w.Data? {
      ValueIsRead(w.spaced, w.value);
    } else {
      FieldParts(DATA, []);
    }
  }

  lemma ValueIsRead(spaced: bool, value: Bytes)
    requires !spaced ==> value == [] || value[0] != SPACE
    ensures var line := DATA + [COLON] + (if spaced then [SPACE] else []) + value;
            line[0] != COLON && FieldName(line) == DATA && FieldValue(line) == value
  {
    var shown := (if spaced then [SPACE] else []) + value;
    FieldParts(DATA, shown);
    assert DATA + [COLON] + (if spaced then [SPACE] else []) + value == DATA + [COLON] + shown;
    assert spaced ==> shown[1..] == value;
  }

  lemma OtherIsSkipped(w: Written)
    requires Proper(w) && (w.Other? || w.Comment?)
    ensures var line := Content(w); line != [] && (line[0] == COLON || FieldName(line) != DATA)
  {
    if w.Other? {
      FieldParts(w.name, w.rest.GetOr([]));
      if w.rest.Some? {
        assert Content(w) == w.name + [COLON] + w.rest.value;
      } else {
        assert Content(w) == w.name;
      }
    }
  }

  lemma {:induction false} ContentsDispatch(lines: seq<WrittenLine>, values: seq<Bytes>)
    requires WellWritten(lines)
    ensures Dispatch(Contents(lines), BufferOf(values)) == Events(lines, values)
  {
    if lines != [] {
      var w, rest := lines[0].content, lines[1..];
      assert Contents(lines)[1..] == Contents(rest);
      match w
      case Data(_, value) =>
        DataIsRead(w);
        BufferSnoc(values, value);
        ContentsDispatch(rest, values + [value]);
      case BareData =>
        DataIsRead(w);
        BufferSnoc(values, []);
        ContentsDispatch(rest, values + [[]]);
      case Blank =>
        ContentsDispatch(rest, []);
        if values != [] {
          JoinIsBuffer(values);
          assert (JoinLines(values) + [LF])[..|JoinLines(values)|] == JoinLines(values);
        }
      case _ =>
        OtherIsSkipped(w);
        ContentsDispatch(rest, values);
    }
  }

  /** Whatever lines a server writes, with whatever terminators, after a byte-order mark or not, and with an
      unfinished line at the end, its events are read as they were written, however the stream is cut. */
  lemma WrittenIsRead(chunks: seq<Bytes>, marked: bool, lines: seq<WrittenLine>, tail: Bytes)
    requires WellWritten(lines) && OneLine(tail) && (marked || !(BOM <= Rendered(lines) + tail))
    requires Concat(chunks) == (if marked then BOM else []) + (Rendered(lines) + tail)
    ensures Reference(Concat(chunks)) == Events(lines, [])
  {
    var s := Rendered(lines) + tail;
    assert WithoutBom(Concat(chunks)) == s by {
      if marked {
        assert (BOM + s)[3..] == s && BOM <= BOM + s;
      } else {
        assert [] + s == s;
      }
    }
    RenderedLines(lines, tail);
    ContentsDispatch(lines, []);
    assert BufferOf([]) == [];
  }

  function EventLines(values: seq<Bytes>): seq<WrittenLine> {
    if values == [] then [WrittenLine(Blank, Lf)]
    else [WrittenLine(Data(true, values[0]), Lf)] + EventLines(values[1..])
  }

  function StreamLines(events: seq<seq<Bytes>>): seq<WrittenLine> {
    if events == [] then [] else EventLines(events[0]) + StreamLines(events[1..])
  }

  function AllJoined(events: seq<seq<Bytes>>): seq<Bytes> {
    if events == [] then [] else [JoinLines(events[0])] + AllJoined(events[1..])
  }

  lemma {:induction false} EventThenRest(values: seq<Bytes>, before: seq<Bytes>, rest: seq<WrittenLine>)
    requires forall i :: 0 <= i < |values| ==> OneLine(values[i])
    requires WellWritten(rest) && before + values != []
    ensures WellWritten(EventLines(values) + rest)
    ensures Events(EventLines(values) + rest, before) == [JoinLines(before + values)] + Events(rest, [])
  {
    var lines := EventLines(values) + rest;
    if values == [] {
      assert lines[1..] == rest && before + values == before;
    } else {
      assert lines[1..] == EventLines(values[1..]) + rest;
      assert before + [values[0]] + values[1..] == before + values;
      EventThenRest(values[1..], before + [values[0]], rest);
    }
  }

  /** In particular events of data lines come back as those lines, joined. */
  lemma {:induction false} EventsComeBack(events: seq<seq<Bytes>>)
    requires forall i :: 0 <= i < |events| ==> events[i] != []
    requires forall i, j :: 0 <= i < |events| && 0 <= j < |events[i]| ==> OneLine(events[i][j])
    ensures WellWritten(StreamLines(events)) && Events(StreamLines(events), []) == AllJoined(events)
  {
    if events != [] {
      var rest := events[1..];
      assert forall i :: 0 <= i < |rest| ==> rest[i] == events[i + 1];
      EventsComeBack(rest);
      assert [] + events[0] == events[0];
      EventThenRest(events[0], [], StreamLines(rest));
    }
  }
}
