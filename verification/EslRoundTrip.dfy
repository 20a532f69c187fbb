/**
  What the event socket parsers are for: printed messages are read back, one after another, from one stream,
  and the two parsers agree on header lines.
*/
module EslRoundTrip {
  import opened Options
  import opened Decimals
  import opened JsText
  import opened EslMessage

  // ---- the printer ----

  /** A message as it goes on the wire: header fields in order, then the body. */
  datatype WireMessage = WireMessage(fields: seq<(Bytes, Bytes)>, body: Bytes)

  predicate FieldOk(field: (Bytes, Bytes)) {
    && '\n' !in field.0 && (forall k :: 0 <= k < |field.0| ==> !SeparatorAt(field.0, k))
    && '\n' !in field.1 && (field.1 != "" ==> field.1[|field.1| - 1] != '\r')
  }

  function FieldLine(field: (Bytes, Bytes)): Bytes {
    field.0 + ": " + field.1
  }

  function PrintFields(fields: seq<(Bytes, Bytes)>): Bytes {
    if fields == [] then "" else FieldLine(fields[0]) + "\n" + PrintFields(fields[1..])
  }

  function Print(m: WireMessage): Bytes {
    PrintFields(m.fields) + "\n" + m.body
  }

  /** The last of two equal names wins. */
  function HeadersOf(fields: seq<(Bytes, Bytes)>, headers: Headers): Headers {
    if fields == [] then headers else HeadersOf(fields[1..], headers[fields[0].0 := fields[0].1])
  }

  function Meaning(m: WireMessage): Message {
    Message(HeadersOf(m.fields, map[]), m.body)
  }

  /** Content-Length, if present, gives the number of bytes of the body, which fits into memory; without it there is no body. */
  predicate WellFormed(m: WireMessage, room: nat) {
    var headers := HeadersOf(m.fields, map[]);
    && (forall i :: 0 <= i < |m.fields| ==> FieldOk(m.fields[i]))
    && if "Content-Length" in headers then Atoi(TrimSpace(headers["Content-Length"])) == Some(|m.body|) && |m.body| <= room else m.body == ""
  }

  // ---- announced lengths ----

  predicate Blanks(s: Bytes) {
    forall k :: 0 <= k < |s| ==> s[k] == ' ' || '\t' <= s[k] <= '\r'
  }

  /** Characters of a number: none of them begins or ends a white-space character. */
  predicate Solid(c: char) {
    IsDigit(c) || c == '-' || c == '+'
  }

  lemma SolidIsNoSpace(s: Bytes)
    requires s != "" && (Solid(s[0]) || Solid(s[|s| - 1]))
    ensures !IsSpaceRune(s)
  {
  }

  lemma SolidStart(s: Bytes)
    requires s != "" && Solid(s[0])
    ensures TrimSpaceLeft(s) == s
  {
    hide IsSpaceRune, Solid;
    SolidIsNoSpace(s[..1]);
    if |s| >= 2 { SolidIsNoSpace(s[..2]); }
    if |s| >= 3 { SolidIsNoSpace(s[..3]); }
  }

  lemma NoSpaceAtEnd(s: Bytes)
    requires |s| >= 1 ==> !IsSpaceRune(s[|s| - 1..])
    requires |s| >= 2 ==> !IsSpaceRune(s[|s| - 2..])
    requires |s| >= 3 ==> !IsSpaceRune(s[|s| - 3..])
    ensures TrimSpaceRight(s) == s
  {
    hide IsSpaceRune;
  }

  lemma SolidEnd(s: Bytes)
    requires s != "" && Solid(s[|s| - 1])
    ensures TrimSpaceRight(s) == s
  {
    hide IsSpaceRune, Solid, TrimSpaceRight;
    SolidIsNoSpace(s[|s| - 1..]);
    if |s| >= 2 { SolidIsNoSpace(s[|s| - 2..]); }
    if |s| >= 3 { SolidIsNoSpace(s[|s| - 3..]); }
    NoSpaceAtEnd(s);
  }

  lemma BlankStart(c: char, s: Bytes)
    requires Blanks([c])
    ensures TrimSpaceLeft([c] + s) == TrimSpaceLeft(s)
  {
    assert [c][0] == c;
    assert IsSpaceRune([c]);
    assert ([c] + s)[..1] == [c] && ([c] + s)[1..] == s;
    hide IsSpaceRune;
  }

  lemma BlankEnd(s: Bytes, c: char)
    requires Blanks([c])
    ensures TrimSpaceRight(s + [c]) == TrimSpaceRight(s)
  {
    assert [c][0] == c;
    assert IsSpaceRune([c]);
    assert (s + [c])[|s|..] == [c] && (s + [c])[..|s|] == s;
    hide IsSpaceRune;
  }

  lemma {:induction false} TrimLeft(blanks: Bytes, s: Bytes)
    requires Blanks(blanks) && s != "" && Solid(s[0])
    ensures TrimSpaceLeft(blanks + s) == s
  {
    hide TrimSpaceLeft, Solid;
    if blanks == "" {
      assert blanks + s == s;
      SolidStart(s);
    } else {
      assert blanks + s == [blanks[0]] + (blanks[1..] + s);
      BlankStart(blanks[0], blanks[1..] + s);
      TrimLeft(blanks[1..], s);
    }
  }

  lemma {:induction false} TrimRight(s: Bytes, blanks: Bytes)
    requires Blanks(blanks) && s != "" && Solid(s[|s| - 1])
    ensures TrimSpaceRight(s + blanks) == s
    decreases |blanks|
  {
    hide TrimSpaceRight, Solid;
    if blanks == "" {
      assert s + blanks == s;
      SolidEnd(s);
    } else {
      var n := |blanks| - 1;
      assert s + blanks == (s + blanks[..n]) + [blanks[n]];
      BlankEnd(s + blanks[..n], blanks[n]);
      TrimRight(s, blanks[..n]);
    }
  }

  lemma TrimAround(before: Bytes, s: Bytes, after: Bytes)
    requires Blanks(before) && Blanks(after) && s != "" && Solid(s[0]) && Solid(s[|s| - 1])
    ensures TrimSpace(before + s + after) == s
  {
    hide TrimSpaceLeft, TrimSpaceRight, Blanks, Solid;
    assert before + s + after == before + (s + after);
    TrimLeft(before, s + after);
    TrimRight(s, after);
  }

  /** A number, with a sign or without, is read back whatever white space surrounds it, and refused when it does not fit 64 bits. */
  lemma NumberIsRead(before: Bytes, n: nat, after: Bytes)
    requires Blanks(before) && Blanks(after)
    ensures Atoi(TrimSpace(before + Decimal(n) + after)) == if n <= 9_223_372_036_854_775_807 then Some(n) else None
    ensures Atoi(TrimSpace(before + ("+" + Decimal(n)) + after)) == if n <= 9_223_372_036_854_775_807 then Some(n) else None
    ensures var m: int := -(n as int);
      Atoi(TrimSpace(before + ("-" + Decimal(n)) + after)) == if n <= 9_223_372_036_854_775_808 then Some(m) else None
  {
    var plus, minus := "+" + Decimal(n), "-" + Decimal(n);
    assert plus[1..] == Decimal(n) && minus[1..] == Decimal(n);
    ValueOfDecimal(n);
    hide TrimSpace, Decimal, Blanks;
    TrimAround(before, Decimal(n), after);
    TrimAround(before, plus, after);
    TrimAround(before, minus, after);
  }

  /** Anything but digits after an optional sign is no number. */
  lemma NotANumber(sign: Bytes, s: Bytes)
    requires sign in {"", "+", "-"} && (sign == "" && s != "" ==> s[0] != '+' && s[0] != '-')
    requires s == "" || exists k :: 0 <= k < |s| && !('0' <= s[k] <= '9')
    ensures Atoi(sign + s) == None
  {
    assert sign != "" ==> (sign + s)[1..] == s;
    assert sign == "" ==> sign + s == s;
  }

  /** A length printed in decimal is read back, so it may announce any body. */
  lemma DecimalLengthIsRead(n: nat)
    requires n <= MAX_INT64
    ensures Atoi(TrimSpace(Decimal(n))) == Some(n)
  {
    hide Atoi, TrimSpace;
    NumberIsRead("", n, "");
    assert "" + Decimal(n) + "" == Decimal(n);
  }

  // ---- one message ----

  lemma IndexInConcatenation(a: Bytes, c: char, b: Bytes)
    requires c !in a
    ensures IndexOf(a + [c] + b, c) == |a|
  {
    var s := a + [c] + b;
    assert s[|a|] == c;
    assert forall i :: 0 <= i < |a| ==> s[i] == a[i];
  }

  lemma SeparatorOfField(field: (Bytes, Bytes))
    requires FieldOk(field)
    ensures Separator(FieldLine(field)) == |field.0|
  {
    var line := FieldLine(field);
    assert SeparatorAt(line, |field.0|);
    forall i | 0 <= i < |field.0|
      ensures !SeparatorAt(line, i)
    {
      assert line[i] == field.0[i];
      assert i + 1 < |field.0| ==> line[i + 1] == field.0[i + 1];
      assert !SeparatorAt(field.0, i);
    }
  }

  lemma TrimmedLine(line: Bytes)
    requires line != "" && !IsCrLf(line[|line| - 1])
    ensures TrimEnd(line + "\n") == line
  {
    assert (line + "\n")[..|line|] == line;
  }

  lemma AddField(field: (Bytes, Bytes), headers: Headers)
    requires FieldOk(field)
    ensures AddLine(headers, FieldLine(field)) == headers[field.0 := field.1]
  {
    SeparatorOfField(field);
    var line := FieldLine(field);
    assert line[..|field.0|] == field.0;
    assert line[|field.0| + 2..] == field.1;
  }

  lemma ReadOneField(field: (Bytes, Bytes), rest: Bytes, headers: Headers)
    requires FieldOk(field)
    ensures ReadHeaders(FieldLine(field) + "\n" + rest, headers) == ReadHeaders(rest, headers[field.0 := field.1])
  {
    var line := FieldLine(field);
    var input := line + "\n" + rest;
    assert '\n' !in line;
    assert line + ['\n'] + rest == input;
    IndexInConcatenation(line, '\n', rest);
    assert input[..|line| + 1] == line + "\n";
    assert input[|line| + 1..] == rest;
    assert line[|line| - 1] == if field.1 == "" then ' ' else field.1[|field.1| - 1];
    TrimmedLine(line);
    AddField(field, headers);
  }

  lemma {:induction false} ReadPrintedFields(fields: seq<(Bytes, Bytes)>, rest: Bytes, headers: Headers)
    requires forall i :: 0 <= i < |fields| ==> FieldOk(fields[i])
    ensures ReadHeaders(PrintFields(fields) + "\n" + rest, headers) == HeaderBlock(HeadersOf(fields, headers), rest)
    decreases |fields|
  {
    if fields == [] {
      var input := PrintFields(fields) + "\n" + rest;
      assert input == "" + ['\n'] + rest;
      IndexInConcatenation("", '\n', rest);
      assert input[..1] == "\n" && input[1..] == rest;
      assert TrimEnd("\n") == "";
    } else {
      var more := PrintFields(fields[1..]) + "\n" + rest;
      assert PrintFields(fields) + "\n" + rest == FieldLine(fields[0]) + "\n" + more;
      ReadOneField(fields[0], more, headers);
      ReadPrintedFields(fields[1..], rest, headers[fields[0].0 := fields[0].1]);
    }
  }

  /** A printed message is read back exactly, and reading stops at its last byte, whatever follows. */
  lemma ReadPrinted(m: WireMessage, tail: Bytes, room: nat)
    requires WellFormed(m, room)
    ensures ParseMessage(Print(m) + tail, room) == (Ok(Meaning(m)), tail)
  {
    hide Atoi, TrimSpace, FieldOk, ReadHeaders;
    assert Print(m) + tail == PrintFields(m.fields) + "\n" + (m.body + tail);
    ReadPrintedFields(m.fields, m.body + tail, map[]);
    assert (m.body + tail)[..|m.body|] == m.body;
    assert (m.body + tail)[|m.body|..] == tail;
  }

  // ---- a whole stream ----

  function PrintAll(ms: seq<WireMessage>): Bytes {
    if ms == [] then "" else Print(ms[0]) + PrintAll(ms[1..])
  }

  /** readMessage applied `n` times; an error ends the stream early. */
  function ReadMany(input: Bytes, n: nat, room: nat): (seq<Message>, Bytes)
    decreases n
  {
    if n == 0 then ([], input)
    else
      var (r, rest) := ParseMessage(input, room);
      match r
      case Err(_) => ([], rest)
      case Ok(message) =>
        var (messages, end) := ReadMany(rest, n - 1, room);
        ([message] + messages, end)
  }

  function Meanings(ms: seq<WireMessage>): seq<Message> {
    seq(|ms|, i requires 0 <= i < |ms| => Meaning(ms[i]))
  }

  /** Reading a stream of printed messages gives exactly those messages and leaves exactly the tail. */
  lemma {:induction false} StreamRoundTrip(ms: seq<WireMessage>, tail: Bytes, room: nat)
    requires forall i :: 0 <= i < |ms| ==> WellFormed(ms[i], room)
    ensures ReadMany(PrintAll(ms) + tail, |ms|, room) == (Meanings(ms), tail)
    decreases |ms|
  {
    hide WellFormed, ParseMessage, Meaning, Print;
    if ms != [] {
      assert PrintAll(ms) + tail == Print(ms[0]) + (PrintAll(ms[1..]) + tail);
      ReadPrinted(ms[0], PrintAll(ms[1..]) + tail, room);
      StreamRoundTrip(ms[1..], tail, room);
      assert Meanings(ms) == [Meaning(ms[0])] + Meanings(ms[1..]);
    } else {
      assert PrintAll(ms) + tail == tail;
    }
  }

  /** With the announced length in decimal, every body is well-formed: blank lines and newlines need no care. */
  lemma AnyBodyIsWellFormed(fields: seq<(Bytes, Bytes)>, body: Bytes, room: nat)
    requires |body| <= MAX_INT64 && |body| <= room && forall i :: 0 <= i < |fields| ==> FieldOk(fields[i])
    ensures WellFormed(WireMessage(fields + [(CONTENT_LENGTH, Decimal(|body|))], body), room)
  {
    hide Atoi, TrimSpace, FieldOk, HeadersOf, Decimal;
    var last := (CONTENT_LENGTH, Decimal(|body|));
    DecimalLengthIsRead(|body|);
    LastFieldWins(fields, last, map[]);
    LengthFieldOk(|body|);
  }

  lemma LengthFieldOk(n: nat)
    ensures FieldOk((CONTENT_LENGTH, Decimal(n)))
  {
    hide Decimal;
    assert forall k :: 0 <= k < |Decimal(n)| ==> IsDigit(Decimal(n)[k]);
  }

  lemma {:induction false} LastFieldWins(fields: seq<(Bytes, Bytes)>, last: (Bytes, Bytes), headers: Headers)
    ensures HeadersOf(fields + [last], headers) == HeadersOf(fields, headers)[last.0 := last.1]
    decreases |fields|
  {
    if fields == [] {
      assert HeadersOf([last], headers) == HeadersOf([last][1..], headers[last.0 := last.1]);
      assert fields + [last] == [last];
    } else {
      assert (fields + [last])[1..] == fields[1..] + [last];
      LastFieldWins(fields[1..], last, headers[fields[0].0 := fields[0].1]);
    }
  }

  // ---- incomplete and malformed messages ----

  lemma {:induction false} HeadersCutShort(fields: seq<(Bytes, Bytes)>, cut: nat, headers: Headers)
    requires forall i :: 0 <= i < |fields| ==> FieldOk(fields[i])
    requires cut <= |PrintFields(fields)|
    ensures ReadHeaders((PrintFields(fields) + "\n")[..cut], headers) == HeaderEof
    decreases |fields|
  {
    hide FieldOk, ReadHeaders;
    if fields == [] {
      NoLine("", headers);
    } else {
      var line, rest := FieldLine(fields[0]), PrintFields(fields[1..]) + "\n";
      var input := PrintFields(fields) + "\n";
      assert input == line + "\n" + rest;
      if cut <= |line| {
        assert input[..cut] == line[..cut];
        LineHasNoNewline(fields[0], cut);
        NoLine(line[..cut], headers);
      } else {
        var left := cut - |line| - 1;
        assert input[..cut] == line + "\n" + rest[..left];
        ReadOneField(fields[0], rest[..left], headers);
        HeadersCutShort(fields[1..], left, headers[fields[0].0 := fields[0].1]);
      }
    }
  }

  lemma NoLine(input: Bytes, headers: Headers)
    requires '\n' !in input
    ensures ReadHeaders(input, headers) == HeaderEof
  {
  }

  lemma LineHasNoNewline(field: (Bytes, Bytes), cut: nat)
    requires FieldOk(field) && cut <= |FieldLine(field)|
    ensures '\n' !in FieldLine(field)[..cut]
  {
  }

  /** A stream that ends anywhere inside a message is an error: no proper prefix of a message passes for one. */
  lemma CutShort(m: WireMessage, cut: nat, room: nat)
    requires WellFormed(m, room) && cut < |Print(m)|
    ensures ParseMessage(Print(m)[..cut], room) ==
      (Err(if cut <= |PrintFields(m.fields)| + 1 then EndOfFile else UnexpectedEndOfFile), "")
  {
    hide Atoi, TrimSpace, FieldOk, ReadHeaders;
    var head := PrintFields(m.fields) + "\n";
    if cut < |head| {
      assert Print(m)[..cut] == head[..cut];
      HeadersCutShort(m.fields, cut, map[]);
    } else {
      var part := m.body[..cut - |head|];
      assert Print(m)[..cut] == head + part;
      ReadPrintedFields(m.fields, part, map[]);
    }
  }

  /** The length that the headers announce: absent, unreadable (None) or a number. */
  function Announced(headers: Headers): Option<Option<int>> {
    if "Content-Length" in headers then Some(Atoi(TrimSpace(headers["Content-Length"]))) else None
  }

  /** For any header fields and any bytes after them: which announced lengths lead to which result, both directions. */
  lemma ResultIff(fields: seq<(Bytes, Bytes)>, rest: Bytes, room: nat)
    requires forall i :: 0 <= i < |fields| ==> FieldOk(fields[i])
    ensures var announced := Announced(HeadersOf(fields, map[]));
      var n := if announced.Some? && announced.value.Some? then announced.value.value else 0;
      var r := ParseMessage(PrintFields(fields) + "\n" + rest, room).0;
      && (r == Err(InvalidLength) <==> announced == Some(None))
      && (r == Err(NoAllocation) <==> n < 0 || n > room)
      && (r == Err(EndOfFile) <==> 0 < n <= room && rest == "")
      && (r == Err(UnexpectedEndOfFile) <==> |rest| < n <= room && rest != "")
      && (r.Ok? <==> announced != Some(None) && 0 <= n <= |rest| && n <= room)
  {
    hide Atoi, TrimSpace, FieldOk, ReadHeaders, HeadersOf, PrintFields;
    ReadPrintedFields(fields, rest, map[]);
  }

  // ---- any input ----

  lemma IndexInLonger(s: Bytes, c: char, more: Bytes)
    requires IndexOf(s, c) < |s|
    ensures IndexOf(s + more, c) == IndexOf(s, c)
  {
    var k := IndexOf(s, c);
    assert (s + more)[k] == c;
    assert forall i :: 0 <= i < k ==> (s + more)[i] == s[i];
  }

  lemma {:induction false} HeadersInLonger(input: Bytes, headers: Headers, more: Bytes)
    requires ReadHeaders(input, headers).HeaderBlock?
    ensures var block := ReadHeaders(input, headers);
      ReadHeaders(input + more, headers) == HeaderBlock(block.headers, block.rest + more)
    decreases |input|
  {
    hide IndexOf, TrimEnd, AddLine;
    var k := IndexOf(input, '\n');
    IndexInLonger(input, '\n', more);
    assert (input + more)[..k + 1] == input[..k + 1];
    assert (input + more)[k + 1..] == input[k + 1..] + more;
    var line := TrimEnd(input[..k + 1]);
    if line != "" {
      HeadersInLonger(input[k + 1..], AddLine(headers, line), more);
    }
  }

  /**
    Whatever the bytes are: a message once complete is read the same whatever follows it,
    and everything that follows is left unread.
  */
  lemma CompleteIsStable(input: Bytes, more: Bytes, room: nat)
    requires ParseMessage(input, room).0.Ok?
    ensures var (r, rest) := ParseMessage(input, room); ParseMessage(input + more, room) == (r, rest + more)
  {
    hide ReadHeaders, Atoi, TrimSpace;
    HeadersInLonger(input, map[], more);
    var block := ReadHeaders(input, map[]);
    if CONTENT_LENGTH in block.headers {
      var n := Atoi(TrimSpace(block.headers[CONTENT_LENGTH])).value;
      assert (block.rest + more)[..n] == block.rest[..n];
      assert (block.rest + more)[n..] == block.rest[n..] + more;
    }
  }

  // ---- the two parsers ----

  /** The lines that survive trimming, as they were. */
  function NonBlank(lines: seq<Bytes>): seq<Bytes> {
    if lines == [] then []
    else (if TrimCr(lines[0]) == "" then [] else [lines[0]]) + NonBlank(lines[1..])
  }

  function Unlines(lines: seq<Bytes>): Bytes {
    if lines == [] then "" else lines[0] + "\n" + Unlines(lines[1..])
  }

  lemma {:induction false} SameTrim(line: Bytes)
    requires '\n' !in line
    ensures TrimEnd(line) == TrimCr(line)
  {
    if line != [] && line[|line| - 1] == '\r' {
      SameTrim(line[..|line| - 1]);
    }
  }

  lemma TrimWithNewline(line: Bytes)
    requires '\n' !in line
    ensures TrimEnd(line + "\n") == TrimCr(line)
  {
    assert (line + "\n")[..|line|] == line;
    SameTrim(line);
  }

  lemma ReadBlankLine(headers: Headers)
    ensures ReadHeaders("\n", headers) == HeaderBlock(headers, "")
  {
    IndexInConcatenation("", '\n', "");
    assert "" + ['\n'] + "" == "\n";
    assert "\n"[..1] == "\n";
    assert TrimEnd("\n") == "";
  }

  lemma ReadOneLine(line: Bytes, more: Bytes, headers: Headers)
    requires '\n' !in line && TrimCr(line) != ""
    ensures ReadHeaders(line + "\n" + more, headers) == ReadHeaders(more, AddLine(headers, TrimCr(line)))
  {
    var input := line + "\n" + more;
    assert input == line + ['\n'] + more;
    IndexInConcatenation(line, '\n', more);
    assert input[..|line| + 1] == line + "\n";
    assert input[|line| + 1..] == more;
    TrimWithNewline(line);
  }

  lemma {:induction false} ReadLines(lines: seq<Bytes>, headers: Headers)
    requires forall i :: 0 <= i < |lines| ==> '\n' !in lines[i] && TrimCr(lines[i]) != ""
    ensures ReadHeaders(Unlines(lines) + "\n", headers) == HeaderBlock(AddPlainLines(headers, lines), "")
    decreases |lines|
  {
    hide ReadHeaders, TrimCr, AddLine;
    if lines == [] {
      assert Unlines(lines) + "\n" == "\n";
      ReadBlankLine(headers);
    } else {
      var more := Unlines(lines[1..]) + "\n";
      assert Unlines(lines) + "\n" == lines[0] + "\n" + more;
      ReadOneLine(lines[0], more, headers);
      ReadLines(lines[1..], AddPlainLine(headers, lines[0]));
    }
  }

  lemma {:induction false} BlankLinesIgnored(lines: seq<Bytes>, fields: Headers)
    ensures AddPlainLines(fields, lines) == AddPlainLines(fields, NonBlank(lines))
    decreases |lines|
  {
    if lines != [] {
      BlankLinesIgnored(lines[1..], AddPlainLine(fields, lines[0]));
      if TrimCr(lines[0]) == "" {
        assert NonBlank(lines) == NonBlank(lines[1..]);
      } else {
        assert NonBlank(lines)[1..] == NonBlank(lines[1..]);
      }
    }
  }

  lemma {:induction false} NonBlankLines(lines: seq<Bytes>)
    requires forall i :: 0 <= i < |lines| ==> '\n' !in lines[i]
    ensures forall i :: 0 <= i < |NonBlank(lines)| ==> '\n' !in NonBlank(lines)[i] && TrimCr(NonBlank(lines)[i]) != ""
    decreases |lines|
  {
    if lines != [] {
      NonBlankLines(lines[1..]);
    }
  }

  /** On every body, parsePlainEvent gives the headers readMessage finds in its non-blank lines followed by a blank one. */
  lemma ParsersAgree(body: Bytes, room: nat)
    ensures var block := Unlines(NonBlank(SplitLines(body))) + "\n";
      && ReadHeaders(block, map[]) == HeaderBlock(PlainEvent(body), "")
      && (CONTENT_LENGTH !in PlainEvent(body) ==> ParseMessage(block, room) == (Ok(Message(PlainEvent(body), "")), ""))
  {
    var lines := SplitLines(body);
    NonBlankLines(lines);
    ReadLines(NonBlank(lines), map[]);
    BlankLinesIgnored(lines, map[]);
  }

  lemma SplitFirstLine(line: Bytes, rest: Bytes)
    requires '\n' !in line
    ensures SplitLines(line + "\n" + rest) == [line] + SplitLines(rest)
  {
    var s := line + "\n" + rest;
    assert s == line + ['\n'] + rest;
    IndexInConcatenation(line, '\n', rest);
    assert s[..|line|] == line && s[|line| + 1..] == rest;
  }

  lemma Regroup(a: Bytes, b: Bytes, c: Bytes)
    ensures a + "\n" + b + "\n" + c == a + "\n" + (b + "\n" + c)
  {
  }

  lemma SplitLater(head: Bytes, rest: Bytes, b: Bytes)
    requires '\n' !in head && SplitLines(rest + "\n" + b) == SplitLines(rest) + SplitLines(b)
    ensures SplitLines(head + "\n" + rest + "\n" + b) == SplitLines(head + "\n" + rest) + SplitLines(b)
  {
    hide SplitLines;
    Regroup(head, rest, b);
    SplitFirstLine(head, rest + "\n" + b);
    SplitFirstLine(head, rest);
  }

  lemma CutAt(a: Bytes, k: nat)
    requires k < |a| && a[k] == '\n'
    ensures a == a[..k] + "\n" + a[k + 1..]
  {
  }

  lemma {:induction false} SplitAtNewline(a: Bytes, b: Bytes)
    ensures SplitLines(a + "\n" + b) == SplitLines(a) + SplitLines(b)
    decreases |a|
  {
    var k := IndexOf(a, '\n');
    if k == |a| {
      SplitFirstLine(a, b);
      assert SplitLines(a) == [a];
    } else {
      hide SplitLines;
      CutAt(a, k);
      SplitAtNewline(a[k + 1..], b);
      SplitLater(a[..k], a[k + 1..], b);
    }
  }

  // ---- what each kind of line means ----

  predicate Returns(s: Bytes) {
    forall k :: 0 <= k < |s| ==> s[k] == '\r'
  }

  /** ": " occurs in the line. */
  predicate Separated(line: Bytes) {
    exists k {:trigger line[k]} :: 0 <= k && k + 2 <= |line| && line[k] == ':' && line[k + 1] == ' '
  }

  lemma {:induction false} TrimReturns(line: Bytes, carriage: Bytes)
    requires Returns(carriage) && (line != "" ==> line[|line| - 1] != '\r')
    ensures TrimCr(line + carriage) == line
    decreases |carriage|
  {
    if carriage == "" {
      assert line + carriage == line;
    } else {
      assert (line + carriage)[..|line + carriage| - 1] == line + carriage[..|carriage| - 1];
      TrimReturns(line, carriage[..|carriage| - 1]);
    }
  }

  lemma NoSeparatorInPart(part: Bytes, line: Bytes)
    requires part <= line && !Separated(line)
    ensures forall k :: !SeparatorAt(part, k)
  {
    assert forall k :: 0 <= k < |part| ==> part[k] == line[k];
  }

  lemma NoSeparatorNoField(line: Bytes, headers: Headers)
    requires !Separated(line)
    ensures AddLine(headers, TrimCr(line)) == headers && AddPlainLine(headers, line) == headers
  {
    NoSeparatorInPart(TrimCr(line), line);
    assert Separator(TrimCr(line)) == |TrimCr(line)|;
  }

  lemma FieldIsAdded(field: (Bytes, Bytes), carriage: Bytes, headers: Headers)
    requires FieldOk(field) && Returns(carriage)
    ensures TrimCr(FieldLine(field) + carriage) == FieldLine(field) != ""
    ensures AddLine(headers, FieldLine(field)) == headers[field.0 := field.1]
    ensures AddPlainLine(headers, FieldLine(field) + carriage) == headers[field.0 := field.1]
  {
    var line := FieldLine(field);
    assert line[|line| - 1] == if field.1 == "" then ' ' else field.1[|field.1| - 1];
    TrimReturns(line, carriage);
    AddField(field, headers);
  }

  /** readMessage skips a line without ": ", unless it is empty but for carriage returns: that one ends the header. */
  lemma MalformedLineIsSkipped(line: Bytes, rest: Bytes, headers: Headers)
    requires '\n' !in line && !Separated(line)
    ensures ReadHeaders(line + "\n" + rest, headers) == if Returns(line) then HeaderBlock(headers, rest) else ReadHeaders(rest, headers)
  {
    if Returns(line) {
      assert "" + line == line;
      TrimReturns("", line);
      var input := line + "\n" + rest;
      assert input == line + ['\n'] + rest;
      IndexInConcatenation(line, '\n', rest);
      assert input[..|line| + 1] == line + "\n" && input[|line| + 1..] == rest;
      TrimWithNewline(line);
    } else {
      ReadOneLine(line, rest, headers);
      NoSeparatorNoField(line, headers);
    }
  }

  /** readMessage takes the text before the first ": " as the name and the rest, without carriage returns at its end, as the value. */
  lemma FieldLineIsRead(field: (Bytes, Bytes), carriage: Bytes, rest: Bytes, headers: Headers)
    requires FieldOk(field) && Returns(carriage)
    ensures ReadHeaders(field.0 + ": " + field.1 + carriage + "\n" + rest, headers) == ReadHeaders(rest, headers[field.0 := field.1])
  {
    FieldIsAdded(field, carriage, headers);
    assert '\n' !in FieldLine(field) + carriage;
    ReadOneLine(FieldLine(field) + carriage, rest, headers);
  }

  lemma {:induction false} AddLinesInTurn(fields: Headers, a: seq<Bytes>, b: seq<Bytes>)
    ensures AddPlainLines(fields, a + b) == AddPlainLines(AddPlainLines(fields, a), b)
    decreases |a|
  {
    if a == [] {
      assert a + b == b;
    } else {
      assert (a + b)[0] == a[0] && (a + b)[1..] == a[1..] + b;
      AddLinesInTurn(AddPlainLine(fields, a[0]), a[1..], b);
    }
  }

  /** parsePlainEvent skips a line without ": ", blank or not, wherever it stands. */
  lemma MalformedLineChangesNothing(a: Bytes, line: Bytes, b: Bytes)
    requires '\n' !in line && !Separated(line)
    ensures PlainEvent(a + "\n" + line + "\n" + b) == PlainEvent(a + "\n" + b)
  {
    hide SplitLines, AddPlainLine, Separated;
    Regroup(a, line, b);
    SplitAtNewline(a, line + "\n" + b);
    SplitFirstLine(line, b);
    SplitAtNewline(a, b);
    var before := AddPlainLines(map[], SplitLines(a));
    AddLinesInTurn(map[], SplitLines(a), [line] + SplitLines(b));
    AddLinesInTurn(map[], SplitLines(a), SplitLines(b));
    NoSeparatorNoField(line, before);
    assert ([line] + SplitLines(b))[1..] == SplitLines(b);
  }

  /** What the last line of a body means: nothing without ": ", and otherwise one field that wins over earlier ones of that name. */
  lemma LastLineOfEvent(a: Bytes, line: Bytes, field: (Bytes, Bytes), carriage: Bytes)
    requires '\n' !in line && !Separated(line) && FieldOk(field) && Returns(carriage)
    ensures PlainEvent(line) == map[] && PlainEvent(a + "\n" + line) == PlainEvent(a)
    ensures PlainEvent(field.0 + ": " + field.1 + carriage) == map[field.0 := field.1]
    ensures PlainEvent(a + "\n" + (field.0 + ": " + field.1 + carriage)) == PlainEvent(a)[field.0 := field.1]
  {
    hide AddPlainLine, FieldOk, Separated, Returns, PlainEvent;
    var whole := field.0 + ": " + field.1 + carriage;
    FieldHasNoNewline(field, carriage);
    LastLine(a, line);
    LastLine(a, whole);
    NoSeparatorNoField(line, map[]);
    NoSeparatorNoField(line, PlainEvent(a));
    FieldIsAdded(field, carriage, map[]);
    FieldIsAdded(field, carriage, PlainEvent(a));
  }

  lemma FieldHasNoNewline(field: (Bytes, Bytes), carriage: Bytes)
    requires FieldOk(field) && Returns(carriage)
    ensures '\n' !in field.0 + ": " + field.1 + carriage
  {
  }

  lemma OneLine(line: Bytes, fields: Headers)
    requires '\n' !in line
    ensures AddPlainLines(fields, SplitLines(line)) == AddPlainLine(fields, line)
  {
    hide AddPlainLine;
    var lines := SplitLines(line);
    assert lines == [line] && lines[1..] == [];
    assert AddPlainLines(AddPlainLine(fields, line), lines[1..]) == AddPlainLine(fields, line);
  }

  lemma LastLine(a: Bytes, line: Bytes)
    requires '\n' !in line
    ensures PlainEvent(line) == AddPlainLine(map[], line)
    ensures PlainEvent(a + "\n" + line) == AddPlainLine(PlainEvent(a), line)
  {
    hide AddPlainLine, AddPlainLines, SplitLines;
    OneLine(line, map[]);
    OneLine(line, PlainEvent(a));
    SplitAtNewline(a, line);
    AddLinesInTurn(map[], SplitLines(a), SplitLines(line));
  }

  // ---- white space ----

  /** UTF-8 up to three bytes, one character for each byte. */
  function Utf8(c: int): Bytes
    requires 0 <= c < 0xd800 || 0xe000 <= c < 0x1_0000
  {
    if c < 0x80 then [c as char]
    else if c < 0x800 then [(0xc0 + c / 64) as char, (0x80 + c % 64) as char]
    else [(0xe0 + c / 4096) as char, (0x80 + c / 64 % 64) as char, (0x80 + c % 64) as char]
  }

  /** The white space of TrimSpace is the one of Unicode; that of JavaScript differs in U+0085 and U+FEFF. */
  lemma SpacesOfUnicode(c: int)
    requires 0 <= c < 0xd800 || 0xe000 <= c < 0x1_0000
    ensures IsSpaceRune(Utf8(c)) <==>
      c in {9, 10, 11, 12, 13, 0x20, 0x85, 0xa0, 0x1680, 0x2028, 0x2029, 0x202f, 0x205f, 0x3000} || 0x2000 <= c <= 0x200a
    ensures IsJsSpace(c as char) <==> c == 0xfeff || (c != 0x85 && IsSpaceRune(Utf8(c)))
  {
  }
}
