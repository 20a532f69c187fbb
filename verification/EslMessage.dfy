/**
  FreeSWITCH event socket framing: readMessage and parsePlainEvent over a byte stream.
  A byte is written as the character with that code, as in a Go string.
*/
module EslMessage {
  import opened Options
  import opened Decimals

  type Bytes = string
  type Headers = map<Bytes, Bytes>

  const CONTENT_LENGTH: Bytes := "Content-Length"
  const MAX_INT64: int := 0x7fff_ffff_ffff_ffff

  datatype Message = Message(headers: Headers, body: Bytes)

  /** NoAllocation is the failure of `make`: a panic on a negative or too large length, or no memory left. */
  datatype ReadError = EndOfFile | UnexpectedEndOfFile | InvalidLength | NoAllocation

  datatype ReadResult = Ok(message: Message) | Err(error: ReadError)

  // ---- library functions on strings ----

  /** The position of the first `c`, or |s|. */
  function IndexOf(s: Bytes, c: char): (k: nat)
    ensures k <= |s|
    ensures k < |s| ==> s[k] == c
    ensures forall i :: 0 <= i < k ==> s[i] != c
  {
    if s == [] then 0 else if s[0] == c then 0 else 1 + IndexOf(s[1..], c)
  }

  predicate IsCrLf(c: char) {
    c == '\r' || c == '\n'
  }

  /** strings.TrimRight(s, "\r\n"). */
  function TrimEnd(s: Bytes): (t: Bytes)
    ensures t <= s && (t != [] ==> !IsCrLf(t[|t| - 1]))
    ensures forall i :: |t| <= i < |s| ==> IsCrLf(s[i])
  {
    if s != [] && IsCrLf(s[|s| - 1]) then TrimEnd(s[..|s| - 1]) else s
  }

  /** strings.TrimRight(s, "\r"). */
  function TrimCr(s: Bytes): (t: Bytes)
    ensures t <= s && (t != [] ==> t[|t| - 1] != '\r')
    ensures forall i :: |t| <= i < |s| ==> s[i] == '\r'
  {
    if s != [] && s[|s| - 1] == '\r' then TrimCr(s[..|s| - 1]) else s
  }

  predicate SeparatorAt(s: Bytes, k: int) {
    0 <= k && k + 1 < |s| && s[k] == ':' && s[k + 1] == ' '
  }

  /** The position of the first ": ", or |s|. */
  function Separator(s: Bytes): (k: nat)
    ensures k <= |s|
    ensures k < |s| ==> SeparatorAt(s, k)
    ensures forall i :: 0 <= i < k ==> !SeparatorAt(s, i)
  {
    if s == [] then 0
    else if SeparatorAt(s, 0) then 0
    else
      var k := Separator(s[1..]);
      assert forall i :: 1 <= i ==> (SeparatorAt(s, i) <==> SeparatorAt(s[1..], i - 1));
      1 + k
  }

  /** SplitN(line, ": ", 2) and the assignment: a line without the separator changes nothing. */
  function AddLine(headers: Headers, line: Bytes): Headers {
    var k := Separator(line);
    if k < |line| then headers[line[..k] := line[k + 2..]] else headers
  }

  /** Encodings of the characters that unicode.IsSpace accepts, from one to three bytes. */
  predicate IsSpaceRune(s: Bytes) {
    || (|s| == 1 && (s[0] == ' ' || '\t' <= s[0] <= '\r'))
    || (|s| == 2 && s[0] == '\U{C2}' && (s[1] == '\U{85}' || s[1] == '\U{A0}'))
    || (|s| == 3 && s[0] == '\U{E1}' && s[1] == '\U{9A}' && s[2] == '\U{80}')
    || (|s| == 3 && s[0] == '\U{E2}' && s[1] == '\U{80}'
          && ('\U{80}' <= s[2] <= '\U{8A}' || s[2] == '\U{A8}' || s[2] == '\U{A9}' || s[2] == '\U{AF}'))
    || (|s| == 3 && s[0] == '\U{E2}' && s[1] == '\U{81}' && s[2] == '\U{9F}')
    || (|s| == 3 && s[0] == '\U{E3}' && s[1] == '\U{80}' && s[2] == '\U{80}')
  }

  function TrimSpaceLeft(s: Bytes): Bytes {
    if |s| >= 1 && IsSpaceRune(s[..1]) then TrimSpaceLeft(s[1..])
    else if |s| >= 2 && IsSpaceRune(s[..2]) then TrimSpaceLeft(s[2..])
    else if |s| >= 3 && IsSpaceRune(s[..3]) then TrimSpaceLeft(s[3..])
    else s
  }

  function TrimSpaceRight(s: Bytes): Bytes {
    var n := |s|;
    if n >= 1 && IsSpaceRune(s[n - 1..]) then TrimSpaceRight(s[..n - 1])
    else if n >= 2 && IsSpaceRune(s[n - 2..]) then TrimSpaceRight(s[..n - 2])
    else if n >= 3 && IsSpaceRune(s[n - 3..]) then TrimSpaceRight(s[..n - 3])
    else s
  }

  function TrimSpace(s: Bytes): Bytes {
    TrimSpaceRight(TrimSpaceLeft(s))
  }

  predicate AllDigits(s: Bytes) {
    s != [] && forall k :: 0 <= k < |s| ==> IsDigit(s[k])
  }

  /** strconv.Atoi on a 64-bit platform. */
  function Atoi(s: Bytes): Option<int> {
    var negative := s != [] && s[0] == '-';
    var digits := if s != [] && (s[0] == '-' || s[0] == '+') then s[1..] else s;
    if !AllDigits(digits) then None
    else
      var n: int := Value(digits);
      if negative then (if n <= MAX_INT64 + 1 then Some(-n) else None)
      else (if n <= MAX_INT64 then Some(n) else None)
  }

  // ---- readMessage as a function of the unread bytes ----

  datatype HeaderResult = HeaderBlock(headers: Headers, rest: Bytes) | HeaderEof

  /** Lines up to the first one that is empty after trimming; the last of two equal names wins. */
  function ReadHeaders(input: Bytes, headers: Headers): HeaderResult
    decreases |input|
  {
    var k := IndexOf(input, '\n');
    if k == |input| then HeaderEof
    else
      var line := TrimEnd(input[..k + 1]);
      if line == "" then HeaderBlock(headers, input[k + 1..])
      else ReadHeaders(input[k + 1..], AddLine(headers, line))
  }

  /** The body that the headers announce, and what is left unread; `room` is the longest buffer that can be allocated. */
  function ReadBody(headers: Headers, rest: Bytes, room: nat): (ReadResult, Bytes) {
    if CONTENT_LENGTH !in headers then (Ok(Message(headers, "")), rest)
    else
      match Atoi(TrimSpace(headers[CONTENT_LENGTH]))
      case None => (Err(InvalidLength), rest)
      case Some(length) =>
        if length < 0 || length > room then (Err(NoAllocation), rest)
        else if length <= |rest| then (Ok(Message(headers, rest[..length])), rest[length..])
        else if rest == "" then (Err(EndOfFile), "")
        else (Err(UnexpectedEndOfFile), "")
  }

  function ParseMessage(input: Bytes, room: nat): (ReadResult, Bytes) {
    match ReadHeaders(input, map[])
    case HeaderEof => (Err(EndOfFile), "")
    case HeaderBlock(headers, rest) => ReadBody(headers, rest, room)
  }

  // ---- the buffered reader and the loops over it ----

  class Reader {
    const stream: Bytes
    var pos: nat

    predicate Valid()
      reads this
    {
      pos <= |stream|
    }

    function Rest(): Bytes
      requires Valid()
      reads this
    {
      stream[pos..]
    }

    constructor (stream: Bytes)
      ensures Valid() && Rest() == stream
    {
      this.stream, pos := stream, 0;
    }

    /** ReadString('\n'): a line with its newline, or an error after consuming everything. */
    method ReadLine() returns (line: Bytes, ok: bool)
      requires Valid()
      modifies this
      ensures Valid()
      ensures var k := IndexOf(old(Rest()), '\n');
        if k < |old(Rest())| then ok && line == old(Rest())[..k + 1] && Rest() == old(Rest())[k + 1..]
        else !ok && Rest() == ""
    {
      var start := pos;
      ghost var rest := Rest();
      while pos < |stream| && stream[pos] != '\n'
        invariant start <= pos <= |stream|
        invariant forall i :: start <= i < pos ==> stream[i] != '\n'
      {
        pos := pos + 1;
      }
      ghost var k := IndexOf(rest, '\n');
      assert forall i :: 0 <= i < |rest| ==> rest[i] == stream[start + i];
      if pos == |stream| {
        assert k == |rest|;
        return "", false;
      }
      assert rest[pos - start] == '\n';
      assert k == pos - start;
      pos := pos + 1;
      return stream[start..pos], true;
    }

    /** io.ReadFull into a buffer of `n` bytes. */
    method ReadFull(n: nat) returns (buf: Bytes, error: Option<ReadError>)
      requires Valid()
      modifies this
      ensures Valid()
      ensures n <= |old(Rest())| ==> error.None? && buf == old(Rest())[..n] && Rest() == old(Rest())[n..]
      ensures n > |old(Rest())| ==> Rest() == ""
      ensures n > |old(Rest())| ==> error == Some(if old(Rest()) == "" then EndOfFile else UnexpectedEndOfFile)
    {
      buf := "";
      ghost var rest := Rest();
      while |buf| < n && pos < |stream|
        invariant pos <= |stream| && |buf| <= n && |buf| <= |rest|
        invariant buf == rest[..|buf|] && Rest() == rest[|buf|..]
        decreases |stream| - pos
      {
        assert rest[|buf|] == stream[pos];
        buf := buf + [stream[pos]];
        pos := pos + 1;
      }
      if |buf| == n {
        return buf, None;
      }
      return buf, Some(if |buf| == 0 then EndOfFile else UnexpectedEndOfFile);
    }

    /** `room` is the longest buffer that can be allocated. */
    method ReadMessage(room: nat) returns (r: ReadResult)
      requires Valid()
      modifies this
      ensures Valid() && (r, Rest()) == ParseMessage(old(Rest()), room)
    {
      ghost var input := Rest();
      var headers: Headers := map[];
      var reading := true;
      while reading
        invariant Valid()
        invariant reading ==> ReadHeaders(Rest(), headers) == ReadHeaders(input, map[])
        invariant !reading ==> ReadHeaders(input, map[]) == HeaderBlock(headers, Rest())
        decreases reading, |Rest()|
      {
        var line, ok := ReadLine();
        if !ok {
          return Err(EndOfFile);
        }
        line := TrimEnd(line);
        if line == "" {
          reading := false;
        } else {
          headers := AddLine(headers, line);
        }
      }
      if CONTENT_LENGTH !in headers {
        return Ok(Message(headers, ""));
      }
      match Atoi(TrimSpace(headers[CONTENT_LENGTH])) {
        case None => return Err(InvalidLength);
        case Some(length) =>
          if length < 0 || length > room {
            return Err(NoAllocation);
          }
          var body, error := ReadFull(length);
          match error {
            case Some(e) => return Err(e);
            case None => return Ok(Message(headers, body));
          }
      }
    }
  }

  // ---- parsePlainEvent ----

  /** strings.Split(body, "\n"). */
  function SplitLines(body: Bytes): (lines: seq<Bytes>)
    ensures lines != []
    ensures forall i :: 0 <= i < |lines| ==> '\n' !in lines[i]
    decreases |body|
  {
    var k := IndexOf(body, '\n');
    if k == |body| then [body] else [body[..k]] + SplitLines(body[k + 1..])
  }

  function AddPlainLine(fields: Headers, raw: Bytes): Headers {
    var line := TrimCr(raw);
    if line == "" then fields else AddLine(fields, line)
  }

  function AddPlainLines(fields: Headers, lines: seq<Bytes>): Headers
    decreases |lines|
  {
    if lines == [] then fields else AddPlainLines(AddPlainLine(fields, lines[0]), lines[1..])
  }

  function PlainEvent(body: Bytes): Headers {
    AddPlainLines(map[], SplitLines(body))
  }

  method ParsePlainEvent(body: Bytes) returns (fields: Headers)
    ensures fields == PlainEvent(body)
  {
    fields := map[];
    var lines := SplitLines(body);
    var i := 0;
    while i < |lines|
      invariant i <= |lines| && AddPlainLines(fields, lines[i..]) == PlainEvent(body)
    {
      var line := TrimCr(lines[i]);
      assert lines[i..][1..] == lines[i + 1..];
      i := i + 1;
      if line == "" {
        continue;
      }
      var k := Separator(line);
      if k < |line| {
        fields := fields[line[..k] := line[k + 2..]];
      }
    }
  }
}
