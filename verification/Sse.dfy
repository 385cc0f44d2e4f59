/** Server-sent events: the printer for Anthropic events and the line parser that reads them back. */
module Sse {
  import opened Wrappers
  import opened SeqFacts
  import opened Text

  /** JSON as the parser sees it: text to value, and objects with or without a type field. Which characters
      `strip` removes is left open. */
  datatype Json<!J> = Json(
    parse: string -> Option<J>, isObject: J -> bool, hasType: J -> bool, withType: (J, string) -> J,
    space: char -> bool)

  /** An event's type and its serialized payload. */
  datatype Message = Message(kind: string, payload: string)

  function FormatAnthropicSse(m: Message): string {
    "event: " + m.kind + "\ndata: " + m.payload + "\n\n"
  }

  function FormatAll(ms: seq<Message>): string {
    if ms == [] then "" else FormatAnthropicSse(ms[0]) + FormatAll(ms[1..])
  }

  // ----- Lines -----------------------------------------------------------------

  /** The characters Python's `str.splitlines` breaks at, as the client library's line reader does. */
  predicate SplitsLine(c: char) {
    c in {'\n', '\r', '\U{000B}', '\U{000C}', '\U{001C}', '\U{001D}', '\U{001E}', '\U{0085}', '\U{2028}', '\U{2029}'}
  }

  /** A set of line breaks that holds the line feed and leaves the two field names in one piece. */
  predicate LineBreaks(br: char -> bool) {
    && br('\n') && !br('e') && !br('v') && !br('n') && !br('t') && !br('d') && !br('a') && !br(':') && !br(' ')
  }

  /** Position of the first character that breaks a line. */
  function BreakAt(br: char -> bool, s: string): (k: nat)
    ensures k <= |s| && (k < |s| ==> br(s[k])) && forall i :: 0 <= i < k ==> !br(s[i])
  {
    if s == "" || br(s[0]) then 0 else 1 + BreakAt(br, s[1..])
  }

  /** The lines of a text; a carriage return and a line feed are one break, and a break at the end starts no
      further line. */
  function Lines(br: char -> bool, s: string): seq<string>
    decreases |s|
  {
    if s == "" then []
    else
      var k := BreakAt(br, s);
      if k == |s| then [s]
      else [s[..k]] + Lines(br, s[k + BreakLength(s, k)..])
  }

  /** A carriage return with its line feed is two characters long. */
  function BreakLength(s: string, k: nat): (n: nat)
    requires k < |s|
    ensures 1 <= n && k + n <= |s|
  {
    if s[k] == '\r' && k + 1 < |s| && s[k + 1] == '\n' then 2 else 1
  }

  ghost predicate OneLine(br: char -> bool, s: string) {
    forall i :: 0 <= i < |s| ==> !br(s[i])
  }

  lemma BreakIsAt(br: char -> bool, line: string, b: char, rest: string)
    requires OneLine(br, line) && br(b)
    ensures BreakAt(br, line + [b] + rest) == |line|
  {
    var s := line + [b] + rest;
    assert s[|line|] == b;
    assert forall i :: 0 <= i < |line| ==> s[i] == line[i];
  }

  lemma FirstLine(br: char -> bool, line: string, b: char, rest: string, s: string)
    requires OneLine(br, line) && br(b) && b != '\r' && s == line + [b] + rest
    ensures Lines(br, s) == [line] + Lines(br, rest)
  {
    BreakIsAt(br, line, b, rest);
    assert s[..|line|] == line && s[|line| + 1..] == rest && s[|line|] == b;
  }

  // ----- The parser ------------------------------------------------------------------

  datatype Reader<J> = Reader(event: Option<string>, yielded: seq<J>)

  /** What one data text yields while `event` is current. */
  function Payload<J>(c: Json<J>, event: Option<string>, data: string): seq<J> {
    if data == "" || c.parse(data).None? || !c.isObject(c.parse(data).value) then []
    else
      var j := c.parse(data).value;
      [if event.Some? && event.value != "" && !c.hasType(j) then c.withType(j, event.value) else j]
  }

  function LineStep<J>(c: Json<J>, r: Reader<J>, line: string): Reader<J> {
    if line == "" then r.(event := None)
    else if "event:" <= line then r.(event := Some(Strip(c.space, line[6..])))
    else if "data:" <= line then r.(yielded := r.yielded + Payload(c, r.event, Strip(c.space, line[5..])))
    else r
  }

  function Read<J>(c: Json<J>, r: Reader<J>, lines: seq<string>): Reader<J> {
    if lines == [] then r else LineStep(c, Read(c, r, lines[..|lines| - 1]), lines[|lines| - 1])
  }

  method ParseAnthropicSse<J>(c: Json<J>, lines: seq<string>) returns (events: seq<J>)
    ensures events == Read(c, Reader(None, []), lines).yielded
  {
    var currentEvent: Option<string> := None;
    events := [];
    for i := 0 to |lines|
      invariant Read(c, Reader(None, []), lines[..i]) == Reader(currentEvent, events)
    {
      assert lines[..i + 1][..i] == lines[..i];
      var line := lines[i];
      if line == "" {
        currentEvent := None;
      } else if "event:" <= line {
        currentEvent := Some(Strip(c.space, line[6..]));
      } else if "data:" <= line {
        var data := Strip(c.space, line[5..]);
        if data != "" {
          var payload := c.parse(data);
          if payload.Some? && c.isObject(payload.value) {
            var event := payload.value;
            if currentEvent.Some? && currentEvent.value != "" && !c.hasType(event) {
              event := c.withType(event, currentEvent.value);
            }
            events := events + [event];
          }
        }
      }
    }
    assert lines[..|lines|] == lines;
  }

  lemma {:induction false} ReadConcat<J>(c: Json<J>, r: Reader<J>, a: seq<string>, b: seq<string>)
    ensures Read(c, r, a + b) == Read(c, Read(c, r, a), b)
  {
    if b == [] {
      assert a + b == a;
    } else {
      var n := |b| - 1;
      assert (a + b)[..|a| + n] == a + b[..n];
      ReadConcat(c, r, a, b[..n]);
    }
  }

  // ----- Printing and parsing ------------------------------------------------------------

  /** What a printed message is read as: nothing unless its payload is an object, which gets the message's type if
      it has none of its own. */
  function Yields<J>(c: Json<J>, m: Message): seq<J> {
    Payload(c, Some(Strip(c.space, " " + m.kind)), Strip(c.space, " " + m.payload))
  }

  function AllYields<J>(c: Json<J>, ms: seq<Message>): seq<J> {
    if ms == [] then [] else Yields(c, ms[0]) + AllYields(c, ms[1..])
  }

  lemma ConsThree(a: string, b: string, d: string, rest: seq<string>)
    ensures [a] + ([b] + ([d] + rest)) == [a, b, d] + rest
  {
  }

  lemma ThreeLines(br: char -> bool, first: string, second: string, rest: string, s: string)
    requires br('\n') && OneLine(br, first) && OneLine(br, second) &&
             s == first + "\n" + (second + "\n" + ("" + "\n" + rest))
    ensures Lines(br, s) == [first, second, ""] + Lines(br, rest)
  {
    var blank := "" + "\n" + rest;
    var data := second + "\n" + blank;
    FirstLine(br, "", '\n', rest, blank);
    FirstLine(br, second, '\n', blank, data);
    FirstLine(br, first, '\n', data, s);
    ConsThree(first, second, "", Lines(br, rest));
  }

  lemma FormatGroups(m: Message, rest: string)
    ensures FormatAnthropicSse(m) + rest == ("event: " + m.kind) + "\n" +
            (("data: " + m.payload) + "\n" + ("" + "\n" + rest))
  {
    assert "\ndata: " == "\n" + "data: " && "\n\n" == "\n" + "\n" && "" + "\n" == "\n";
  }

  lemma FieldLines(br: char -> bool, text: string)
    requires LineBreaks(br) && OneLine(br, text)
    ensures OneLine(br, "event: " + text) && OneLine(br, "data: " + text)
  {
    NamesAreWhole(br);
    assert forall i :: 7 <= i < 7 + |text| ==> ("event: " + text)[i] == text[i - 7];
    assert forall i :: 6 <= i < 6 + |text| ==> ("data: " + text)[i] == text[i - 6];
  }

  lemma NamesAreWhole(br: char -> bool)
    requires LineBreaks(br)
    ensures OneLine(br, "event: ") && OneLine(br, "data: ")
  {
  }

  lemma MessageLines(br: char -> bool, m: Message, rest: string)
    requires LineBreaks(br) && OneLine(br, m.kind) && OneLine(br, m.payload)
    ensures Lines(br, FormatAnthropicSse(m) + rest) == ["event: " + m.kind, "data: " + m.payload, ""] + Lines(br, rest)
  {
    FormatGroups(m, rest);
    FieldLines(br, m.kind);
    FieldLines(br, m.payload);
    ThreeLines(br, "event: " + m.kind, "data: " + m.payload, rest, FormatAnthropicSse(m) + rest);
  }

  lemma ReadSnoc<J>(c: Json<J>, r: Reader<J>, lines: seq<string>, line: string)
    ensures Read(c, r, lines + [line]) == LineStep(c, Read(c, r, lines), line)
  {
    assert (lines + [line])[..|lines|] == lines;
  }

  lemma ReadThree<J>(c: Json<J>, r: Reader<J>, a: string, b: string, d: string)
    ensures Read(c, r, [a, b, d]) == LineStep(c, LineStep(c, LineStep(c, r, a), b), d)
  {
    ReadSnoc(c, r, [], a);
    assert [] + [a] == [a] && [a] + [b] == [a, b] && [a, b] + [d] == [a, b, d];
    ReadSnoc(c, r, [a], b);
    ReadSnoc(c, r, [a, b], d);
  }

  lemma MessageIsRead<J>(c: Json<J>, r: Reader<J>, m: Message)
    ensures Read(c, r, ["event: " + m.kind, "data: " + m.payload, ""]) == Reader(None, r.yielded + Yields(c, m))
  {
    var first, second := "event: " + m.kind, "data: " + m.payload;
    ReadThree(c, r, first, second, "");
    assert "event:" + " " == "event: " && "data:" + " " == "data: ";
    assert first == "event:" + (" " + m.kind) && second == "data:" + (" " + m.payload);
    assert first[6..] == " " + m.kind && second[5..] == " " + m.payload;
    assert second[0] == 'd';
  }

  lemma OneMessageMore<J>(br: char -> bool, c: Json<J>, r: Reader<J>, m: Message, rest: string)
    requires LineBreaks(br) && OneLine(br, m.kind) && OneLine(br, m.payload)
    ensures Read(c, r, Lines(br, FormatAnthropicSse(m) + rest)) ==
            Read(c, Reader(None, r.yielded + Yields(c, m)), Lines(br, rest))
  {
    MessageLines(br, m, rest);
    ReadConcat(c, r, ["event: " + m.kind, "data: " + m.payload, ""], Lines(br, rest));
    MessageIsRead(c, r, m);
  }

  /** A printed stream is read message by message: each yields what it yields on its own, and no type leaks from
      one to the next. */
  lemma {:induction false} StreamIsRead<J>(br: char -> bool, c: Json<J>, r: Reader<J>, ms: seq<Message>)
    requires LineBreaks(br) && r.event.None? && forall m :: m in ms ==> OneLine(br, m.kind) && OneLine(br, m.payload)
    ensures Read(c, r, Lines(br, FormatAll(ms))) == Reader(None, r.yielded + AllYields(c, ms))
    decreases |ms|
  {
    if ms == [] {
      assert r.yielded + [] == r.yielded;
    } else {
      assert ms[0] in ms;
      OneMessageMore(br, c, r, ms[0], FormatAll(ms[1..]));
      StreamIsRead(br, c, Reader(None, r.yielded + Yields(c, ms[0])), ms[1..]);
      Regroup(r.yielded, Yields(c, ms[0]), AllYields(c, ms[1..]));
    }
  }

  /** A printed event: an object with a type, serialized without a line break, with no whitespace at its ends. */
  ghost predicate Prints<J>(br: char -> bool, c: Json<J>, m: Message, event: J) {
    && OneLine(br, m.kind) && OneLine(br, m.payload)
    && m.payload != "" && !c.space(m.payload[0]) && !c.space(m.payload[|m.payload| - 1])
    && c.parse(m.payload) == Some(event) && c.isObject(event) && c.hasType(event)
  }

  /** Printing any sequence of events, splitting the text into lines and parsing it gives the events back, in order
      and nothing else. */
  lemma {:induction false} EventsRoundTrip<J>(br: char -> bool, c: Json<J>, ms: seq<Message>, events: seq<J>)
    requires LineBreaks(br) && c.space(' ') && |ms| == |events|
    requires forall i :: 0 <= i < |ms| ==> Prints(br, c, ms[i], events[i])
    ensures Read(c, Reader(None, []), Lines(br, FormatAll(ms))).yielded == events
  {
    StreamIsRead(br, c, Reader(None, []), ms);
    AllAreYielded(br, c, ms, events);
    assert [] + AllYields(c, ms) == AllYields(c, ms);
  }

  lemma {:induction false} AllAreYielded<J>(br: char -> bool, c: Json<J>, ms: seq<Message>, events: seq<J>)
    requires LineBreaks(br) && c.space(' ') && |ms| == |events|
    requires forall i :: 0 <= i < |ms| ==> Prints(br, c, ms[i], events[i])
    ensures AllYields(c, ms) == events
  {
    if ms != [] {
      StripSpace(c.space, ms[0].payload);
      assert Prints(br, c, ms[0], events[0]);
      AllAreYielded(br, c, ms[1..], events[1..]);
      assert events == [events[0]] + events[1..];
    }
  }

  /** The round trip as the client library splits lines. */
  lemma EventsRoundTripInPython<J>(c: Json<J>, ms: seq<Message>, events: seq<J>)
    requires c.space(' ') && |ms| == |events|
    requires forall i :: 0 <= i < |ms| ==> Prints(SplitsLine, c, ms[i], events[i])
    ensures Read(c, Reader(None, []), Lines(SplitsLine, FormatAll(ms))).yielded == events
  {
    PythonBreaks();
    EventsRoundTrip(SplitsLine, c, ms, events);
  }

  // ----- A line break inside a payload --------------------------------------------------------

  lemma LastTwoLines(br: char -> bool, more: string)
    requires br('\n') && OneLine(br, more)
    ensures Lines(br, more + "\n" + "\n") == [more, ""]
  {
    assert "" + ['\n'] + "" == "\n";
    FirstLine(br, "", '\n', "", "\n");
    FirstLine(br, more, '\n', "\n", more + "\n" + "\n");
  }

  lemma TwoLinesThen(br: char -> bool, event: string, data: string, b: char, rest: string, s: string)
    requires br('\n') && br(b) && b != '\r' && OneLine(br, event) && OneLine(br, data)
    requires s == event + "\n" + (data + [b] + rest)
    ensures Lines(br, s) == [event, data] + Lines(br, rest)
  {
    FirstLine(br, data, b, rest, data + [b] + rest);
    FirstLine(br, event, '\n', data + [b] + rest, s);
    assert [event] + ([data] + Lines(br, rest)) == [event, data] + Lines(br, rest);
  }

  lemma BrokenGroups(m: Message, first: string, b: char, second: string)
    requires m.payload == first + [b] + second
    ensures FormatAnthropicSse(m) == ("event: " + m.kind) + "\n" + (("data: " + first) + [b] + (second + "\n" + "\n"))
  {
    assert "\ndata: " == "\n" + "data: " && "\n\n" == "\n" + "\n";
  }

  lemma ReadFour<J>(c: Json<J>, r: Reader<J>, a: string, b: string, d: string, e: string)
    ensures Read(c, r, [a, b, d, e]) == LineStep(c, LineStep(c, LineStep(c, LineStep(c, r, a), b), d), e)
  {
    ReadThree(c, r, a, b, d);
    assert [a, b, d] + [e] == [a, b, d, e];
    ReadSnoc(c, r, [a, b, d], e);
  }

  lemma FieldsAreRead<J>(c: Json<J>, r: Reader<J>, kind: string, first: string)
    ensures LineStep(c, r, "event: " + kind) == r.(event := Some(Strip(c.space, " " + kind)))
    ensures LineStep(c, r, "data: " + first) ==
            r.(yielded := r.yielded + Payload(c, r.event, Strip(c.space, " " + first)))
  {
    assert "event:" + " " == "event: " && "data:" + " " == "data: ";
    assert "event: " + kind == "event:" + (" " + kind) && "data: " + first == "data:" + (" " + first);
    assert ("event: " + kind)[6..] == " " + kind && ("data: " + first)[5..] == " " + first;
    assert ("data: " + first)[0] == 'd';
  }

  /** A payload with a line break inside is cut in two: if its first part is no JSON text of its own and the rest
      looks like no field, the event is lost. */
  lemma BrokenPayloadIsLost<J>(br: char -> bool, c: Json<J>, m: Message, first: string, b: char, second: string)
    requires LineBreaks(br) && br(b) && b != '\r' && m.payload == first + [b] + second
    requires OneLine(br, m.kind) && OneLine(br, first) && OneLine(br, second)
    requires c.parse(Strip(c.space, " " + first)) == None && !("event:" <= second) && !("data:" <= second)
    ensures Read(c, Reader(None, []), Lines(br, FormatAnthropicSse(m))) == Reader(None, [])
  {
    var event, data := "event: " + m.kind, "data: " + first;
    BrokenGroups(m, first, b, second);
    FieldLines(br, m.kind);
    FieldLines(br, first);
    LastTwoLines(br, second);
    TwoLinesThen(br, event, data, b, second + "\n" + "\n", FormatAnthropicSse(m));
    assert [event, data] + [second, ""] == [event, data, second, ""];
    ReadFour(c, Reader(None, []), event, data, second, "");
    FieldsAreRead(c, Reader(None, []), m.kind, first);
    FieldsAreRead(c, Reader(Some(Strip(c.space, " " + m.kind)), []), m.kind, first);
  }

  lemma PythonBreaks()
    ensures LineBreaks(SplitsLine)
  {
  }

  // ----- Messages one by one, broken or not -------------------------------------------------------

  /** What one printed message is read as on its own. */
  function ReadAlone<J>(br: char -> bool, c: Json<J>, m: Message): seq<J> {
    Read(c, Reader(None, []), Lines(br, FormatAnthropicSse(m))).yielded
  }

  function AllReadAlone<J>(br: char -> bool, c: Json<J>, ms: seq<Message>): seq<J> {
    if ms == [] then [] else AllReadAlone(br, c, ms[..|ms| - 1]) + ReadAlone(br, c, ms[|ms| - 1])
  }

  lemma BreakAtFront(br: char -> bool, t: string, rest: string)
    requires BreakAt(br, t) < |t|
    ensures BreakAt(br, t + rest) == BreakAt(br, t)
  {
    var k := BreakAt(br, t);
    assert forall i :: 0 <= i <= k ==> (t + rest)[i] == t[i];
  }

  lemma BreakLengthFront(t: string, rest: string, k: nat)
    requires k < |t| && t[|t| - 1] == '\n'
    ensures BreakLength(t + rest, k) == BreakLength(t, k)
  {
    assert (t + rest)[k] == t[k];
    if k + 1 < |t| { assert (t + rest)[k + 1] == t[k + 1]; }
  }

  lemma LinesStep(br: char -> bool, s: string, k: nat, next: nat)
    requires k == BreakAt(br, s) < |s| && next == k + BreakLength(s, k)
    ensures Lines(br, s) == [s[..k]] + Lines(br, s[next..])
  {
  }

  lemma LastBreaks(br: char -> bool, t: string)
    requires br('\n') && t != "" && t[|t| - 1] == '\n'
    ensures BreakAt(br, t) < |t|
  {
  }

  lemma Slices(t: string, rest: string, k: nat, next: nat)
    requires k <= |t| && next <= |t|
    ensures (t + rest)[..k] == t[..k] && (t + rest)[next..] == t[next..] + rest
  {
  }

  lemma ConcatStep(br: char -> bool, s: string, t: string, rest: string, k: nat, next: nat)
    requires s == t + rest && k == BreakAt(br, t) < |t| && next == k + BreakLength(t, k) && t[|t| - 1] == '\n'
    ensures Lines(br, s) == [t[..k]] + Lines(br, t[next..] + rest)
  {
    BreakAtFront(br, t, rest);
    BreakLengthFront(t, rest, k);
    Slices(t, rest, k, next);
    LinesStep(br, s, k, next);
  }

  /** A line feed always ends a line. */
  lemma {:induction false} LinesConcat(br: char -> bool, t: string, rest: string)
    requires br('\n') && (t != "" ==> t[|t| - 1] == '\n')
    ensures Lines(br, t + rest) == Lines(br, t) + Lines(br, rest)
    decreases |t|
  {
    if t == "" {
      assert t + rest == rest;
    } else {
      LastBreaks(br, t);
      var k := BreakAt(br, t);
      var next := k + BreakLength(t, k);
      ConcatStep(br, t + rest, t, rest, k, next);
      LinesStep(br, t, k, next);
      LinesConcat(br, t[next..], rest);
      Regroup([t[..k]], Lines(br, t[next..]), Lines(br, rest));
    }
  }

  lemma {:induction false} ReadAppends<J>(c: Json<J>, event: Option<string>, had: seq<J>, lines: seq<string>)
    ensures var r := Read(c, Reader(event, []), lines);
            Read(c, Reader(event, had), lines) == Reader(r.event, had + r.yielded)
  {
    if lines != [] { ReadAppends(c, event, had, lines[..|lines| - 1]); }
  }

  lemma {:induction false} FormatAllSnoc(ms: seq<Message>, m: Message)
    ensures FormatAll(ms + [m]) == FormatAll(ms) + FormatAnthropicSse(m)
  {
    if ms == [] {
      assert [m][1..] == [] && FormatAll([]) == "";
      assert [] + [m] == [m];
    } else {
      assert (ms + [m])[1..] == ms[1..] + [m];
      FormatAllSnoc(ms[1..], m);
      Regroup(FormatAnthropicSse(ms[0]), FormatAll(ms[1..]), FormatAnthropicSse(m));
    }
  }

  /** A printed message ends with a blank line, whatever it holds. */
  lemma MessageEnds(br: char -> bool, m: Message) returns (head: string)
    requires br('\n')
    ensures FormatAnthropicSse(m) == head + "\n" && Lines(br, FormatAnthropicSse(m)) == Lines(br, head) + [""]
  {
    head := "event: " + m.kind + "\ndata: " + m.payload + "\n";
    assert "\n\n" == "\n" + "\n";
    LinesConcat(br, head, "\n");
    assert "" + ['\n'] + "" == "\n";
    FirstLine(br, "", '\n', "", "\n");
  }

  lemma MessageReadAlone<J>(br: char -> bool, c: Json<J>, had: seq<J>, m: Message)
    requires br('\n')
    ensures Read(c, Reader(None, had), Lines(br, FormatAnthropicSse(m))) == Reader(None, had + ReadAlone(br, c, m))
  {
    var head := MessageEnds(br, m);
    ReadSnoc(c, Reader(None, []), Lines(br, head), "");
    ReadAppends(c, None, had, Lines(br, head) + [""]);
  }

  lemma StreamEnds(ms: seq<Message>)
    ensures FormatAll(ms) != "" ==> FormatAll(ms)[|FormatAll(ms)| - 1] == '\n'
  {
    if ms != [] {
      var n := |ms| - 1;
      FormatAllSnoc(ms[..n], ms[n]);
      assert ms[..n] + [ms[n]] == ms;
      var head := MessageEnds(c => c == '\n', ms[n]);
    }
  }

  lemma FrontThenLast<J>(br: char -> bool, c: Json<J>, front: string, m: Message, had: seq<J>)
    requires br('\n') && (front != "" ==> front[|front| - 1] == '\n')
    requires Read(c, Reader(None, []), Lines(br, front)) == Reader(None, had)
    ensures Read(c, Reader(None, []), Lines(br, front + FormatAnthropicSse(m))) ==
            Reader(None, had + ReadAlone(br, c, m))
  {
    LinesConcat(br, front, FormatAnthropicSse(m));
    ReadConcat(c, Reader(None, []), Lines(br, front), Lines(br, FormatAnthropicSse(m)));
    MessageReadAlone(br, c, had, m);
  }

  lemma AllReadAloneSnoc<J>(br: char -> bool, c: Json<J>, front: seq<Message>, m: Message)
    ensures AllReadAlone(br, c, front + [m]) == AllReadAlone(br, c, front) + ReadAlone(br, c, m)
  {
    assert (front + [m])[..|front|] == front;
  }

  lemma OneMoreReadAlone<J>(br: char -> bool, c: Json<J>, front: seq<Message>, m: Message)
    requires br('\n') && Read(c, Reader(None, []), Lines(br, FormatAll(front))) ==
             Reader(None, AllReadAlone(br, c, front))
    ensures Read(c, Reader(None, []), Lines(br, FormatAll(front + [m]))) ==
            Reader(None, AllReadAlone(br, c, front + [m]))
  {
    StreamEnds(front);
    FrontThenLast(br, c, FormatAll(front), m, AllReadAlone(br, c, front));
    FormatAllSnoc(front, m);
    AllReadAloneSnoc(br, c, front, m);
  }

  /** Every stream is read message by message. */
  lemma {:induction false} StreamReadAlone<J>(br: char -> bool, c: Json<J>, ms: seq<Message>)
    requires br('\n')
    ensures Read(c, Reader(None, []), Lines(br, FormatAll(ms))) == Reader(None, AllReadAlone(br, c, ms))
  {
    if ms != [] {
      var n := |ms| - 1;
      StreamReadAlone(br, c, ms[..n]);
      OneMoreReadAlone(br, c, ms[..n], ms[n]);
      TakeMore(ms, n);
      assert ms[..n + 1] == ms;
    }
  }

  // ----- Exactly when events come back ------------------------------------------------------------

  /** Reading the text could yield the event, under some current event name. */
  ghost predicate ReadsAs<J>(c: Json<J>, text: string, event: J) {
    exists name :: Payload(c, name, Strip(c.space, text)) == [event]
  }

  /** No proper part of a payload reads as the event itself; an object's text holds no copy of the object. */
  ghost predicate NoInnerCopy<J>(c: Json<J>, payload: string, event: J) {
    forall i, j :: 0 <= i <= j <= |payload| && j - i < |payload| ==> !ReadsAs(c, payload[i..j], event)
  }

  /** A typed object as the serializer prints it, line breaks or not. */
  ghost predicate Serializes<J>(br: char -> bool, c: Json<J>, m: Message, event: J) {
    && OneLine(br, m.kind)
    && m.payload != "" && !c.space(m.payload[0]) && !c.space(m.payload[|m.payload| - 1])
    && c.parse(m.payload) == Some(event) && c.isObject(event) && c.hasType(event)
    && NoInnerCopy(c, m.payload, event)
  }

  /** A line of a text is a part of it without a break. */
  ghost predicate IsPart(br: char -> bool, s: string, line: string, i: int) {
    0 <= i && i + |line| <= |s| && s[i..i + |line|] == line && OneLine(br, line)
  }

  lemma PartOfRest(br: char -> bool, s: string, next: nat, line: string, j: int)
    requires next <= |s| && IsPart(br, s[next..], line, j)
    ensures IsPart(br, s, line, next + j)
  {
    assert s[next + j..next + j + |line|] == s[next..][j..j + |line|];
  }

  lemma {:induction false} LinesAreParts(br: char -> bool, s: string, line: string) returns (i: int)
    requires line in Lines(br, s)
    ensures IsPart(br, s, line, i)
    decreases |s|
  {
    var k := BreakAt(br, s);
    if line == s[..k] {
      i := 0;
    } else {
      var next := k + BreakLength(s, k);
      LinesStep(br, s, k, next);
      var j := LinesAreParts(br, s[next..], line);
      PartOfRest(br, s, next, line, j);
      i := next + j;
    }
  }

  /** Whatever is yielded came from a data line. */
  lemma {:induction false} YieldedFromLine<J>(c: Json<J>, r: Reader<J>, lines: seq<string>, e: J) returns (line: string)
    requires exists k :: 0 <= k < |Read(c, r, lines).yielded| && Read(c, r, lines).yielded[k] == e
    requires r.yielded == []
    ensures line in lines && "data:" <= line && ReadsAs(c, line[5..], e)
  {
    var front, last := lines[..|lines| - 1], lines[|lines| - 1];
    var before := Read(c, r, front);
    if k :| 0 <= k < |before.yielded| && before.yielded[k] == e {
      line := YieldedFromLine(c, r, front, e);
    } else {
      line := last;
      var more := Payload(c, before.event, Strip(c.space, last[5..]));
      assert |more| <= 1 && more == [e];
    }
  }

  lemma StripLeadingSpace(space: char -> bool, s: string)
    requires space(' ')
    ensures Strip(space, " " + s) == Strip(space, s)
  {
    assert (" " + s)[0] == ' ' && (" " + s)[1..] == s;
  }

  /** A part without a break stays in front of a break. */
  lemma PartStopsAtBreak(br: char -> bool, s: string, line: string, i: int, end: int)
    requires IsPart(br, s, line, i) && i <= end < |s| && br(s[end])
    ensures i + |line| <= end
  {
    assert forall k :: 0 <= k < |line| ==> s[i + k] == line[k] && i + k != end;
  }

  /** A data line of the text behind the event's name starts with the text or lies inside the payload. */
  lemma DataLinePlace(br: char -> bool, payload: string, s: string, line: string, i: int)
    requires LineBreaks(br) && s == "data: " + payload + "\n\n" && IsPart(br, s, line, i) && "data:" <= line
    ensures (i == 0 || i >= 6) && i + |line| <= 6 + |payload|
  {
    var end := 6 + |payload|;
    assert s[end] == '\n' && |s| == end + 2;
    assert s[1] == 'a' && s[2] == 't' && s[3] == 'a' && s[4] == ':' && s[5] == ' ';
    assert s[i] == line[0] == 'd';
    PartStopsAtBreak(br, s, line, i, end);
  }

  lemma NothingReadsAsNothing<J>(c: Json<J>, event: J)
    ensures !ReadsAs(c, "", event)
  {
    assert Strip(c.space, "") == "";
  }

  lemma FirstPart<J>(br: char -> bool, c: Json<J>, payload: string, line: string, text: string, event: J)
    requires c.space(' ') && !OneLine(br, payload) && OneLine(br, line)
    requires 5 <= |line| <= 6 + |payload| && line == ("data: " + payload)[..|line|] && text == line[5..] &&
             ReadsAs(c, text, event)
    ensures !NoInnerCopy(c, payload, event)
  {
    NothingReadsAsNothing(c, event);
    assert text != "";
    var k := |line| - 6;
    assert text == " " + payload[0..k];
    StripLeadingSpace(c.space, payload[0..k]);
    assert ReadsAs(c, payload[0..k], event);
    assert OneLine(br, payload[0..k]) by { assert forall i :: 0 <= i < k ==> payload[0..k][i] == line[i + 6]; }
    assert payload[0..|payload|] == payload;
    assert k < |payload|;
  }

  lemma InnerPart<J>(c: Json<J>, payload: string, line: string, i: int, event: J)
    requires 0 <= i && i + |line| <= |payload| && |line| >= 5 && line == payload[i..i + |line|] &&
             ReadsAs(c, line[5..], event)
    ensures !NoInnerCopy(c, payload, event)
  {
    assert line[5..] == payload[i + 5..i + |line|];
  }

  lemma PartOfPayload(payload: string, s: string, line: string, i: int)
    requires s == "data: " + payload + "\n\n" && 0 <= i && i + |line| <= 6 + |payload| && s[i..i + |line|] == line
    ensures i == 0 ==> line == ("data: " + payload)[..|line|]
    ensures i >= 6 ==> line == payload[i - 6..i - 6 + |line|]
  {
    assert forall k :: 0 <= k < 6 + |payload| ==> s[k] == ("data: " + payload)[k];
  }

  /** Data lines of a payload with a break hold proper parts of it. */
  lemma DataLineIsInner<J>(br: char -> bool, c: Json<J>, payload: string, s: string, line: string, event: J)
    requires LineBreaks(br) && c.space(' ') && !OneLine(br, payload) && s == "data: " + payload + "\n\n"
    requires line in Lines(br, s) && "data:" <= line && ReadsAs(c, line[5..], event)
    ensures !NoInnerCopy(c, payload, event)
  {
    var i := LinesAreParts(br, s, line);
    DataLinePlace(br, payload, s, line, i);
    PartOfPayload(payload, s, line, i);
    if i == 0 {
      FirstPart(br, c, payload, line, line[5..], event);
    } else {
      InnerPart(c, payload, line, i - 6, event);
    }
  }

  lemma EventLineFirst(br: char -> bool, m: Message)
    requires LineBreaks(br) && OneLine(br, m.kind)
    ensures Lines(br, FormatAnthropicSse(m)) == ["event: " + m.kind] + Lines(br, "data: " + m.payload + "\n\n")
  {
    FieldLines(br, m.kind);
    assert FormatAnthropicSse(m) == ("event: " + m.kind) + ['\n'] + ("data: " + m.payload + "\n\n") by {
      assert "\ndata: " == "\n" + "data: ";
    }
    FirstLine(br, "event: " + m.kind, '\n', "data: " + m.payload + "\n\n", FormatAnthropicSse(m));
  }

  /** A broken message never yields its own event. */
  lemma BrokenNeverYields<J>(br: char -> bool, c: Json<J>, m: Message, event: J, k: int)
    requires LineBreaks(br) && c.space(' ') && Serializes(br, c, m, event) && !OneLine(br, m.payload)
    requires 0 <= k < |ReadAlone(br, c, m)|
    ensures ReadAlone(br, c, m)[k] != event
  {
    if ReadAlone(br, c, m)[k] == event {
      var s := "data: " + m.payload + "\n\n";
      var line := YieldedFromLine(c, Reader(None, []), Lines(br, FormatAnthropicSse(m)), event);
      EventLineFirst(br, m);
      assert line in Lines(br, s) by { assert ("event: " + m.kind)[0] == 'e' && line[0] == 'd'; }
      DataLineIsInner(br, c, m.payload, s, line, event);
    }
  }

  /** A whole message yields its own event. */
  lemma WholeYields<J>(br: char -> bool, c: Json<J>, m: Message, event: J)
    requires LineBreaks(br) && c.space(' ') && Serializes(br, c, m, event) && OneLine(br, m.payload)
    ensures ReadAlone(br, c, m) == [event]
  {
    MessageLines(br, m, "");
    assert FormatAnthropicSse(m) + "" == FormatAnthropicSse(m);
    assert ["event: " + m.kind, "data: " + m.payload, ""] + [] == ["event: " + m.kind, "data: " + m.payload, ""];
    MessageIsRead(c, Reader(None, []), m);
    StripSpace(c.space, m.payload);
  }

  ghost predicate AllWhole(br: char -> bool, ms: seq<Message>) {
    forall i :: 0 <= i < |ms| ==> OneLine(br, ms[i].payload)
  }

  /** One more message, said of what it yields. */
  lemma OneMoreBehind<J>(before: seq<J>, more: seq<J>, events: seq<J>, n: nat, whole: bool)
    requires before + more <= events && |before| <= n < |events|
    requires if whole then more == [events[n]] else forall k :: 0 <= k < |more| ==> more[k] != events[n]
    ensures |before + more| <= n + 1 && (|before + more| == n + 1 <==> |before| == n && whole)
  {
    assert forall k :: 0 <= k < |more| ==> (before + more)[|before| + k] == more[k] == events[|before| + k];
  }

  lemma OneMoreMessage<J>(br: char -> bool, c: Json<J>, m: Message, events: seq<J>, n: nat, before: seq<J>)
    requires LineBreaks(br) && c.space(' ') && |before| <= n < |events| && Serializes(br, c, m, events[n])
    requires before + ReadAlone(br, c, m) <= events
    ensures var all := before + ReadAlone(br, c, m);
            |all| <= n + 1 && (|all| == n + 1 <==> |before| == n && OneLine(br, m.payload))
  {
    var more, event := ReadAlone(br, c, m), events[n];
    if OneLine(br, m.payload) {
      WholeYields(br, c, m, event);
      OneMoreBehind(before, more, events, n, true);
    } else {
      forall k | 0 <= k < |more| ensures more[k] != event { BrokenNeverYields(br, c, m, event, k); }
      OneMoreBehind(before, more, events, n, false);
    }
  }

  /** Of an event sequence, k messages bring back at most the first k events, and k of them only if none is broken. */
  lemma {:induction false} NeverAhead<J>(br: char -> bool, c: Json<J>, ms: seq<Message>, events: seq<J>)
    requires LineBreaks(br) && c.space(' ') && |ms| <= |events|
    requires forall i :: 0 <= i < |ms| ==> Serializes(br, c, ms[i], events[i])
    requires AllReadAlone(br, c, ms) <= events
    ensures |AllReadAlone(br, c, ms)| <= |ms|
    ensures |AllReadAlone(br, c, ms)| == |ms| <==> AllWhole(br, ms)
  {
    if ms != [] {
      var n := |ms| - 1;
      TakeMore(ms, n);
      assert ms[..n + 1] == ms;
      AllReadAloneSnoc(br, c, ms[..n], ms[n]);
      AllWholeSnoc(br, ms[..n], ms[n]);
      var before := AllReadAlone(br, c, ms[..n]);
      assert before <= before + ReadAlone(br, c, ms[n]);
      NeverAhead(br, c, ms[..n], events);
      assert Serializes(br, c, ms[n], events[n]);
      OneMoreMessage(br, c, ms[n], events, n, before);
    }
  }

  lemma AllWholeSnoc(br: char -> bool, front: seq<Message>, m: Message)
    ensures AllWhole(br, front + [m]) <==> AllWhole(br, front) && OneLine(br, m.payload)
  {
    var all := front + [m];
    assert all[|front|] == m && forall i :: 0 <= i < |front| ==> all[i] == front[i];
  }

  lemma {:induction false} AllWholeYields<J>(br: char -> bool, c: Json<J>, ms: seq<Message>, events: seq<J>)
    requires LineBreaks(br) && c.space(' ') && |ms| == |events| && AllWhole(br, ms)
    requires forall i :: 0 <= i < |ms| ==> Serializes(br, c, ms[i], events[i])
    ensures AllReadAlone(br, c, ms) == events
  {
    if ms != [] {
      var n := |ms| - 1;
      TakeMore(ms, n);
      TakeMore(events, n);
      assert ms[..n + 1] == ms && events[..n + 1] == events;
      AllReadAloneSnoc(br, c, ms[..n], ms[n]);
      AllWholeSnoc(br, ms[..n], ms[n]);
      AllWholeYields(br, c, ms[..n], events[..n]);
      assert Serializes(br, c, ms[n], events[n]);
      WholeYields(br, c, ms[n], events[n]);
    }
  }

  /** The events come back, in order and nothing else, exactly when no payload holds a line break. */
  lemma EventsRoundTripIff<J>(br: char -> bool, c: Json<J>, ms: seq<Message>, events: seq<J>)
    requires LineBreaks(br) && c.space(' ') && |ms| == |events|
    requires forall i :: 0 <= i < |ms| ==> Serializes(br, c, ms[i], events[i])
    ensures Read(c, Reader(None, []), Lines(br, FormatAll(ms))).yielded == events <==> AllWhole(br, ms)
  {
    StreamReadAlone(br, c, ms);
    if AllReadAlone(br, c, ms) == events { NeverAhead(br, c, ms, events); }
    if AllWhole(br, ms) { AllWholeYields(br, c, ms, events); }
  }

  // ----- A text delta with a line separator ------------------------------------------------------

  lemma LastThreeLines(br: char -> bool, inner: string, b: char, more: string, s: string)
    requires br('\n') && br(b) && b != '\r' && OneLine(br, inner) && OneLine(br, more)
    requires s == inner + [b] + (more + "\n" + "\n")
    ensures Lines(br, s) == [inner, more, ""]
  {
    LastTwoLines(br, more);
    FirstLine(br, inner, b, more + "\n" + "\n", s);
  }

  lemma InnerGroups(m: Message, first: string, b: char, inner: string, second: string)
    requires m.payload == first + [b] + ("data: " + inner) + [b] + second
    ensures FormatAnthropicSse(m)
            == ("event: " + m.kind) + "\n"
               + (("data: " + first) + [b] + (("data: " + inner) + [b] + (second + "\n" + "\n")))
  {
    assert "\ndata: " == "\n" + "data: " && "\n\n" == "\n" + "\n";
  }

  /** A payload can smuggle in a line of its own: between two line breaks, a text that starts with the field name is
      read as an event under the name of the message. */
  lemma InnerLineIsRead<J>(br: char -> bool, c: Json<J>, m: Message, first: string, b: char, inner: string,
                           second: string)
    requires LineBreaks(br) && br(b) && b != '\r' && m.payload == first + [b] + ("data: " + inner) + [b] + second
    requires OneLine(br, m.kind) && OneLine(br, first) && OneLine(br, inner) && OneLine(br, second)
    requires c.parse(Strip(c.space, " " + first)) == None && !("event:" <= second) && !("data:" <= second)
    ensures ReadAlone(br, c, m) == Payload(c, Some(Strip(c.space, " " + m.kind)), Strip(c.space, " " + inner))
  {
    var event, data, more := "event: " + m.kind, "data: " + first, "data: " + inner;
    var named := Reader(Some(Strip(c.space, " " + m.kind)), []);
    InnerGroups(m, first, b, inner, second);
    FieldLines(br, m.kind);
    FieldLines(br, first);
    FieldLines(br, inner);
    LastThreeLines(br, more, b, second, more + [b] + (second + "\n" + "\n"));
    TwoLinesThen(br, event, data, b, more + [b] + (second + "\n" + "\n"), FormatAnthropicSse(m));
    assert [event, data] + [more, second, ""] == [event, data, more, second, ""];
    assert [event, data, more, second] + [""] == [event, data, more, second, ""];
    ReadFour(c, Reader(None, []), event, data, more, second);
    ReadSnoc(c, Reader(None, []), [event, data, more, second], "");
    FieldsAreRead(c, Reader(None, []), m.kind, first);
    FieldsAreRead(c, named, m.kind, first);
    FieldsAreRead(c, named, m.kind, inner);
  }

  const DELTA_KIND := "content_block_delta"
  const DELTA_OPEN := "{\"type\":\"content_block_delta\",\"index\":0,"
  const DELTA_FIELD := "\"delta\":{\"type\":\"text_delta\",\"text\":\""
  const DELTA_CLOSE := "\"}}"
  const LINE_SEPARATOR := '\U{2028}'

  /** The serialized event of a text delta. */
  function DeltaPayload(text: string): string {
    DELTA_OPEN + DELTA_FIELD + text + DELTA_CLOSE
  }

  lemma OneLineConcat(br: char -> bool, a: string, b: string)
    requires OneLine(br, a) && OneLine(br, b)
    ensures OneLine(br, a + b)
  {
  }

  lemma DeltaOpens()
    ensures OneLine(SplitsLine, DELTA_OPEN) && OneLine(SplitsLine, DELTA_KIND)
  {
  }

  lemma DeltaParts()
    ensures OneLine(SplitsLine, DELTA_FIELD) && OneLine(SplitsLine, DELTA_CLOSE)
    ensures OneLine(SplitsLine, "a") && OneLine(SplitsLine, "b") && OneLine(SplitsLine, "{}")
  {
  }

  lemma DeltaCloses()
    ensures !("event:" <= "b" + DELTA_CLOSE) && !("data:" <= "b" + DELTA_CLOSE)
    ensures !("event:" <= DELTA_CLOSE) && !("data:" <= DELTA_CLOSE)
  {
  }

  /** A text delta "a", U+2028, "b", which the serializer prints as it is, is read as no event, under any parser that
      rejects its truncated first part. */
  lemma LineSeparatorLosesEvent<J>(c: Json<J>)
    requires c.parse(Strip(c.space, " " + (DELTA_OPEN + DELTA_FIELD + "a"))) == None
    ensures ReadAlone(SplitsLine, c, Message(DELTA_KIND, DeltaPayload("a" + [LINE_SEPARATOR] + "b"))) == []
  {
    var first, second := DELTA_OPEN + DELTA_FIELD + "a", "b" + DELTA_CLOSE;
    var m := Message(DELTA_KIND, DeltaPayload("a" + [LINE_SEPARATOR] + "b"));
    PythonBreaks();
    DeltaOpens();
    DeltaParts();
    DeltaCloses();
    OneLineConcat(SplitsLine, DELTA_OPEN, DELTA_FIELD);
    OneLineConcat(SplitsLine, DELTA_OPEN + DELTA_FIELD, "a");
    OneLineConcat(SplitsLine, "b", DELTA_CLOSE);
    SeparatedText(DELTA_OPEN + DELTA_FIELD, "a", "b", DELTA_CLOSE);
    BrokenPayloadIsLost(SplitsLine, c, m, first, LINE_SEPARATOR, second);
  }

  lemma SeparatedText(open: string, a: string, b: string, close: string)
    ensures open + (a + [LINE_SEPARATOR] + b) + close == (open + a) + [LINE_SEPARATOR] + (b + close)
  {
  }

  lemma SmuggledText(open: string, inner: string, close: string)
    ensures open + ([LINE_SEPARATOR] + ("data: " + inner) + [LINE_SEPARATOR]) + close
            == open + [LINE_SEPARATOR] + ("data: " + inner) + [LINE_SEPARATOR] + close
  {
  }

  /** A text delta U+2028, "data: {}", U+2028 is read as an event that was never sent: the empty object with the type
      of the message. */
  lemma LineSeparatorInjectsEvent<J>(c: Json<J>, empty: J)
    requires c.parse(Strip(c.space, " " + (DELTA_OPEN + DELTA_FIELD))) == None
    requires Strip(c.space, " {}") == "{}" && c.parse("{}") == Some(empty) && c.isObject(empty) && !c.hasType(empty)
    requires Strip(c.space, " " + DELTA_KIND) == DELTA_KIND
    ensures ReadAlone(SplitsLine, c,
                      Message(DELTA_KIND, DeltaPayload([LINE_SEPARATOR] + ("data: " + "{}") + [LINE_SEPARATOR])))
            == [c.withType(empty, DELTA_KIND)]
  {
    var m := Message(DELTA_KIND, DeltaPayload([LINE_SEPARATOR] + ("data: " + "{}") + [LINE_SEPARATOR]));
    PythonBreaks();
    DeltaOpens();
    DeltaParts();
    DeltaCloses();
    OneLineConcat(SplitsLine, DELTA_OPEN, DELTA_FIELD);
    SmuggledText(DELTA_OPEN + DELTA_FIELD, "{}", DELTA_CLOSE);
    InnerLineIsRead(SplitsLine, c, m, DELTA_OPEN + DELTA_FIELD, LINE_SEPARATOR, "{}", DELTA_CLOSE);
    assert " " + "{}" == " {}";
  }
}
