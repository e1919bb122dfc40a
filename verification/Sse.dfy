/** The server-sent-event stream of a chat answer: what the handler writes, and the browser's incremental reader.
    The reader does not depend on how the stream is cut into chunks, and it recovers the payloads exactly. */
module Sse {
  import opened Sequences

  // ---------------------------------------------------------------- splitting

  /** `sep` occurs in `s` at position `i`. */
  predicate At(s: string, sep: string, i: nat) {
    i + |sep| <= |s| && s[i..i + |sep|] == sep
  }

  /** The first occurrence of `sep` at or after `from`, or `|s| + 1` if there is none. */
  function Find(s: string, sep: string, from: nat): (i: nat)
    requires sep != [] && from <= |s| + 1
    ensures from <= i
    ensures i <= |s| ==> At(s, sep, i)
    ensures i > |s| ==> i == |s| + 1
    ensures forall j :: from <= j < i ==> !At(s, sep, j)
    decreases |s| + 1 - from
  {
    if from > |s| then from
    else if At(s, sep, from) then from
    else Find(s, sep, from + 1)
  }

  /** JavaScript's `split`: cut at every leftmost, non-overlapping occurrence. */
  function Split(s: string, sep: string): (parts: seq<string>)
    requires sep != []
    ensures |parts| >= 1
    decreases |s|
  {
    var i := Find(s, sep, 0);
    if i > |s| then [s] else [s[..i]] + Split(s[i + |sep|..], sep)
  }

  function Init<T>(s: seq<T>): seq<T>
    requires s != []
  {
    s[..|s| - 1]
  }

  function Last<T>(s: seq<T>): T
    requires s != []
  {
    s[|s| - 1]
  }

  /** An occurrence that is leftmost stays leftmost when text is appended. */
  lemma FindExtends(a: string, b: string, sep: string)
    requires sep != [] && Find(a, sep, 0) <= |a|
    ensures Find(a + b, sep, 0) == Find(a, sep, 0)
  {
    var i, j := Find(a, sep, 0), Find(a + b, sep, 0);
    assert (a + b)[i..i + |sep|] == a[i..i + |sep|];
    assert At(a + b, sep, i);
    if j < i {
      assert (a + b)[j..j + |sep|] == a[j..j + |sep|];
      assert At(a, sep, j);
    }
  }

  lemma Assoc<T>(a: seq<T>, b: seq<T>, c: seq<T>)
    ensures a + (b + c) == a + b + c
  {
  }

  /** Splitting in instalments: keep what is complete, and split the remainder again with what follows. */
  lemma {:induction false} SplitResumes(a: string, b: string, sep: string)
    requires sep != []
    ensures Split(a + b, sep) == Init(Split(a, sep)) + Split(Last(Split(a, sep)) + b, sep)
    decreases |a|
  {
    if Find(a, sep, 0) > |a| {
      SplitAbsent(a, b, sep);
    } else {
      var head, rest := SplitFound(a, b, sep);
      SplitResumes(rest, b, sep);
      ResumeStep(head, Split(rest, sep), Split(Last(Split(rest, sep)) + b, sep));
    }
  }

  lemma ResumeStep<T>(head: T, parts: seq<T>, more: seq<T>)
    requires parts != []
    ensures [head] + (Init(parts) + more) == Init([head] + parts) + more
    ensures Last([head] + parts) == Last(parts)
  {
  }

  lemma SplitAbsent(a: string, b: string, sep: string)
    requires sep != [] && Find(a, sep, 0) > |a|
    ensures Split(a + b, sep) == Init(Split(a, sep)) + Split(Last(Split(a, sep)) + b, sep)
  {
    assert Split(a, sep) == [a];
    assert Init([a]) == [] && Last([a]) == a;
  }

  lemma SplitFound(a: string, b: string, sep: string) returns (head: string, rest: string)
    requires sep != [] && Find(a, sep, 0) <= |a|
    ensures |rest| < |a|
    ensures Split(a, sep) == [head] + Split(rest, sep)
    ensures Split(a + b, sep) == [head] + Split(rest + b, sep)
  {
    var i := Find(a, sep, 0);
    head, rest := a[..i], a[i + |sep|..];
    FindExtends(a, b, sep);
    SplitAt(a, sep, i, head, rest);
    assert (a + b)[..i] == head && (a + b)[i + |sep|..] == rest + b;
    SplitAt(a + b, sep, i, head, rest + b);
  }

  /** The definition of `Split`, with the two parts named. */
  lemma SplitAt(s: string, sep: string, i: nat, head: string, rest: string)
    requires sep != [] && i == Find(s, sep, 0) <= |s| && head == s[..i] && rest == s[i + |sep|..]
    ensures Split(s, sep) == [head] + Split(rest, sep)
  {
  }

  // ---------------------------------------------------------------- the reader

  const PREFIX := "data: "

  function LineData(line: string): seq<string> {
    if PREFIX <= line then [line[|PREFIX|..]] else []
  }

  function LinesData(lines: seq<string>): seq<string> {
    if lines == [] then [] else LinesData(Init(lines)) + LineData(Last(lines))
  }

  function FrameData(frame: string): seq<string> {
    LinesData(Split(frame, "\n"))
  }

  function FramesData(frames: seq<string>): seq<string> {
    if frames == [] then [] else FramesData(Init(frames)) + FrameData(Last(frames))
  }

  /** What a reader that sees the whole text at once delivers: the data lines of all terminated frames. */
  function Delivered(text: string): seq<string> {
    FramesData(Init(Split(text, "\n\n")))
  }

  lemma {:induction false} FramesDataAppend(a: seq<string>, b: seq<string>)
    ensures FramesData(a + b) == FramesData(a) + FramesData(b)
    decreases |b|
  {
    if b == [] {
      assert a + b == a;
    } else {
      assert Init(a + b) == a + Init(b) && Last(a + b) == Last(b);
      FramesDataAppend(a, Init(b));
      Assoc(FramesData(a), FramesData(Init(b)), FrameData(Last(b)));
    }
  }

  /** The data lines of some frames, in order. */
  method DeliverFrames(frames: seq<string>) returns (data: seq<string>)
    ensures data == FramesData(frames)
  {
    data := [];
    for f := 0 to |frames|
      invariant data == FramesData(frames[..f])
    {
      var lines := Split(frames[f], "\n");
      ghost var sofar := data;
      for l := 0 to |lines|
        invariant data == sofar + LinesData(lines[..l])
      {
        assert Init(lines[..l + 1]) == lines[..l];
        if PREFIX <= lines[l] {
          data := data + [lines[l][|PREFIX|..]];
        }
      }
      assert lines[..|lines|] == lines;
      assert Init(frames[..f + 1]) == frames[..f];
    }
    assert frames[..|frames|] == frames;
  }

  /** One more read: the buffered remainder, extended, yields just the data that is new. */
  lemma NextRead(seen: string, chunk: string)
    ensures var frames := Split(Last(Split(seen, "\n\n")) + chunk, "\n\n");
            && Delivered(seen + chunk) == Delivered(seen) + FramesData(Init(frames))
            && Last(Split(seen + chunk, "\n\n")) == Last(frames)
  {
    var done, frames := Init(Split(seen, "\n\n")), Split(Last(Split(seen, "\n\n")) + chunk, "\n\n");
    SplitResumes(seen, chunk, "\n\n");
    assert Init(done + frames) == done + Init(frames);
    FramesDataAppend(done, Init(frames));
  }

  /** The loop of the reader: however the text is cut into reads, it delivers what the whole text calls for. */
  method ReadSSE(chunks: seq<string>) returns (data: seq<string>, buffer: string)
    ensures data == Delivered(Flatten(chunks))
    ensures buffer == Last(Split(Flatten(chunks), "\n\n"))
  {
    data, buffer := [], "";
    for n := 0 to |chunks|
      invariant data == Delivered(Flatten(chunks[..n]))
      invariant buffer == Last(Split(Flatten(chunks[..n]), "\n\n"))
    {
      ReadGrows(chunks, n);
      NextRead(Flatten(chunks[..n]), chunks[n]);
      buffer := buffer + chunks[n];
      var frames := Split(buffer, "\n\n");
      buffer := Last(frames);
      var news := DeliverFrames(Init(frames));
      data := data + news;
    }
    assert chunks[..|chunks|] == chunks;
  }

  lemma ReadGrows(chunks: seq<string>, n: nat)
    requires n < |chunks|
    ensures Flatten(chunks[..n + 1]) == Flatten(chunks[..n]) + chunks[n]
  {
    assert chunks[..n + 1] == chunks[..n] + [chunks[n]];
    FlattenAppend(chunks[..n], [chunks[n]]);
    assert [chunks[n]][1..] == [];
    assert Flatten([chunks[n]]) == chunks[n];
  }

  // ---------------------------------------------------------------- the writer

  datatype Frame = Data(payload: string) | Heartbeat {
    function Text(): string {
      if Data? then PREFIX + payload else ": waiting"
    }
    function Bytes(): string { Text() + "\n\n" }
    function Payloads(): seq<string> {
      if Data? then [payload] else []
    }
    predicate OneLine() { Data? ==> '\n' !in payload }
  }

  function Written(frames: seq<Frame>): string {
    if frames == [] then "" else frames[0].Bytes() + Written(frames[1..])
  }

  function Payloads(frames: seq<Frame>): seq<string> {
    if frames == [] then [] else frames[0].Payloads() + Payloads(frames[1..])
  }

  /** What the handler is woken by: its ticker or an event of the answer, with the event's JSON. */
  datatype Wake = Tick | Fragment(json: string) | Done(json: string)

  function FramesFor(wakes: seq<Wake>): seq<Frame> {
    if wakes == [] then []
    else match wakes[0]
      case Tick => [Heartbeat] + FramesFor(wakes[1..])
      case Fragment(json) => [Data(json)] + FramesFor(wakes[1..])
      case Done(json) => [Data(json), Data("[DONE]")]
  }

  /** What one wake-up adds to the stream. */
  lemma WakeWrites(w: Wake, rest: seq<Wake>)
    ensures w.Tick? ==> Written(FramesFor([w] + rest)) == ": waiting\n\n" + Written(FramesFor(rest))
    ensures w.Fragment? ==> Written(FramesFor([w] + rest)) == PREFIX + w.json + "\n\n" + Written(FramesFor(rest))
    ensures w.Done? ==> Written(FramesFor([w] + rest)) == PREFIX + w.json + "\n\n" + "data: [DONE]\n\n"
  {
    assert ([w] + rest)[1..] == rest;
    match w
    case Tick =>
      assert ([Heartbeat] + FramesFor(rest))[1..] == FramesFor(rest);
    case Fragment(json) =>
      assert ([Data(json)] + FramesFor(rest))[1..] == FramesFor(rest);
    case Done(json) =>
      assert [Data(json), Data("[DONE]")][1..] == [Data("[DONE]")];
      assert [Data("[DONE]")][1..] == [];
  }

  /** The loop of the streaming handler: it stops after the event that ends the answer. */
  method StreamChatCompletion(wakes: seq<Wake>) returns (out: string)
    ensures out == Written(FramesFor(wakes))
  {
    out := "";
    for n := 0 to |wakes|
      invariant Written(FramesFor(wakes)) == out + Written(FramesFor(wakes[n..]))
    {
      assert wakes[n..] == [wakes[n]] + wakes[n + 1..];
      WakeWrites(wakes[n], wakes[n + 1..]);
      match wakes[n]
      case Tick =>
        Assoc(out, ": waiting\n\n", Written(FramesFor(wakes[n + 1..])));
        out := out + ": waiting\n\n";
      case Fragment(json) =>
        var frame := PREFIX + json + "\n\n";
        Assoc(out, frame, Written(FramesFor(wakes[n + 1..])));
        out := out + frame;
      case Done(json) =>
        var frame := PREFIX + json + "\n\n";
        Assoc(out, frame, "data: [DONE]\n\n");
        out := out + frame;
        out := out + "data: [DONE]\n\n";
        return;
    }
  }

  // ---------------------------------------------------------------- the round trip

  lemma AtStart(s: string, sep: string, i: nat)
    requires sep != [] && At(s, sep, i)
    ensures i < |s| && s[i] == sep[0]
  {
    assert s[i..i + |sep|][0] == s[i];
  }

  lemma NoNewlineNoSplit(s: string)
    requires '\n' !in s
    ensures Split(s, "\n") == [s]
  {
    var i := Find(s, "\n", 0);
    if i <= |s| {
      AtStart(s, "\n", i);
    }
  }

  /** The first frame of a stream is cut off exactly at its terminator. */
  lemma FirstFrame(text: string, rest: string)
    requires '\n' !in text
    ensures Split(text + "\n\n" + rest, "\n\n") == [text] + Split(rest, "\n\n")
  {
    var s := text + "\n\n" + rest;
    var i := Find(s, "\n\n", 0);
    assert s[|text|..|text| + 2] == "\n\n";
    assert At(s, "\n\n", |text|);
    assert i <= |text|;
    if i < |text| {
      assert s[i] == text[i];
      AtStart(s, "\n\n", i);
    }
    assert s[..|text|] == text && s[|text| + 2..] == rest;
  }

  lemma OneLineData(line: string)
    ensures LinesData([line]) == LineData(line)
  {
    assert Init([line]) == [] && Last([line]) == line;
    assert LinesData([]) + LineData(line) == LineData(line);
  }

  lemma FrameRoundTrip(f: Frame)
    requires f.OneLine()
    ensures '\n' !in f.Text() && FrameData(f.Text()) == f.Payloads()
  {
    NoNewlineNoSplit(f.Text());
    assert Init([f.Text()]) == [];
    OneLineData(f.Text());
    if f.Heartbeat? {
      assert f.Text()[0] == ':' && PREFIX[0] == 'd';
    } else {
      assert (PREFIX + f.payload)[|PREFIX|..] == f.payload;
    }
  }

  lemma FirstFrameDelivered(f: Frame, rest: string)
    requires f.OneLine()
    ensures Delivered(f.Bytes() + rest) == f.Payloads() + Delivered(rest)
  {
    var text, parts := f.Text(), Split(rest, "\n\n");
    FrameRoundTrip(f);
    FirstFrame(text, rest);
    ResumeStep(text, parts, []);
    assert Init([text] + parts) == [text] + Init(parts);
    FramesDataAppend([text], Init(parts));
    assert Init([text]) == [] && Last([text]) == text;
    assert FramesData([text]) == FrameData(text);
  }

  /** Complete frames deliver their payloads, an unfinished one behind them delivers nothing yet. */
  lemma {:induction false} PrefixRoundTrip(frames: seq<Frame>, part: string)
    requires forall f :: f in frames ==> f.OneLine()
    requires Split(part, "\n\n") == [part]
    ensures Delivered(Written(frames) + part) == Payloads(frames)
    decreases |frames|
  {
    if frames == [] {
      assert Written(frames) + part == part;
      assert Init([part]) == [];
    } else {
      Assoc(frames[0].Bytes(), Written(frames[1..]), part);
      FirstFrameDelivered(frames[0], Written(frames[1..]) + part);
      PrefixRoundTrip(frames[1..], part);
    }
  }

  /** Lines that come out of the reader carry no newline. */
  lemma {:induction false} PartsHaveNoNewline(s: string)
    ensures forall line :: line in Split(s, "\n") ==> '\n' !in line
    decreases |s|
  {
    var i := Find(s, "\n", 0);
    forall j | 0 <= j < i && j < |s|
      ensures s[j] != '\n'
    {
      assert !At(s, "\n", j);
      assert s[j..j + 1] == [s[j]];
    }
    if i <= |s| {
      PartsHaveNoNewline(s[i + 1..]);
    }
  }

  lemma {:induction false} LinesDataHaveNoNewline(lines: seq<string>)
    requires forall line :: line in lines ==> '\n' !in line
    ensures forall d :: d in LinesData(lines) ==> '\n' !in d
    decreases |lines|
  {
    if lines != [] {
      LinesDataHaveNoNewline(Init(lines));
      assert Last(lines) in lines;
      assert forall d :: d in LineData(Last(lines)) ==> forall c :: c in d ==> c in Last(lines);
    }
  }

  lemma {:induction false} FramesDataHaveNoNewline(frames: seq<string>)
    ensures forall d :: d in FramesData(frames) ==> '\n' !in d
    decreases |frames|
  {
    if frames != [] {
      FramesDataHaveNoNewline(Init(frames));
      PartsHaveNoNewline(Last(frames));
      LinesDataHaveNoNewline(Split(Last(frames), "\n"));
    }
  }

  lemma {:induction false} PayloadIn(frames: seq<Frame>, f: Frame)
    requires f in frames && f.Data?
    ensures f.payload in Payloads(frames)
    decreases |frames|
  {
    if f != frames[0] {
      PayloadIn(frames[1..], f);
    }
  }

  /** The reader recovers the written payloads, heartbeats dropped, exactly when no payload contains a newline. */
  lemma RoundTripIff(frames: seq<Frame>)
    ensures Delivered(Written(frames)) == Payloads(frames) <==> forall f :: f in frames ==> f.OneLine()
  {
    if forall f :: f in frames ==> f.OneLine() {
      PrefixRoundTrip(frames, "");
      assert Written(frames) + "" == Written(frames);
    } else if Delivered(Written(frames)) == Payloads(frames) {
      var f :| f in frames && !f.OneLine();
      PayloadIn(frames, f);
      FramesDataHaveNoNewline(Init(Split(Written(frames), "\n\n")));
      assert false;
    }
  }

  // ---------------------------------------------------------------- end to end

  /** The JSON of the events up to and with the one that ends the answer, and the closing mark. */
  function Sent(wakes: seq<Wake>): seq<string> {
    if wakes == [] then []
    else match wakes[0]
      case Tick => Sent(wakes[1..])
      case Fragment(json) => [json] + Sent(wakes[1..])
      case Done(json) => [json, "[DONE]"]
  }

  lemma {:induction false} SentIsPayloads(wakes: seq<Wake>)
    requires forall w :: w in wakes && !w.Tick? ==> '\n' !in w.json
    ensures Payloads(FramesFor(wakes)) == Sent(wakes)
    ensures forall f :: f in FramesFor(wakes) ==> f.OneLine()
  {
    if wakes != [] {
      var w, rest := wakes[0], FramesFor(wakes[1..]);
      assert w in wakes;
      SentIsPayloads(wakes[1..]);
      match w
      case Tick => assert ([Heartbeat] + rest)[1..] == rest;
      case Fragment(json) => assert ([Data(json)] + rest)[1..] == rest;
      case Done(json) =>
        assert [Data(json), Data("[DONE]")][1..] == [Data("[DONE]")];
        assert [Data("[DONE]")][1..] == [];
    }
  }

  /** What was delivered is never taken back: more text only adds to it. */
  lemma DeliveredGrows(a: string, b: string)
    ensures Delivered(a) <= Delivered(a + b)
  {
    var rest := Split(Last(Split(a, "\n\n")) + b, "\n\n");
    SplitResumes(a, b, "\n\n");
    assert Init(Init(Split(a, "\n\n")) + rest) == Init(Split(a, "\n\n")) + Init(rest);
    FramesDataAppend(Init(Split(a, "\n\n")), Init(rest));
  }

  /** Handler and reader together, over a connection that cuts the text anywhere: at every moment the reader has
      delivered a prefix of what was sent, and at the end all of it. */
  lemma EndToEnd(wakes: seq<Wake>, chunks: seq<string>, n: nat)
    requires forall w :: w in wakes && !w.Tick? ==> '\n' !in w.json
    requires Flatten(chunks) == Written(FramesFor(wakes)) && n <= |chunks|
    ensures Delivered(Flatten(chunks[..n])) <= Sent(wakes)
    ensures Delivered(Flatten(chunks)) == Sent(wakes)
  {
    SentIsPayloads(wakes);
    RoundTripIff(FramesFor(wakes));
    assert chunks[..n] + chunks[n..] == chunks;
    FlattenAppend(chunks[..n], chunks[n..]);
    DeliveredGrows(Flatten(chunks[..n]), Flatten(chunks[n..]));
  }
}
