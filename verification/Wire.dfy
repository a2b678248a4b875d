/**
 What clients read from the streams: SSE frames (src/realtime/sse.ts:66-82) and the chunked timeline
 (src/realtime/stream.ts:76-126).
 */
module Wire {
  import opened Common
  import opened Json
  import opened Realtime
  import opened Delivery

  // ----- SSE -----

  function FrameText(f: Frame): string {
    match f
    case Data(payload) => "data: " + Stringify(payload) + "\n\n"
    case Comment => ":\n\n"
  }

  function WireText(frames: seq<Frame>): string {
    if frames == [] then "" else FrameText(frames[0]) + WireText(frames[1..])
  }

  function PayloadsOf(frames: seq<Frame>): seq<Payload> {
    if frames == [] then []
    else (if frames[0].Data? then [frames[0].payload] else []) + PayloadsOf(frames[1..])
  }

  /** Splits off one line, ended by LF, CR or CRLF. */
  function NextLine(s: string): (r: Option<(string, string)>)
    ensures r.Some? ==> |r.value.1| < |s|
  {
    if s == "" then None
    else if s[0] == '\n' then Some(("", s[1..]))
    else if s[0] == '\r' then Some(("", if |s| > 1 && s[1] == '\n' then s[2..] else s[1..]))
    else
      match NextLine(s[1..])
      case None => None
      case Some((line, rest)) => Some(([s[0]] + line, rest))
  }

  /** The text before the first colon, and the text after it if there is one. */
  function AtColon(line: string): (string, Option<string>) {
    if line == "" then ("", None)
    else if line[0] == ':' then ("", Some(line[1..]))
    else var (name, value) := AtColon(line[1..]); ([line[0]] + name, value)
  }

  /** The data buffer after one non-blank line: comments and other fields leave it. */
  function Field(line: string, buffer: string): string {
    var (name, value) := AtColon(line);
    var v := match value
      case None => ""
      case Some(t) => if t != "" && t[0] == ' ' then t[1..] else t;
    if name == "data" then buffer + v + "\n" else buffer
  }

  /**
   The events of an event stream, after section 9.2.6 of the WHATWG HTML standard: a blank line dispatches the data
   buffer, without its last line feed, unless it is empty; an unfinished event is discarded.
   */
  function Events(s: string, buffer: string): seq<string>
    decreases |s|
  {
    match NextLine(s)
    case None => []
    case Some((line, rest)) =>
      if line != "" then Events(rest, Field(line, buffer))
      else if buffer == "" then Events(rest, "")
      else [buffer[..|buffer| - 1]] + Events(rest, "")
  }

  predicate OneLine(s: string) {
    forall i | 0 <= i < |s| :: s[i] != '\n' && s[i] != '\r'
  }

  lemma {:induction false} NextLineOf(line: string, rest: string)
    requires OneLine(line)
    ensures NextLine(line + "\n" + rest) == Some((line, rest))
  {
    if line == "" {
      assert line + "\n" + rest == "\n" + rest;
    } else {
      assert (line + "\n" + rest)[1..] == line[1..] + "\n" + rest;
      NextLineOf(line[1..], rest);
      assert [line[0]] + line[1..] == line;
    }
  }

  lemma {:induction false} AtColonOf(name: string, value: string)
    requires ':' !in name
    ensures AtColon(name + ":" + value) == (name, Some(value))
  {
    var s := name + ":" + value;
    if name == "" {
      assert s[1..] == value;
    } else {
      assert s[1..] == name[1..] + ":" + value;
      AtColonOf(name[1..], value);
      assert [name[0]] + name[1..] == name;
    }
  }

  lemma {:induction false} DataField(text: string, buffer: string)
    ensures Field("data: " + text, buffer) == buffer + text + "\n"
  {
    AtColonOf("data", " " + text);
    assert "data: " + text == "data" + ":" + (" " + text);
    assert (" " + text)[1..] == text;
  }

  lemma {:induction false} BlankLineDispatches(text: string, rest: string)
    ensures Events("\n" + rest, text + "\n") == [text] + Events(rest, "")
  {
    assert ("\n" + rest)[1..] == rest && (text + "\n")[..|text|] == text;
    assert NextLine("\n" + rest) == Some(("", rest));
  }

  lemma {:induction false} DataLineReads(text: string, rest: string)
    requires OneLine(text)
    ensures Events("data: " + text + "\n" + ("\n" + rest), "") == [text] + Events(rest, "")
  {
    var line := "data: " + text;
    assert OneLine(line) && line != "";
    NextLineOf(line, "\n" + rest);
    DataField(text, "");
    assert "" + text + "\n" == text + "\n";
    BlankLineDispatches(text, rest);
  }

  lemma {:induction false} DataFrameReads(payload: Payload, rest: string)
    ensures Events(FrameText(Data(payload)) + rest, "") == [Stringify(payload)] + Events(rest, "")
  {
    var text := Stringify(payload);
    WrittenIsPrintable(payload);
    assert FrameText(Data(payload)) + rest == "data: " + text + "\n" + ("\n" + rest);
    DataLineReads(text, rest);
  }

  lemma {:induction false} CommentReads(rest: string)
    ensures Events(FrameText(Comment) + rest, "") == Events(rest, "")
  {
    assert FrameText(Comment) + rest == ":" + "\n" + ("\n" + rest);
    NextLineOf(":", "\n" + rest);
    assert AtColon(":") == ("", Some(""));
    assert NextLine("\n" + rest) == Some(("", rest)) by { assert ("\n" + rest)[1..] == rest; }
  }

  /** A client reads back exactly the payloads, in order; keep-alives are invisible. */
  lemma {:induction false} FramesReadBack(frames: seq<Frame>)
    ensures var events := Events(WireText(frames), "");
            && |events| == |PayloadsOf(frames)|
            && forall i | 0 <= i < |events| :: Parse(events[i]) == Some(PayloadsOf(frames)[i])
  {
    if frames != [] {
      var rest := WireText(frames[1..]);
      FramesReadBack(frames[1..]);
      match frames[0]
      case Data(payload) =>
        DataFrameReads(payload, rest);
        StringifyIsReadBack(payload);
      case Comment => CommentReads(rest);
    }
  }

  /**
   From the bus to the browser: whatever happens, the events a client decodes from its response are exactly the
   payloads published on its tenant's channel while its stream was open.
   */
  lemma {:induction false} StreamReadsBack(run: seq<Step>, c: ConnId)
    requires Possible(run) && c in Reached(run).streams.conns
    ensures c in Reached(run).streams.written
    ensures var events := Events(WireText(Reached(run).streams.written[c]), "");
            var payloads := PayloadsOf(WatchStream(run, c).frames);
            |events| == |payloads| && forall i | 0 <= i < |events| :: Parse(events[i]) == Some(payloads[i])
  {
    ExactStreaming(run, c);
    FramesReadBack(Reached(run).streams.written[c]);
  }

  // ----- The timeline -----

  /** What the client got: an error response, or a body, finished or cut off. */
  datatype Response = NotFoundResponse | Body(text: string, finished: bool)

  lemma {:induction false} ItemsOneMore(items: seq<Json>, last: Json)
    ensures Items(items + [last]) == if items == [] then Stringify(last) else Items(items) + "," + Stringify(last)
  {
    if items == [] {
      assert items + [last] == [last];
    } else {
      assert (items + [last])[1..] == items[1..] + [last];
      ItemsOneMore(items[1..], last);
    }
  }

  lemma {:induction false} NextItem(head: string, docs: seq<Json>, k: nat)
    requires k < |docs|
    ensures head + Items(docs[..k + 1]) ==
            (if k == 0 then head + Items(docs[..k]) else head + Items(docs[..k]) + ",") + Stringify(docs[k])
  {
    var text, last := Items(docs[..k]), Stringify(docs[k]);
    assert docs[..k + 1] == docs[..k] + [docs[k]];
    assert Items(docs[..k + 1]) == if k == 0 then last else text + "," + last by { ItemsOneMore(docs[..k], docs[k]); }
    assert k == 0 ==> head + text == head;
    assert head + (text + "," + last) == head + text + "," + last;
  }

  function TimelineObject(items: seq<Json>): Json {
    Obj([Member("items", Arr(items))])
  }

  /**
   `streamTimeline`. The cursor fails, if it does, before document `failsAt`; the response is found ended, if it is,
   once `endsAt` documents have been written. Nothing else stops the loop. A finished body parses to exactly the
   documents written; a body cut off lacks its closing brackets and nothing else.
   */
  method StreamTimeline(found: bool, docs: seq<Json>, failsAt: Option<nat>, endsAt: Option<nat>)
    returns (r: Response, written: nat)
    ensures r.NotFoundResponse? <==> !found
    ensures found ==>
              && written <= |docs| && (written < |docs| ==> failsAt == Some(written) || endsAt == Some(written))
              && (failsAt.Some? ==> written <= failsAt.value) && (endsAt.Some? ==> written <= endsAt.value)
              && (r.finished <==> endsAt != Some(written))
    ensures found && failsAt.None? && endsAt.None? ==> r.finished && written == |docs|
    ensures found ==>
              var timeline := Obj([Member("items", Arr(docs[..written]))]);
              var text := r.text + if r.finished then "" else "]}";
              text == Stringify(timeline) && Parse(text) == Some(timeline)
  {
    written := 0;
    if !found {
      return NotFoundResponse, written;
    }
    var out := "{\"items\":[";
    var first := true;
    var k := 0;
    while k < |docs| && failsAt != Some(k)
      invariant 0 <= k <= |docs| && (failsAt.Some? ==> k <= failsAt.value) && (endsAt.Some? ==> k <= endsAt.value)
      invariant first == (k == 0)
      invariant out == "{\"items\":[" + Items(docs[..k])
    {
      if endsAt == Some(k) {
        break;
      }
      if !first {
        out := out + ",";
      }
      first := false;
      out := out + Stringify(docs[k]);
      NextItem("{\"items\":[", docs, k);
      k := k + 1;
    }
    TimelineText(docs[..k]);
    TimelineReadsBack(docs, k);
    var finished := endsAt != Some(k);
    if finished {
      out := out + "]}";
    }
    assert out + "" == out;
    r, written := Body(out, finished), k;
  }

  lemma PlainName()
    ensures Quote("items") == "\"items\""
  {
    assert "items"[1..] == "tems" && "tems"[1..] == "ems" && "ems"[1..] == "ms" && "ms"[1..] == "s" && "s"[1..] == "";
    assert EscapeAll("s") == "s" && EscapeAll("ms") == "ms" && EscapeAll("ems") == "ems" && EscapeAll("tems") == "tems";
  }

  lemma {:induction false} OneMemberText(name: string, items: seq<Json>)
    ensures Stringify(Obj([Member(name, Arr(items))])) == "{" + (Quote(name) + ":" + ("[" + Items(items) + "]")) + "}"
  {
    var m := Member(name, Arr(items));
    assert Stringify(m.value) == "[" + Items(items) + "]";
    assert Members([m]) == MemberText(m);
  }

  /** The timeline is one JSON object with one member. */
  lemma {:induction false} TimelineText(items: seq<Json>)
    ensures Stringify(TimelineObject(items)) == "{\"items\":[" + Items(items) + "]}"
  {
    OneMemberText("items", items);
    PlainName();
    Joined(Items(items));
  }

  lemma {:induction false} Joined(items: string)
    ensures "{" + ("\"items\"" + ":" + ("[" + items + "]")) + "}" == "{\"items\":[" + items + "]}"
  {
  }

  /** A finished timeline parses to an object whose items are the documents before the cursor failed, in order. */
  lemma {:induction false} TimelineReadsBack(docs: seq<Json>, k: nat)
    requires k <= |docs|
    ensures Parse("{\"items\":[" + Items(docs[..k]) + "]}") == Some(TimelineObject(docs[..k]))
  {
    TimelineText(docs[..k]);
    StringifyIsReadBack(TimelineObject(docs[..k]));
  }
}
