/**
  A Claude stream from end to end: the body is read in pieces and cut into lines, the events on them
  are translated, and the chunks are printed as server-sent events, which a client parses and puts
  together.  JSON is opaque: `parse` reads an event, `encode` writes a chunk and `decode` reads it.
 */
module Pipeline {
  import opened ClaudeStream
  import opened Wrappers
  import EventStream
  import Strings
  import Tokenizer

  const DONE := "[DONE]"

  /** The event on a line, if it carries one that can be parsed. */
  function EventOn(line: string, parse: string -> Option<StreamResponse>): Option<StreamResponse> {
    if |line| < 6 || !("data:" <= line) then None else parse(line[5..])
  }

  function EventsOn(lines: seq<string>, parse: string -> Option<StreamResponse>): seq<Option<StreamResponse>> {
    seq(|lines|, i requires 0 <= i < |lines| => EventOn(lines[i], parse))
  }

  /** The events of a body that is there at once. */
  function BodyEvents(body: string, parse: string -> Option<StreamResponse>): seq<StreamResponse> {
    Parsed(EventsOn(Tokenizer.Whole(Tokenizer.ANTHROPIC, body), parse))
  }

  function Texts(sent: seq<Chunk>, encode: Chunk -> string): seq<string> {
    if sent == [] then [] else Texts(sent[..|sent| - 1], encode) + [encode(sent[|sent| - 1])]
  }

  /** What is written and reported depends on the body alone, however it is cut into reads. */
  method Stream(reader: seq<string>, parse: string -> Option<StreamResponse>, encode: Chunk -> string,
                writer: EventStream.Writer) returns (usage: Usage)
    requires writer.output == ""
    modifies writer
    ensures var p := HandledAll(START, BodyEvents(Tokenizer.Concat(reader), parse));
            usage == p.usage && writer.output == EventStream.PrintedAll(Texts(p.sent, encode) + [DONE])
  {
    Tokenizer.CutsDoNotMatter(Tokenizer.ANTHROPIC, "", reader, false);
    assert "" + Tokenizer.Concat(reader) == Tokenizer.Concat(reader);
    var sent;
    usage, sent := StreamHandler(EventsOn(Tokenizer.Tokens(Tokenizer.ANTHROPIC, "", reader, false), parse));
    for i := 0 to |sent|
      invariant writer.output == EventStream.PrintedAll(Texts(sent[..i], encode))
    {
      assert sent[..i + 1][..i] == sent[..i];
      var texts := Texts(sent[..i], encode);
      assert (texts + [encode(sent[i])])[..|texts|] == texts;
      writer.StringData(encode(sent[i]));
    }
    assert sent[..|sent|] == sent;
    var texts := Texts(sent, encode);
    assert (texts + [DONE])[..|texts|] == texts;
    writer.Done();
  }

  // ---- The client ----

  /** A client adds up what the events say until the end marker. */
  function ClientOf(events: seq<EventStream.Event>, decode: string -> Choice): View {
    if events == [] then View("", [], "")
    else
      var (before, last) := (ClientOf(events[..|events| - 1], decode), events[|events| - 1]);
      if last.data == DONE then before else Received(before, decode(last.data))
  }

  /** Texts of chunks arrive unchanged, are no end marker and can be read again. */
  ghost predicate Faithful(encode: Chunk -> string, decode: string -> Choice) {
    forall chunk :: Unchanged(encode(chunk)) && decode(encode(chunk)) == chunk.choice
  }

  /** On one line, as JSON texts are. */
  predicate Unchanged(text: string) {
    '\r' !in text && '\n' !in text && !("data: " <= text) && text != DONE
  }

  lemma UnchangedDelivered(text: string)
    requires '\r' !in text && '\n' !in text && !("data: " <= text)
    ensures EventStream.Delivered(text) == text
  {
    EventStream.DeliveredUnchangedIff(text);
    Strings.SplitFirst(text, "", '\n');
  }

  lemma {:induction false} ClientSees(sent: seq<Chunk>, encode: Chunk -> string, decode: string -> Choice)
    requires Faithful(encode, decode)
    ensures ClientOf(EventStream.DeliveredAll(Texts(sent, encode)), decode) == ClientView(sent)
  {
    if sent == [] {
      assert EventStream.DeliveredAll([]) == [];
    } else {
      var (before, last) := (sent[..|sent| - 1], sent[|sent| - 1]);
      ClientSees(before, encode, decode);
      assert Unchanged(encode(last));
      UnchangedDelivered(encode(last));
      DeliveredNext(Texts(before, encode), encode(last));
      var events := EventStream.DeliveredAll(Texts(before, encode));
      var event := EventStream.Event("message", encode(last), "");
      assert (events + [event])[..|events|] == events;
    }
  }

  lemma DeliveredNext(texts: seq<string>, text: string)
    ensures EventStream.DeliveredAll(texts + [text])
            == EventStream.DeliveredAll(texts) + [EventStream.Event("message", EventStream.Delivered(text), "")]
  {
    hide EventStream.Delivered;
  }

  lemma MarkerEnds(texts: seq<string>, decode: string -> Choice)
    ensures ClientOf(EventStream.DeliveredAll(texts + [DONE]), decode) == ClientOf(EventStream.DeliveredAll(texts), decode)
  {
    assert DONE[0] == '[' && "data: "[0] == 'd';
    assert '\r' !in DONE && '\n' !in DONE;
    UnchangedDelivered(DONE);
    DeliveredNext(texts, DONE);
    var events := EventStream.DeliveredAll(texts);
    assert (events + [EventStream.Event("message", DONE, "")])[..|events|] == events;
  }

  /**
    From the body to the client.  If the body carries the events of an answer, with any others that
    say nothing in between, the client that parses the output sees the one-piece translation exactly
    under the conditions for the events, and the usage is the sum of both usages.
   */
  lemma AnswerArrivesIff(body: string, parse: string -> Option<StreamResponse>, encode: Chunk -> string, decode: string -> Choice,
                         response: Response, fragments: seq<seq<string>>, first: Usage, final: Usage)
    requires Faithful(encode, decode)
    requires AllFragmented(response.content, fragments) && response.id != "" && WellNamed(response.content)
    requires Significant(BodyEvents(body, parse)) == Events(response, fragments, first, final)
    ensures var p := HandledAll(START, BodyEvents(body, parse));
            var output := EventStream.PrintedAll(Texts(p.sent, encode) + [DONE]);
            && p.usage == Usage(first.inputTokens + final.inputTokens, first.outputTokens + final.outputTokens)
            && (ClientOf(EventStream.Parse(output), decode) == OneShot(response)
                <==> && TextFirst(response.content)
                     && ArgumentsComplete(response.content, fragments)
                     && StopReason(response.stopReason) != "null")
  {
    assert |fragments| == |response.content|;
    hide *;
    var all := BodyEvents(body, parse);
    var p, q := HandledAll(START, all), HandledAll(START, Events(response, fragments, first, final));
    assert Alike(p, q) by {
      AlikeItself(START);
      IdleEventsVanish(START, START, all);
    }
    AlikeShows(p, q);
    StreamAddsUp(response, fragments, first, final);
    StreamAgreesIff(response, fragments, first, final);
    EventStream.EveryPayloadArrives(Texts(p.sent, encode) + [DONE]);
    MarkerEnds(Texts(p.sent, encode), decode);
    ClientSees(p.sent, encode, decode);
  }

  lemma AlikeItself(p: Progress)
    ensures Alike(p, p)
  {
  }

  lemma AlikeShows(p: Progress, q: Progress)
    requires Alike(p, q)
    ensures p.usage == q.usage && ClientView(p.sent) == ClientView(q.sent)
  {
  }

  /** Only lines with the prefix and something after it carry an event, and that is what follows the prefix. */
  lemma EventLines(text: string, line: string, parse: string -> Option<StreamResponse>)
    ensures EventOn("data:" + text, parse) == if text == "" then None else parse(text)
    ensures !("data:" <= line) ==> EventOn(line, parse) == None
  {
    assert ("data:" + text)[5..] == text && ("data:" + text)[..5] == "data:";
  }
}
