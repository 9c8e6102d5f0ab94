/**
  Printing payloads as server-sent events, and a parser of event streams as section 9.2.6 of the
  WHATWG HTML Standard describes it.
 */
module EventStream {
  import opened Strings

  // ---- The printer ----

  /** The replacements that are made in an event. */
  function Replaced(data: string): string {
    if data == "" then ""
    else (if data[0] == '\n' then "\ndata:" else if data[0] == '\r' then "\\r" else [data[0]]) + Replaced(data[1..])
  }

  function Trimmed(payload: string): string {
    var str := if "data: " <= payload then payload[6..] else payload;
    if str != "" && str[|str| - 1] == '\r' then str[..|str| - 1] else str
  }

  function Printed(payload: string): string {
    Replaced("data: " + Trimmed(payload)) + "\n\n"
  }

  function PrintedAll(payloads: seq<string>): string {
    if payloads == [] then "" else PrintedAll(payloads[..|payloads| - 1]) + Printed(payloads[|payloads| - 1])
  }

  class Writer {
    var output: string

    constructor ()
      ensures output == ""
    {
      output := "";
    }

    method WriteData(data: string)
      modifies this
      ensures output == old(output) + Replaced(data) + if "data" <= data then "\n\n" else ""
    {
      output := output + Replaced(data);
      if "data" <= data {
        output := output + "\n\n";
      }
    }

    method StringData(payload: string)
      modifies this
      ensures output == old(output) + Printed(payload)
    {
      var str := payload;
      if "data: " <= str {
        str := str[6..];
      }
      if |str| > 0 && str[|str| - 1] == '\r' {
        str := str[..|str| - 1];
      }
      assert ("data: " + str)[..4] == "data";
      WriteData("data: " + str);
    }

    method Done()
      modifies this
      ensures output == old(output) + Printed("[DONE]")
    {
      StringData("[DONE]");
    }
  }

  // ---- The parser ----

  datatype Event = Event(kind: string, data: string, lastEventId: string)

  /** `line` is the line so far, and `afterCR` says that a newline would end no other line. */
  datatype Parser = Parser(line: string, afterCR: bool, kind: string, data: string, lastEventId: string, events: seq<Event>)

  const START := Parser("", false, "", "", "", [])

  function Unspaced(s: string): string {
    if " " <= s then s[1..] else s
  }

  function Field(p: Parser, name: string, value: string): Parser {
    if name == "event" then p.(kind := value)
    else if name == "data" then p.(data := p.data + value + "\n")
    else if name == "id" && '\0' !in value then p.(lastEventId := value)
    else p
  }

  function Dispatched(p: Parser): Parser {
    if p.data == "" then p.(kind := "")
    else
      var data := if p.data[|p.data| - 1] == '\n' then p.data[..|p.data| - 1] else p.data;
      var event := Event(if p.kind == "" then "message" else p.kind, data, p.lastEventId);
      p.(kind := "", data := "", events := p.events + [event])
  }

  function LineRead(p: Parser, line: string): Parser {
    if line == "" then Dispatched(p)
    else if line[0] == ':' then p
    else
      var name := Split(line, ':')[0];
      if |name| < |line| then Field(p, name, Unspaced(line[|name| + 1..])) else Field(p, name, "")
  }

  function Fed(p: Parser, c: char): Parser {
    if c == '\n' && p.afterCR then p.(afterCR := false)
    else if c == '\n' || c == '\r' then LineRead(p.(line := "", afterCR := c == '\r'), p.line)
    else p.(line := p.line + [c], afterCR := false)
  }

  function FedAll(p: Parser, s: string): Parser
    decreases |s|
  {
    if s == "" then p else FedAll(Fed(p, s[0]), s[1..])
  }

  /** What is left at the end of the stream without an empty line after it is no event. */
  function Parse(s: string): seq<Event> {
    FedAll(START, if s != "" && s[0] == BYTE_ORDER_MARK then s[1..] else s).events
  }

  const BYTE_ORDER_MARK := '\U{FEFF}'

  // ---- What arrives ----

  function Escaped(s: string): string {
    if s == "" then "" else (if s[0] == '\r' then "\\r" else [s[0]]) + Escaped(s[1..])
  }

  function UnspacedAll(lines: seq<string>): seq<string> {
    seq(|lines|, i requires 0 <= i < |lines| => if i == 0 then lines[i] else Unspaced(lines[i]))
  }

  function Lines(s: string): (lines: seq<string>)
    ensures lines != []
  {
    Split(s, '\n')
  }

  /** A payload as it comes out at the other end: lines but the first lose a leading space. */
  function Delivered(payload: string): string {
    Join(UnspacedAll(Lines(Escaped(Trimmed(payload)))), "\n")
  }

  function DeliveredAll(payloads: seq<string>): seq<Event> {
    seq(|payloads|, i requires 0 <= i < |payloads| => Event("message", Delivered(payloads[i]), ""))
  }

  // ---- The printed text, line by line ----

  predicate OneLine(s: string) {
    '\n' !in s && '\r' !in s
  }

  /** Fields of data, one a line. */
  function DataLines(lines: seq<string>): string {
    if lines == [] then "" else "data:" + lines[0] + "\n" + DataLines(lines[1..])
  }

  lemma {:induction false} ReplacedConcat(a: string, b: string)
    ensures Replaced(a + b) == Replaced(a) + Replaced(b)
  {
    if a == "" {
      assert a + b == b;
    } else {
      assert (a + b)[1..] == a[1..] + b;
      ReplacedConcat(a[1..], b);
    }
  }

  lemma {:induction false} ReplacedOneLine(s: string)
    requires OneLine(s)
    ensures Replaced(s) == s
  {
    if s != "" {
      ReplacedOneLine(s[1..]);
    }
  }

  lemma {:induction false} EscapedHasNoCR(s: string)
    ensures '\r' !in Escaped(s)
  {
    if s != "" {
      EscapedHasNoCR(s[1..]);
    }
  }

  lemma {:induction false} ReplacedLines(s: string)
    ensures Replaced(s) == Join(Lines(Escaped(s)), "\ndata:")
  {
    if s != "" {
      ReplacedLines(s[1..]);
      var rest := Escaped(s[1..]);
      hide Join, Lines;
      if s[0] == '\n' {
        LineBefore(rest);
        assert Escaped(s) == "\n" + rest;
      } else if s[0] == '\r' {
        CharacterBefore('r', rest);
        CharacterBefore('\\', "r" + rest);
        var joined := Join(Lines(rest), "\ndata:");
        assert Escaped(s) == "\\" + ("r" + rest);
        assert "\\" + ("r" + joined) == "\\r" + joined;
      } else {
        CharacterBefore(s[0], rest);
        assert Escaped(s) == [s[0]] + rest;
      }
    }
  }

  lemma LineBefore(rest: string)
    ensures Join(Lines("\n" + rest), "\ndata:") == "\ndata:" + Join(Lines(rest), "\ndata:")
  {
    assert ("\n" + rest)[1..] == rest;
    assert ([""] + Lines(rest))[1..] == Lines(rest);
  }

  lemma CharacterBefore(c: char, rest: string)
    requires c != '\n'
    ensures Join(Lines([c] + rest), "\ndata:") == [c] + Join(Lines(rest), "\ndata:")
  {
    assert ([c] + rest)[1..] == rest;
    JoinStarts(c, Lines(rest), "\ndata:");
  }

  lemma {:induction false} JoinedAreLines(lines: seq<string>)
    requires lines != []
    ensures "data:" + Join(lines, "\ndata:") + "\n" == DataLines(lines)
  {
    if |lines| == 1 {
      assert DataLines(lines[1..]) == "";
    } else {
      JoinedAreLines(lines[1..]);
      var rest := Join(lines[1..], "\ndata:");
      assert "data:" + (lines[0] + "\ndata:" + rest) + "\n" == "data:" + lines[0] + "\n" + ("data:" + rest + "\n");
    }
  }

  /** The lines of a payload as they are printed; the first has the space after the colon. */
  function PrintedLines(payload: string): seq<string> {
    var lines := Lines(Escaped(Trimmed(payload)));
    [" " + lines[0]] + lines[1..]
  }

  lemma PrintedIsLines(payload: string)
    ensures Printed(payload) == DataLines(PrintedLines(payload)) + "\n"
  {
    var str := Trimmed(payload);
    var lines := Lines(Escaped(str));
    hide Replaced, Join, Escaped, Trimmed, Lines;
    ReplacedConcat("data: ", str);
    ReplacedOneLine("data: ");
    ReplacedLines(str);
    JoinStarts(' ', lines, "\ndata:");
    JoinedAreLines(PrintedLines(payload));
    var text := Join(lines, "\ndata:");
    assert "data: " == "data:" + " ";
    assert "data: " + text + "\n\n" == "data:" + (" " + text) + "\n" + "\n";
  }

  lemma PrintedLinesAreLines(payload: string)
    ensures forall line :: line in PrintedLines(payload) ==> OneLine(line)
  {
    var escaped := Escaped(Trimmed(payload));
    EscapedHasNoCR(Trimmed(payload));
    SplitJoins(escaped, '\n');
    SplitWithin(escaped, '\n', '\r');
  }

  // ---- Parsing what was printed ----

  lemma {:induction false} FedConcat(p: Parser, a: string, b: string)
    ensures FedAll(p, a + b) == FedAll(FedAll(p, a), b)
    decreases |a|
  {
    if a == "" {
      assert a + b == b;
    } else {
      assert (a + b)[1..] == a[1..] + b;
      FedConcat(Fed(p, a[0]), a[1..], b);
    }
  }

  lemma {:induction false} CharactersFed(p: Parser, s: string)
    requires OneLine(s) && !p.afterCR
    ensures FedAll(p, s) == p.(line := p.line + s)
    decreases |s|
  {
    if s == "" {
      assert p.line + s == p.line;
    } else {
      hide LineRead;
      CharactersFed(Fed(p, s[0]), s[1..]);
      assert p.line + s == (p.line + [s[0]]) + s[1..];
    }
  }

  lemma LineFed(p: Parser, line: string)
    requires OneLine(line) && !p.afterCR && p.line == ""
    ensures FedAll(p, line + "\n") == LineRead(p, line)
  {
    hide LineRead;
    FedConcat(p, line, "\n");
    CharactersFed(p, line);
    assert "" + line == line;
    var q := p.(line := line);
    assert FedAll(q, "\n") == FedAll(Fed(q, '\n'), "\n"[1..]) == Fed(q, '\n');
    assert q.(line := "", afterCR := false) == p;
  }

  /** The data of some lines. */
  function Collected(lines: seq<string>): string {
    if lines == [] then "" else Unspaced(lines[0]) + "\n" + Collected(lines[1..])
  }

  lemma DataRead(p: Parser, value: string)
    ensures LineRead(p, "data:" + value) == p.(data := p.data + Unspaced(value) + "\n")
  {
    hide Split;
    SplitFirst("data", value, ':');
    assert "data" + [':'] + value == "data:" + value;
    assert ("data:" + value)[5..] == value;
  }

  lemma {:induction false} DataLinesFed(p: Parser, lines: seq<string>)
    requires forall line :: line in lines ==> OneLine(line)
    requires !p.afterCR && p.line == ""
    ensures FedAll(p, DataLines(lines)) == p.(data := p.data + Collected(lines))
    decreases |lines|
  {
    if lines == [] {
      assert p.data + "" == p.data;
    } else {
      var q := p.(data := p.data + Unspaced(lines[0]) + "\n");
      DataLineFed(p, lines[0]);
      hide Fed, Unspaced;
      FedConcat(p, "data:" + lines[0] + "\n", DataLines(lines[1..]));
      DataLinesFed(q, lines[1..]);
      assert p.data + Collected(lines) == (p.data + Unspaced(lines[0]) + "\n") + Collected(lines[1..]);
    }
  }

  lemma DataLineFed(p: Parser, line: string)
    requires OneLine(line) && !p.afterCR && p.line == ""
    ensures FedAll(p, "data:" + line + "\n") == p.(data := p.data + Unspaced(line) + "\n")
  {
    hide LineRead, Unspaced;
    assert OneLine("data:" + line);
    LineFed(p, "data:" + line);
    DataRead(p, line);
  }

  lemma {:induction false} CollectedJoins(lines: seq<string>)
    requires lines != []
    ensures Collected(lines) == Join(seq(|lines|, i requires 0 <= i < |lines| => Unspaced(lines[i])), "\n") + "\n"
  {
    var all := seq(|lines|, i requires 0 <= i < |lines| => Unspaced(lines[i]));
    if |lines| == 1 {
      assert Collected(lines[1..]) == "";
      assert Unspaced(lines[0]) + "\n" + "" == Unspaced(lines[0]) + "\n";
    } else {
      var rest := lines[1..];
      CollectedJoins(rest);
      assert all[1..] == seq(|rest|, i requires 0 <= i < |rest| => Unspaced(rest[i]));
    }
  }

  lemma CollectedIsDelivered(payload: string)
    ensures Collected(PrintedLines(payload)) == Delivered(payload) + "\n"
  {
    var (lines, printed) := (Lines(Escaped(Trimmed(payload))), PrintedLines(payload));
    CollectedJoins(printed);
    assert seq(|printed|, i requires 0 <= i < |printed| => Unspaced(printed[i])) == UnspacedAll(lines);
  }

  /** Between two events. */
  predicate Idle(p: Parser) {
    p == START.(events := p.events)
  }

  lemma PrintedFed(p: Parser, payload: string)
    requires Idle(p)
    ensures FedAll(p, Printed(payload)) == p.(events := p.events + [Event("message", Delivered(payload), "")])
  {
    hide Printed, PrintedLines, Delivered, Collected, DataLines;
    var lines := PrintedLines(payload);
    PrintedIsLines(payload);
    PrintedLinesAreLines(payload);
    FedConcat(p, DataLines(lines), "\n");
    DataLinesFed(p, lines);
    CollectedIsDelivered(payload);
    assert "" + (Delivered(payload) + "\n") == Delivered(payload) + "\n";
    var q := p.(data := Delivered(payload) + "\n");
    LineFed(q, "");
    assert "" + "\n" == "\n";
    assert q.data[..|q.data| - 1] == Delivered(payload);
  }

  lemma {:induction false} AllPrintedFed(payloads: seq<string>)
    ensures FedAll(START, PrintedAll(payloads)) == START.(events := DeliveredAll(payloads))
  {
    hide Delivered, Printed, Fed;
    if payloads != [] {
      var (before, last) := (payloads[..|payloads| - 1], payloads[|payloads| - 1]);
      AllPrintedFed(before);
      FedConcat(START, PrintedAll(before), Printed(last));
      PrintedFed(FedAll(START, PrintedAll(before)), last);
      assert DeliveredAll(payloads) == DeliveredAll(before) + [Event("message", Delivered(last), "")];
    }
  }

  lemma {:induction false} StartsWithData(payloads: seq<string>)
    ensures payloads != [] ==> PrintedAll(payloads) != "" && PrintedAll(payloads)[0] == 'd'
  {
    if payloads != [] {
      StartsWithData(payloads[..|payloads| - 1]);
      assert Printed(payloads[|payloads| - 1])[0] == 'd';
    }
  }

  /** However many lines the payloads have, each arrives as one event, in order. */
  lemma EveryPayloadArrives(payloads: seq<string>)
    ensures Parse(PrintedAll(payloads)) == DeliveredAll(payloads)
  {
    AllPrintedFed(payloads);
    StartsWithData(payloads);
    hide FedAll, DeliveredAll, Printed;
  }

  // ---- Which payloads arrive unchanged ----

  lemma {:induction false} EscapedPlain(s: string)
    requires '\r' !in s
    ensures Escaped(s) == s
  {
    if s != "" {
      EscapedPlain(s[1..]);
      assert [s[0]] + s[1..] == s;
    }
  }

  /** No line after the first begins with a space. */
  predicate NoneIndented(lines: seq<string>) {
    forall i :: 1 <= i < |lines| ==> !(" " <= lines[i])
  }

  lemma UnspacedIff(lines: seq<string>)
    ensures UnspacedAll(lines) == lines <==> NoneIndented(lines)
  {
    forall i | 1 <= i < |lines| ensures UnspacedAll(lines)[i] == lines[i] <==> !(" " <= lines[i]) {
      if " " <= lines[i] {
        assert |Unspaced(lines[i])| < |lines[i]|;
      }
    }
    if UnspacedAll(lines) == lines {
      forall i | 1 <= i < |lines| ensures !(" " <= lines[i]) {
        assert UnspacedAll(lines)[i] == lines[i];
      }
    }
  }

  lemma {:induction false} JoinCharacters(pieces: seq<string>, glue: string, c: char)
    requires Within(pieces, c) && c !in glue
    ensures c !in Join(pieces, glue)
  {
    if |pieces| > 1 {
      JoinCharacters(pieces[1..], glue, c);
    }
  }

  lemma {:induction false} JoinShrinks(lines: seq<string>, shorter: seq<string>, glue: string)
    requires |shorter| == |lines| && forall i :: 0 <= i < |lines| ==> |shorter[i]| <= |lines[i]|
    ensures |Join(shorter, glue)| <= |Join(lines, glue)|
  {
    if |lines| > 1 {
      JoinShrinks(lines[1..], shorter[1..], glue);
    }
  }

  /**
    A payload arrives unchanged exactly when it has no carriage return, does not begin with the
    prefix that the printer takes off, and has no indented line after the first.
   */
  lemma DeliveredUnchangedIff(payload: string)
    ensures Delivered(payload) == payload
            <==> '\r' !in payload && !("data: " <= payload) && NoneIndented(Lines(payload))
  {
    NoCRDelivered(payload);
    if '\r' !in payload {
      DeliveredPlainly(payload);
      PlainUnchangedIff(payload);
      hide Delivered;
      if "data: " <= payload {
        assert |Trimmed(payload)| < |payload|;
      }
    }
  }

  lemma PlainUnchangedIff(s: string)
    ensures Join(UnspacedAll(Lines(s)), "\n") == s <==> NoneIndented(Lines(s))
  {
    var lines := Lines(s);
    UnspacedIff(lines);
    SplitJoins(s, '\n');
    if Join(UnspacedAll(lines), "\n") == s {
      UnspacedWithin(lines);
      JoinSplits(UnspacedAll(lines), '\n');
    }
  }

  /** A prefix that is there already is not doubled: what follows it arrives, under the same conditions. */
  lemma PrefixTakenOffIff(s: string)
    ensures Delivered("data: " + s) == s <==> '\r' !in s && NoneIndented(Lines(s))
  {
    var payload := "data: " + s;
    assert payload[6..] == s && payload[..6] == "data: ";
    NoCRDelivered(payload);
    if '\r' !in s {
      assert '\r' !in payload && Trimmed(payload) == s;
      DeliveredPlainly(payload);
      PlainUnchangedIff(s);
    }
  }

  /** One carriage return at the end is taken off. */
  lemma LastCRTakenOff(s: string)
    requires s != "" ==> s[|s| - 1] != '\r'
    ensures Delivered(s + "\r") == Delivered(s)
  {
    var payload := s + "\r";
    assert payload[..|s|] == s;
    if "data: " <= payload {
      assert payload[5] == ' ' && "data: " <= s;
      assert payload[6..] == s[6..] + "\r" && (s[6..] + "\r")[..|s| - 6] == s[6..];
    } else {
      assert !("data: " <= s);
    }
    assert Trimmed(payload) == Trimmed(s);
  }

  lemma {:induction false} EscapedConcat(a: string, b: string)
    ensures Escaped(a + b) == Escaped(a) + Escaped(b)
  {
    if a == "" {
      assert a + b == b;
    } else {
      assert (a + b)[1..] == a[1..] + b;
      EscapedConcat(a[1..], b);
    }
  }

  lemma NotPrefixed(a: string, b: string)
    requires !("data: " <= a)
    ensures !("data: " <= a + "\r" + b)
  {
    var payload := a + "\r" + b;
    if |a| >= 6 {
      assert payload[..6] == a[..6];
    } else {
      assert payload[|a|] == '\r' && '\r' !in "data: ";
    }
  }

  /** Any other carriage return arrives spelled out, as a backslash and the letter r. */
  lemma InnerCRSpelledOut(a: string, b: string)
    requires OneLine(a) && OneLine(b) && b != "" && !("data: " <= a)
    ensures Delivered(a + "\r" + b) == a + "\\" + "r" + b
  {
    var payload := a + "\r" + b;
    NotPrefixed(a, b);
    assert payload[|payload| - 1] == b[|b| - 1];
    assert Trimmed(payload) == payload;
    hide Trimmed;
    EscapedConcat(a + "\r", b);
    EscapedConcat(a, "\r");
    EscapedPlain(a);
    EscapedPlain(b);
    assert Escaped("\r") == "\\" + "r" + Escaped("\r"[1..]);
    var line := a + "\\" + "r" + b;
    assert Escaped(payload) == line;
    SplitFirst(line, "", '\n');
    assert UnspacedAll([line]) == [line];
  }

  lemma UnspacedWithin(lines: seq<string>)
    requires Within(lines, '\n')
    ensures Within(UnspacedAll(lines), '\n')
  {
  }

  lemma NoCRDelivered(payload: string)
    ensures '\r' !in Delivered(payload)
  {
    var escaped := Escaped(Trimmed(payload));
    EscapedHasNoCR(Trimmed(payload));
    SplitWithin(escaped, '\n', '\r');
    hide Split, Escaped, Join;
    var lines := UnspacedAll(Lines(escaped));
    assert Within(lines, '\r');
    JoinCharacters(lines, "\n", '\r');
  }

  lemma DeliveredPlainly(payload: string)
    requires '\r' !in payload
    ensures '\r' !in Trimmed(payload) && Delivered(payload) == Join(UnspacedAll(Lines(Trimmed(payload))), "\n")
    ensures |Delivered(payload)| <= |Trimmed(payload)|
  {
    var str := Trimmed(payload);
    assert '\r' !in str;
    EscapedPlain(str);
    SplitJoins(str, '\n');
    hide Trimmed, Split, Join, Escaped;
    JoinShrinks(Lines(str), UnspacedAll(Lines(str)), "\n");
  }
}
