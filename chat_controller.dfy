/** `ChatController::run` and `format_log_message`: every message of the
    stream becomes one log line, printed and then forwarded to the
    Minecraft server; a forwarding failure is reported and the loop goes on. */
module ChatController {
  import opened Wrappers
  import opened ChatModel
  import opened ChatService
  import opened MinecraftService

  const VerifiedGlyph: char := '\U{2714}'
  const OwnerGlyph: char := '\U{1F451}'
  const SponsorGlyph: char := '\U{1F48E}'
  const ModeratorGlyph: char := '\U{1F527}'

  /** The badge glyphs in their fixed order: verified, owner, sponsor, moderator. */
  const BadgeGlyphs: seq<char> := [VerifiedGlyph, OwnerGlyph, SponsorGlyph, ModeratorGlyph]

  /** An author's flags, in the order of `BadgeGlyphs`. */
  function Flags(a: Author): seq<bool>
  {
    [a.is_verified, a.is_chat_owner, a.is_chat_sponsor, a.is_chat_moderator]
  }

  /** Where a glyph sits in `BadgeGlyphs` (4 for any other character). */
  function Rank(c: char): nat
  {
    if c == VerifiedGlyph then 0
    else if c == OwnerGlyph then 1
    else if c == SponsorGlyph then 2
    else if c == ModeratorGlyph then 3
    else 4
  }

  function CountTrue(on: seq<bool>): nat
  {
    if |on| == 0 then 0 else CountTrue(on[..|on| - 1]) + (if on[|on| - 1] then 1 else 0)
  }

  /** The glyphs whose flag is set, in the order given. */
  function Select(glyphs: seq<char>, on: seq<bool>): (r: seq<char>)
    requires |glyphs| == |on|
    ensures |r| <= |glyphs|
  {
    if |on| == 0 then []
    else Select(glyphs[..|on| - 1], on[..|on| - 1]) + (if on[|on| - 1] then [glyphs[|on| - 1]] else [])
  }

  lemma {:induction false} SelectLength(glyphs: seq<char>, on: seq<bool>)
    requires |glyphs| == |on|
    ensures |Select(glyphs, on)| == CountTrue(on)
  {
    if |on| > 0 {
      SelectLength(glyphs[..|on| - 1], on[..|on| - 1]);
    }
  }

  lemma {:induction false} SelectMember(glyphs: seq<char>, on: seq<bool>, c: char)
    requires |glyphs| == |on|
    ensures c in Select(glyphs, on) <==> exists k :: 0 <= k < |on| && on[k] && glyphs[k] == c
  {
    if |on| > 0 {
      var n := |on| - 1;
      SelectMember(glyphs[..n], on[..n], c);
      if exists k :: 0 <= k < |on| && on[k] && glyphs[k] == c {
        var k :| 0 <= k < |on| && on[k] && glyphs[k] == c;
        if k < n {
          assert on[..n][k] && glyphs[..n][k] == c;
        }
      }
    }
  }

  /** Selecting from glyphs of strictly increasing rank keeps the ranks
      strictly increasing. */
  lemma {:induction false} SelectRanked(glyphs: seq<char>, on: seq<bool>)
    requires |glyphs| == |on|
    requires forall i, j :: 0 <= i < j < |glyphs| ==> Rank(glyphs[i]) < Rank(glyphs[j])
    ensures forall i, j :: 0 <= i < j < |Select(glyphs, on)| ==> Rank(Select(glyphs, on)[i]) < Rank(Select(glyphs, on)[j])
  {
    if |on| > 0 {
      var n := |on| - 1;
      var init := Select(glyphs[..n], on[..n]);
      SelectRanked(glyphs[..n], on[..n]);
      if on[n] {
        forall i | 0 <= i < |init|
          ensures Rank(init[i]) < Rank(glyphs[n])
        {
          SelectMember(glyphs[..n], on[..n], init[i]);
          assert init[i] in init;
        }
      }
    }
  }

  /** The badge glyphs of a log line. */
  function BadgeSymbols(a: Author): string
  {
    Select(BadgeGlyphs, Flags(a))
  }

  function FlagCount(a: Author): nat
  {
    (if a.is_verified then 1 else 0) + (if a.is_chat_owner then 1 else 0)
    + (if a.is_chat_sponsor then 1 else 0) + (if a.is_chat_moderator then 1 else 0)
  }

  lemma GlyphRanks()
    ensures forall k :: 0 <= k < |BadgeGlyphs| ==> Rank(BadgeGlyphs[k]) == k
  {
    forall k | 0 <= k < |BadgeGlyphs|
      ensures Rank(BadgeGlyphs[k]) == k
    {
      if k == 0 {
      } else if k == 1 {
      } else if k == 2 {
      } else {
      }
    }
  }

  lemma CountFlags(a: Author)
    ensures CountTrue(Flags(a)) == FlagCount(a)
  {
    var on := Flags(a);
    assert CountTrue(on[..1]) == (if a.is_verified then 1 else 0) by {
      assert on[..1][..0] == [];
    }
    assert CountTrue(on[..2]) == CountTrue(on[..1]) + (if a.is_chat_owner then 1 else 0) by {
      assert on[..2][..1] == on[..1];
    }
    assert CountTrue(on[..3]) == CountTrue(on[..2]) + (if a.is_chat_sponsor then 1 else 0) by {
      assert on[..3][..2] == on[..2];
    }
  }

  /** One glyph per set flag and nothing else, in the fixed order. */
  lemma BadgeSymbolsExact(a: Author)
    ensures |BadgeSymbols(a)| == FlagCount(a) <= 4
    ensures VerifiedGlyph in BadgeSymbols(a) <==> a.is_verified
    ensures OwnerGlyph in BadgeSymbols(a) <==> a.is_chat_owner
    ensures SponsorGlyph in BadgeSymbols(a) <==> a.is_chat_sponsor
    ensures ModeratorGlyph in BadgeSymbols(a) <==> a.is_chat_moderator
    ensures forall i, j :: 0 <= i < j < |BadgeSymbols(a)| ==> Rank(BadgeSymbols(a)[i]) < Rank(BadgeSymbols(a)[j]) < 4
  {
    var on := Flags(a);
    SelectLength(BadgeGlyphs, on);
    CountFlags(a);
    GlyphRanks();
    SelectMember(BadgeGlyphs, on, VerifiedGlyph);
    SelectMember(BadgeGlyphs, on, OwnerGlyph);
    SelectMember(BadgeGlyphs, on, SponsorGlyph);
    SelectMember(BadgeGlyphs, on, ModeratorGlyph);
    assert BadgeGlyphs[0] == VerifiedGlyph && BadgeGlyphs[1] == OwnerGlyph;
    assert BadgeGlyphs[2] == SponsorGlyph && BadgeGlyphs[3] == ModeratorGlyph;
    SelectRanked(BadgeGlyphs, on);
    forall i | 0 <= i < |BadgeSymbols(a)|
      ensures Rank(BadgeSymbols(a)[i]) < 4
    {
      SelectMember(BadgeGlyphs, on, BadgeSymbols(a)[i]);
    }
  }

  /** The glyphs pushed one `if` at a time, as `format_log_message` does,
      are the selected ones. */
  lemma BadgeSymbolsPushed(a: Author)
    ensures BadgeSymbols(a) ==
      (if a.is_verified then [VerifiedGlyph] else [])
      + (if a.is_chat_owner then [OwnerGlyph] else [])
      + (if a.is_chat_sponsor then [SponsorGlyph] else [])
      + (if a.is_chat_moderator then [ModeratorGlyph] else [])
  {
    var g, on := BadgeGlyphs, Flags(a);
    var one := if a.is_verified then [VerifiedGlyph] else [];
    var two := one + (if a.is_chat_owner then [OwnerGlyph] else []);
    var three := two + (if a.is_chat_sponsor then [SponsorGlyph] else []);
    assert Select(g[..1], on[..1]) == one by {
      assert g[..1][..0] == [] && on[..1][..0] == [];
    }
    assert Select(g[..2], on[..2]) == two by {
      assert g[..2][..1] == g[..1] && on[..2][..1] == on[..1];
    }
    assert Select(g[..3], on[..3]) == three by {
      assert g[..3][..2] == g[..2] && on[..3][..2] == on[..2];
    }
  }

  /** `[{datetime}] [{message_type}] {author_name}{badges}: {message}` */
  function LogLine(m: ChatMessage, datetime: string): string
  {
    "[" + datetime + "] [" + m.message_type + "] " + m.author.name + BadgeSymbols(m.author) + ": " + m.message
  }

  /** The log line starts with the bracketed time and ends with the
      message text; its length accounts for every part. */
  lemma LogLineShape(m: ChatMessage, datetime: string)
    ensures |LogLine(m, datetime)| == |datetime| + |m.message_type| + |m.author.name| + FlagCount(m.author) + |m.message| + 8
    ensures LogLine(m, datetime)[..|datetime| + 4] == "[" + datetime + "] ["
    ensures LogLine(m, datetime)[|LogLine(m, datetime)| - |m.message| - 2..] == ": " + m.message
  {
    BadgeSymbolsExact(m.author);
    var head := "[" + datetime + "] [";
    var tail := ": " + m.message;
    var line := LogLine(m, datetime);
    assert line == head + (m.message_type + "] " + m.author.name + BadgeSymbols(m.author) + tail);
    assert line == (head + m.message_type + "] " + m.author.name + BadgeSymbols(m.author)) + tail;
  }

  /** `format_log_message`, with the formatted local time passed in. */
  method FormatLogMessage(m: ChatMessage, datetime: string) returns (line: string)
    ensures line == LogLine(m, datetime)
  {
    var badges := "";
    if m.author.is_verified {
      badges := badges + [VerifiedGlyph];
    }
    if m.author.is_chat_owner {
      badges := badges + [OwnerGlyph];
    }
    if m.author.is_chat_sponsor {
      badges := badges + [SponsorGlyph];
    }
    if m.author.is_chat_moderator {
      badges := badges + [ModeratorGlyph];
    }
    BadgeSymbolsPushed(m.author);
    line := "[" + datetime + "] [" + m.message_type + "] " + m.author.name + badges + ": " + m.message;
  }

  datatype Output =
    | Stdout(line: string)
    | Forward(command: string)
    | Stderr(line: string)

  const SendFailedPrefix: string := "Error sending to Minecraft: "
  const ItemErrorPrefix: string := "Error: "

  /** The report of a failed send, if any. */
  function SendReport(failed: Option<string>): (r: seq<Output>)
    ensures |r| <= 1 && forall i :: 0 <= i < |r| ==> r[i].Stderr?
    ensures |r| == 1 <==> failed.Some?
    ensures failed.Some? ==> r[0].line == SendFailedPrefix + failed.value
  {
    match failed
    case None => []
    case Some(e) => [Stderr(SendFailedPrefix + e)]
  }

  /** What `run` does with one stream item. `now` is the local time
      `format_log_message` reads; `send` is the outcome of
      `send_chat_message` for a line (`None` when it succeeded). */
  function ItemOutputs(item: StreamItem, now: string, send: string -> Option<string>): seq<Output>
  {
    match item
    case Ok(m) =>
      var line := LogLine(m, now);
      [Stdout(line), Forward(TellrawCommandAsWritten(line))] + SendReport(send(line))
    case Err(e) => [Stderr(ItemErrorPrefix + e)]
  }

  /** Everything `run` writes for `stream`; `clock(k)` is the local time
      when item `k` is handled. */
  function RunTrace(stream: seq<StreamItem>, clock: nat -> string, send: string -> Option<string>): seq<Output>
  {
    if |stream| == 0 then []
    else RunTrace(stream[..|stream| - 1], clock, send) + ItemOutputs(stream[|stream| - 1], clock(|stream| - 1), send)
  }

  /** The body of the `while let` loop for one item. */
  method HandleItem(item: StreamItem, now: string, send: string -> Option<string>) returns (out: seq<Output>)
    ensures out == ItemOutputs(item, now, send)
  {
    match item {
      case Ok(m) =>
        var line := FormatLogMessage(m, now);
        out := [Stdout(line)];
        out := out + [Forward(TellrawCommandAsWritten(line))];
        var failed := send(line);
        if failed.Some? {
          out := out + [Stderr(SendFailedPrefix + failed.value)];
        }
      case Err(e) =>
        out := [Stderr(ItemErrorPrefix + e)];
    }
  }

  /** `ChatController::run` over the items the stream produces. */
  method Run(stream: seq<StreamItem>, clock: nat -> string, send: string -> Option<string>)
    returns (out: seq<Output>, r: Result<(), string>)
    ensures out == RunTrace(stream, clock, send)
    ensures r == Ok(())
  {
    out := [];
    var i := 0;
    while i < |stream|
      invariant 0 <= i <= |stream|
      invariant out == RunTrace(stream[..i], clock, send)
    {
      assert stream[..i + 1][..i] == stream[..i];
      var handled := HandleItem(stream[i], clock(i), send);
      out := out + handled;
      i := i + 1;
    }
    assert stream[..i] == stream;
    r := Ok(());
  }

  /** The lines printed to standard output, in order. */
  function Printed(out: seq<Output>): seq<string>
  {
    if |out| == 0 then []
    else Printed(out[..|out| - 1]) + (if out[|out| - 1].Stdout? then [out[|out| - 1].line] else [])
  }

  /** The commands sent to the Minecraft server, in order. */
  function Forwarded(out: seq<Output>): seq<string>
  {
    if |out| == 0 then []
    else Forwarded(out[..|out| - 1]) + (if out[|out| - 1].Forward? then [out[|out| - 1].command] else [])
  }

  /** The log line of every message of the stream, in order. */
  function LogLines(stream: seq<StreamItem>, clock: nat -> string): (lines: seq<string>)
    ensures |lines| <= |stream|
  {
    if |stream| == 0 then []
    else LogLines(stream[..|stream| - 1], clock)
         + (if stream[|stream| - 1].Ok? then [LogLine(stream[|stream| - 1].value, clock(|stream| - 1))] else [])
  }

  function Commands(lines: seq<string>): (cmds: seq<string>)
    ensures |cmds| == |lines|
  {
    if |lines| == 0 then [] else Commands(lines[..|lines| - 1]) + [TellrawCommandAsWritten(lines[|lines| - 1])]
  }

  lemma {:induction false} PrintedAppend(a: seq<Output>, b: seq<Output>)
    ensures Printed(a + b) == Printed(a) + Printed(b)
    decreases |b|
  {
    if |b| == 0 {
      assert a + b == a;
    } else {
      assert (a + b)[..|a + b| - 1] == a + b[..|b| - 1];
      PrintedAppend(a, b[..|b| - 1]);
    }
  }

  lemma {:induction false} ForwardedAppend(a: seq<Output>, b: seq<Output>)
    ensures Forwarded(a + b) == Forwarded(a) + Forwarded(b)
    decreases |b|
  {
    if |b| == 0 {
      assert a + b == a;
    } else {
      assert (a + b)[..|a + b| - 1] == a + b[..|b| - 1];
      ForwardedAppend(a, b[..|b| - 1]);
    }
  }

  /** A printed line, its forwarded command and an optional error report. */
  lemma PrintedPair(line: string, cmd: string, report: seq<Output>)
    requires |report| <= 1 && forall i :: 0 <= i < |report| ==> report[i].Stderr?
    ensures Printed([Stdout(line), Forward(cmd)] + report) == [line]
    ensures Forwarded([Stdout(line), Forward(cmd)] + report) == [cmd]
  {
    var two: seq<Output> := [Stdout(line), Forward(cmd)];
    assert two[..1] == [Stdout(line)] && [Stdout(line)][..0] == [];
    PrintedAppend(two, report);
    ForwardedAppend(two, report);
    if |report| == 1 {
      assert report[..0] == [];
    }
  }

  /** One item prints its line (if it is a message) and forwards exactly
      that line, whatever the outcome of the send. */
  lemma ItemOutputsLines(item: StreamItem, now: string, send: string -> Option<string>)
    ensures Printed(ItemOutputs(item, now, send)) == (if item.Ok? then [LogLine(item.value, now)] else [])
    ensures Forwarded(ItemOutputs(item, now, send)) == Commands(Printed(ItemOutputs(item, now, send)))
  {
    match item
    case Ok(m) =>
      var line := LogLine(m, now);
      PrintedPair(line, TellrawCommandAsWritten(line), SendReport(send(line)));
      assert Commands([line]) == [TellrawCommandAsWritten(line)] by {
        assert [line][..0] == [];
      }
    case Err(e) =>
      assert ItemOutputs(item, now, send)[..0] == [];
  }

  lemma {:induction false} CommandsAppend(a: seq<string>, b: seq<string>)
    ensures Commands(a + b) == Commands(a) + Commands(b)
    decreases |b|
  {
    if |b| == 0 {
      assert a + b == a;
    } else {
      assert (a + b)[..|a + b| - 1] == a + b[..|b| - 1];
      CommandsAppend(a, b[..|b| - 1]);
    }
  }

  /** `run` prints the log line of every message of the stream, in order,
      including those after an `Err` item or a failed send. */
  lemma {:induction false} RunPrintsEveryMessage(stream: seq<StreamItem>, clock: nat -> string, send: string -> Option<string>)
    ensures Printed(RunTrace(stream, clock, send)) == LogLines(stream, clock)
  {
    if |stream| > 0 {
      var n := |stream| - 1;
      RunPrintsEveryMessage(stream[..n], clock, send);
      PrintedAppend(RunTrace(stream[..n], clock, send), ItemOutputs(stream[n], clock(n), send));
      ItemOutputsLines(stream[n], clock(n), send);
    }
  }

  /** `run` forwards exactly the lines it prints: one `tellraw` per line,
      in the same order. */
  lemma {:induction false} RunForwardsEveryLine(stream: seq<StreamItem>, clock: nat -> string, send: string -> Option<string>)
    ensures Forwarded(RunTrace(stream, clock, send)) == Commands(Printed(RunTrace(stream, clock, send)))
  {
    if |stream| > 0 {
      var n := |stream| - 1;
      var before := RunTrace(stream[..n], clock, send);
      var item := ItemOutputs(stream[n], clock(n), send);
      RunForwardsEveryLine(stream[..n], clock, send);
      PrintedAppend(before, item);
      ForwardedAppend(before, item);
      ItemOutputsLines(stream[n], clock(n), send);
      CommandsAppend(Printed(before), Printed(item));
    }
  }

  /** A failing Minecraft server changes nothing about what is printed or
      forwarded: only the error reports differ. */
  lemma SendFailuresAreIsolated(stream: seq<StreamItem>, clock: nat -> string,
                                send1: string -> Option<string>, send2: string -> Option<string>)
    ensures Printed(RunTrace(stream, clock, send1)) == Printed(RunTrace(stream, clock, send2))
    ensures Forwarded(RunTrace(stream, clock, send1)) == Forwarded(RunTrace(stream, clock, send2))
  {
    RunPrintsEveryMessage(stream, clock, send1);
    RunPrintsEveryMessage(stream, clock, send2);
    RunForwardsEveryLine(stream, clock, send1);
    RunForwardsEveryLine(stream, clock, send2);
  }

  /** On a stream of messages only (as `stream_messages` produces), every
      item gives one printed line. */
  lemma {:induction false} AllMessagesPrinted(stream: seq<StreamItem>, clock: nat -> string)
    requires forall i :: 0 <= i < |stream| ==> stream[i].Ok?
    ensures |LogLines(stream, clock)| == |stream|
  {
    if |stream| > 0 {
      AllMessagesPrinted(stream[..|stream| - 1], clock);
    }
  }
}
