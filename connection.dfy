/** The per-connection protocol around the coordinator: the name handshake,
    the rules that turn each line read into a chat message, and the sequence
    of events one connection submits over its lifetime. */
module Connection {
  import opened Text

  /** The reply to a connection that offers a blank name. */
  const EmptyNameReply := "Name cannot be empty. Bye.\n"

  /** How the handshake ends: a member with a name, a refusal with a reply,
      or a silent close after a transport failure. */
  datatype Handshake = Accepted(name: string) | Refused(reply: string) | Dropped

  /** The handshake: the banner must have been written and a name line read;
      the name is that line trimmed, and a blank one is refused. */
  function Greet(bannerWritten: bool, nameLine: Option<string>): (h: Handshake)
    ensures h.Dropped? <==> !bannerWritten || nameLine.None?
    ensures h.Refused? <==> bannerWritten && nameLine.Some? && Blank(nameLine.value)
    ensures h.Refused? ==> h.reply == EmptyNameReply
    ensures h.Accepted? ==> h.name == TrimSpace(nameLine.value)
    ensures h.Accepted? ==> h.name != [] && !IsSpace(h.name[0]) && !IsSpace(h.name[|h.name| - 1])
  {
    if !bannerWritten then Dropped
    else match nameLine
      case None => Dropped
      case Some(line) =>
        var name := TrimSpace(line);
        if name == "" then Refused(EmptyNameReply) else Accepted(name)
  }

  /** The broadcast form of a chat line: "[stamp][sender]:text\n". */
  function FormatMessage(stamp: string, sender: string, text: string): string {
    "[" + stamp + "][" + sender + "]:" + text + "\n"
  }

  /** What one line read from a member becomes: nothing when it is blank,
      otherwise its trimmed text formatted with the stamp and the sender. */
  function ChatLine(stamp: string, sender: string, line: string): (m: Option<string>)
    ensures m.None? <==> Blank(line)
    ensures m.Some? ==> m.value == FormatMessage(stamp, sender, TrimSpace(line))
  {
    var text := TrimSpace(line);
    if text == "" then None else Some(FormatMessage(stamp, sender, text))
  }

  /** The fields of a formatted chat message. */
  datatype Chat = Chat(stamp: string, sender: string, text: string)

  /** The first index of `c` in `s`, if any. */
  function IndexOf(s: string, c: char): (r: Option<nat>)
    ensures r.None? <==> c !in s
    ensures r.Some? ==> r.value < |s| && s[r.value] == c
    ensures r.Some? ==> forall i :: 0 <= i < r.value ==> s[i] != c
  {
    if s == [] then None
    else if s[0] == c then Some(0)
    else match IndexOf(s[1..], c)
      case None => None
      case Some(i) => Some(i + 1)
  }

  /** Reads a formatted chat message back into its fields: it must open with
      '[' and end with a line feed; see ParseFields for what lies between. */
  function ParseMessage(m: string): Option<Chat> {
    if |m| < 2 || m[0] != '[' || m[|m| - 1] != '\n' then None
    else ParseFields(m[1..|m| - 1])
  }

  /** The stamp runs to the first ']'; the rest is read by ParseSender. */
  function ParseFields(body: string): Option<Chat> {
    match IndexOf(body, ']')
    case None => None
    case Some(i) => ParseSender(body[..i], body[i + 1..])
  }

  /** After the stamp: '[', the sender up to the next ']', then ':' and the text. */
  function ParseSender(stamp: string, rest: string): Option<Chat> {
    if rest == [] || rest[0] != '[' then None
    else
      var tail := rest[1..];
      match IndexOf(tail, ']')
      case None => None
      case Some(j) =>
        if j + 1 < |tail| && tail[j + 1] == ':' then Some(Chat(stamp, tail[..j], tail[j + 2..]))
        else None
  }

  /** The first `c` after a prefix free of `c` is found right after that prefix. */
  lemma IndexAfterPrefix(prefix: string, c: char, rest: string)
    requires c !in prefix
    ensures IndexOf(prefix + [c] + rest, c) == Some(|prefix|)
  {
    var s := prefix + [c] + rest;
    assert s[|prefix|] == c;
    assert forall k :: 0 <= k < |prefix| ==> s[k] == prefix[k];
  }

  /** The sender part of a formatted message reads back. */
  lemma ParseSenderRoundTrip(stamp: string, sender: string, text: string)
    requires ']' !in sender
    ensures ParseSender(stamp, "[" + sender + "]:" + text) == Some(Chat(stamp, sender, text))
  {
    var rest := "[" + sender + "]:" + text;
    var tail := sender + [']'] + (":" + text);
    assert rest[1..] == tail;
    IndexAfterPrefix(sender, ']', ":" + text);
    assert tail[..|sender|] == sender;
    assert tail[|sender| + 2..] == text;
  }

  /** The stamp and sender parts of a formatted message read back. */
  lemma ParseFieldsRoundTrip(stamp: string, sender: string, text: string)
    requires ']' !in stamp && ']' !in sender
    ensures ParseFields(stamp + "][" + sender + "]:" + text) == Some(Chat(stamp, sender, text))
  {
    var rest := "[" + sender + "]:" + text;
    var body := stamp + [']'] + rest;
    assert stamp + "][" + sender + "]:" + text == body;
    IndexAfterPrefix(stamp, ']', rest);
    assert body[..|stamp|] == stamp;
    assert body[|stamp| + 1..] == rest;
    ParseSenderRoundTrip(stamp, sender, text);
  }

  /** Formatting is undone by parsing, provided neither the stamp nor the sender
      holds a ']' (the stamp format "2006-01-02 15:04:05" never does). */
  lemma FormatParseRoundTrip(stamp: string, sender: string, text: string)
    requires ']' !in stamp && ']' !in sender
    ensures ParseMessage(FormatMessage(stamp, sender, text)) == Some(Chat(stamp, sender, text))
  {
    var m := FormatMessage(stamp, sender, text);
    var body := stamp + "][" + sender + "]:" + text;
    assert m == "[" + body + "\n";
    assert |m| == |body| + 2 && m[0] == '[' && m[|m| - 1] == '\n';
    assert m[1..|m| - 1] == body;
    ParseFieldsRoundTrip(stamp, sender, text);
  }

  /** The messages a member named `sender` submits for `lines`, the lines read
      before the connection failed or reached end of input; `stamps[i]` is the
      clock reading taken for `lines[i]`. */
  function ChatMessages(sender: string, lines: seq<string>, stamps: seq<string>): seq<string>
    requires |stamps| == |lines|
    decreases |lines|
  {
    if lines == [] then []
    else
      var n := |lines| - 1;
      ChatMessages(sender, lines[..n], stamps[..n])
        + match ChatLine(stamps[n], sender, lines[n]) case None => [] case Some(m) => [m]
  }

  /** How many of `lines` are not blank. */
  function CountNonBlank(lines: seq<string>): nat
    decreases |lines|
  {
    if lines == [] then 0
    else CountNonBlank(lines[..|lines| - 1]) + if Blank(lines[|lines| - 1]) then 0 else 1
  }

  /** There are exactly as many messages as non-blank lines. */
  lemma {:induction false} ChatMessagesCount(sender: string, lines: seq<string>, stamps: seq<string>)
    requires |stamps| == |lines|
    ensures |ChatMessages(sender, lines, stamps)| == CountNonBlank(lines)
    decreases |lines|
  {
    if lines != [] {
      var n := |lines| - 1;
      ChatMessagesCount(sender, lines[..n], stamps[..n]);
    }
  }

  /** Whatever the member's name, every message it submits is one of its
      non-blank lines read, trimmed and formatted with that line's stamp and
      the member's name. */
  lemma {:induction false} ChatMessagesFromLines(sender: string, lines: seq<string>, stamps: seq<string>)
    requires |stamps| == |lines|
    ensures forall m :: m in ChatMessages(sender, lines, stamps) ==>
      exists i :: 0 <= i < |lines| && !Blank(lines[i]) && m == FormatMessage(stamps[i], sender, TrimSpace(lines[i]))
    decreases |lines|
  {
    if lines != [] {
      var n := |lines| - 1;
      ChatMessagesFromLines(sender, lines[..n], stamps[..n]);
      forall m | m in ChatMessages(sender, lines, stamps)
        ensures exists i :: 0 <= i < |lines| && !Blank(lines[i]) && m == FormatMessage(stamps[i], sender, TrimSpace(lines[i]))
      {
        if m in ChatMessages(sender, lines[..n], stamps[..n]) {
          var i :| 0 <= i < n && !Blank(lines[..n][i]) && m == FormatMessage(stamps[..n][i], sender, TrimSpace(lines[..n][i]));
          assert lines[..n][i] == lines[i] && stamps[..n][i] == stamps[i];
        } else {
          assert !Blank(lines[n]) && m == FormatMessage(stamps[n], sender, TrimSpace(lines[n]));
        }
      }
    }
  }

  /** For a member whose name holds no ']' (and stamps that hold none), every
      message it submits also parses back, carries its own name, and has a
      non-blank text that is already trimmed. */
  lemma {:induction false} ChatMessagesWellFormed(sender: string, lines: seq<string>, stamps: seq<string>)
    requires |stamps| == |lines|
    requires ']' !in sender
    requires forall i :: 0 <= i < |stamps| ==> ']' !in stamps[i]
    ensures forall m :: m in ChatMessages(sender, lines, stamps) ==>
      && ParseMessage(m).Some?
      && ParseMessage(m).value.sender == sender
      && ParseMessage(m).value.text != []
      && ParseMessage(m).value.text == TrimSpace(ParseMessage(m).value.text)
    decreases |lines|
  {
    if lines != [] {
      var n := |lines| - 1;
      ChatMessagesWellFormed(sender, lines[..n], stamps[..n]);
      var last := ChatLine(stamps[n], sender, lines[n]);
      if last.Some? {
        var text := TrimSpace(lines[n]);
        FormatParseRoundTrip(stamps[n], sender, text);
        TrimSpaceIdempotent(lines[n]);
      }
    }
  }

  /** What a connection hands to the coordinator, in order. */
  datatype Submission = SubmitJoin(name: string) | SubmitMessage(msg: string) | SubmitLeave

  /** The messages as submissions. */
  function AsSubmissions(msgs: seq<string>): (subs: seq<Submission>)
    ensures |subs| == |msgs|
    ensures forall i :: 0 <= i < |msgs| ==> subs[i] == SubmitMessage(msgs[i])
  {
    seq(|msgs|, i requires 0 <= i < |msgs| => SubmitMessage(msgs[i]))
  }

  /** Everything one connection submits: nothing unless the handshake accepts
      a name; otherwise one join, one message per non-blank line, one leave. */
  function Submissions(bannerWritten: bool, nameLine: Option<string>, lines: seq<string>, stamps: seq<string>): seq<Submission>
    requires |stamps| == |lines|
  {
    match Greet(bannerWritten, nameLine)
    case Accepted(name) => [SubmitJoin(name)] + AsSubmissions(ChatMessages(name, lines, stamps)) + [SubmitLeave]
    case _ => []
  }

  /** A connection joins at most once, leaves exactly once after joining, and
      only ever submits messages in between. */
  lemma {:induction false} SessionBracketed(bannerWritten: bool, nameLine: Option<string>, lines: seq<string>, stamps: seq<string>, subs: seq<Submission>)
    requires |stamps| == |lines|
    requires subs == Submissions(bannerWritten, nameLine, lines, stamps)
    ensures subs == [] <==> !Greet(bannerWritten, nameLine).Accepted?
    ensures subs != [] ==> subs[0] == SubmitJoin(Greet(bannerWritten, nameLine).name)
    ensures subs != [] ==> subs[|subs| - 1] == SubmitLeave
    ensures subs != [] ==> |subs| == CountNonBlank(lines) + 2
    ensures forall i :: 0 < i < |subs| - 1 ==> subs[i].SubmitMessage?
  {
    var h := Greet(bannerWritten, nameLine);
    if h.Accepted? {
      ChatMessagesCount(h.name, lines, stamps);
      var middle := AsSubmissions(ChatMessages(h.name, lines, stamps));
      forall i | 0 < i < |subs| - 1 ensures subs[i].SubmitMessage? {
        assert subs[i] == middle[i - 1];
      }
    }
  }

  /** handleConnection: greet, read the name, then turn each line read into a
      message until the input ends, and finally report the departure. Returns
      how the handshake ended and what was submitted, in order. */
  method Session(bannerWritten: bool, nameLine: Option<string>, lines: seq<string>, stamps: seq<string>)
    returns (h: Handshake, subs: seq<Submission>)
    requires |stamps| == |lines|
    ensures h == Greet(bannerWritten, nameLine)
    ensures subs == Submissions(bannerWritten, nameLine, lines, stamps)
  {
    h := Greet(bannerWritten, nameLine);
    if !h.Accepted? {
      return h, [];
    }
    subs := [SubmitJoin(h.name)];
    var i := 0;
    while i < |lines|
      invariant 0 <= i <= |lines|
      invariant subs == [SubmitJoin(h.name)] + AsSubmissions(ChatMessages(h.name, lines[..i], stamps[..i]))
    {
      assert lines[..i + 1][..i] == lines[..i] && stamps[..i + 1][..i] == stamps[..i];
      var m := ChatLine(stamps[i], h.name, lines[i]);
      if m.Some? {
        subs := subs + [SubmitMessage(m.value)];
      }
      i := i + 1;
    }
    assert lines[..i] == lines && stamps[..i] == stamps;
    subs := subs + [SubmitLeave];
  }
}
