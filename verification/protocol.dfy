/**
 * The daemon's per-connection protocol (`AgentDaemon._handle_client`) and
 * the client that reads its replies (`send_message`), in
 * ezagent/daemon.py. A request is one JSON object; the reply is a sequence
 * of JSON objects, one per line, each with a `type` and usually a `text`.
 *
 * Decoding is an oracle: the daemon is handed the request already decoded
 * (or the decoder's error), and the client a `decode` function that the
 * round-trip lemma assumes inverts `Json.Encode`. `iso` renders a time as
 * `datetime.isoformat` does.
 */
module Protocol {
  import opened Wrappers
  import opened Json
  import opened Strings
  import opened Config
  import opened Daemon
  import Agent

  /** A reply line `{"type": kind, "text": text}`. */
  function Line(kind: string, text: string): Json {
    JObj([Field("type", JStr(kind)), Field("text", JStr(text))])
  }

  /** The `type` of a reply line, "" when it has none. */
  function Kind(j: Json): string {
    if j.JObj? then
      match Lookup(j.fields, "type")
      case Some(JStr(k)) => k
      case _ => ""
    else ""
  }

  /** A reply line carries its kind under "type" and its text under "text". */
  lemma LineFields(kind: string, text: string)
    ensures Lookup(Line(kind, text).fields, "type") == Some(JStr(kind))
    ensures Lookup(Line(kind, text).fields, "text") == Some(JStr(text))
    ensures Kind(Line(kind, text)) == kind
  {
    var f := Line(kind, text).fields;
    assert "text"[2] != "type"[2];
    assert f[..1] == [Field("type", JStr(kind))];
    assert f[..1][..0] == [];
  }

  /** Python's `str(v)`; containers are rendered by their JSON text, which is not what Python prints. */
  function PyStr(j: Json): string {
    match j
    case JNull => "None"
    case JBool(b) => if b then "True" else "False"
    case JInt(i) => IntToString(i)
    case JStr(s) => s
    case _ => Encode(j)
  }

  // ----- the daemon side -----

  /** What the daemon reads from a connection. */
  datatype Incoming = NoData | Undecodable(error: string) | Request(body: Json)

  /** The lines written back, or `Hung` when the agent never finishes. */
  datatype Session = Answered(lines: seq<Json>) | Hung

  function ServerError(e: string): Json {
    Line("error", "Server error: " + e)
  }

  function AgentMissingLine(name: string): Json {
    Line("error", "Agent '" + name + "' not found")
  }

  function StringList(items: seq<string>): (r: seq<Json>)
    ensures |r| == |items| && forall i :: 0 <= i < |items| ==> r[i] == JStr(items[i])
  {
    seq(|items|, i requires 0 <= i < |items| => JStr(items[i]))
  }

  /** One schedule entry as the status reply shows it. */
  function JobInfo(job: ScheduleItem, iso: int -> string): Json {
    JObj([Field("cron", JStr(job.cron)), Field("message", JStr(job.message)), Field("next_run", JStr(iso(job.nextRun)))])
  }

  /** The schedule entries of one agent, in the scheduler's current order. */
  function ScheduleInfo(jobs: seq<ScheduleItem>, name: string, iso: int -> string): (r: seq<Json>)
    ensures |r| <= |jobs|
    ensures forall e :: e in r <==> exists j :: j in jobs && j.agent == name && e == JobInfo(j, iso)
  {
    if |jobs| == 0 then []
    else
      var rest := ScheduleInfo(jobs[1..], name, iso);
      assert forall j :: j in jobs <==> j == jobs[0] || j in jobs[1..];
      (if jobs[0].agent == name then [JobInfo(jobs[0], iso)] else []) + rest
  }

  /**
   * Listing a schedule split in two lists each part in turn; with the
   * one-job case this fixes the listing as the agent's jobs in order.
   */
  lemma {:induction false} ScheduleInfoAppend(a: seq<ScheduleItem>, b: seq<ScheduleItem>, name: string, iso: int -> string)
    ensures ScheduleInfo(a + b, name, iso) == ScheduleInfo(a, name, iso) + ScheduleInfo(b, name, iso)
    decreases |a|
  {
    if |a| == 0 {
      assert a + b == b;
    } else {
      assert (a + b)[0] == a[0];
      assert (a + b)[1..] == a[1..] + b;
      ScheduleInfoAppend(a[1..], b, name, iso);
      var head: seq<Json> := if a[0].agent == name then [JobInfo(a[0], iso)] else [];
      var x, y := ScheduleInfo(a[1..], name, iso), ScheduleInfo(b, name, iso);
      assert ScheduleInfo(a + b, name, iso) == head + (x + y);
      assert ScheduleInfo(a, name, iso) == head + x;
      assert head + (x + y) == (head + x) + y;
    }
  }

  /** A single job is listed exactly when it belongs to the agent. */
  lemma ScheduleInfoOne(job: ScheduleItem, name: string, iso: int -> string)
    ensures ScheduleInfo([job], name, iso) == if job.agent == name then [JobInfo(job, iso)] else []
  {
    assert [job][1..] == [];
  }

  /** One agent's status entry; provider and model fall back to the project's. */
  function AgentInfo(d: DaemonState, h: Hosted, iso: int -> string): Field {
    var key := KeyOf(h.config, d.config);
    Field(h.name, JObj([
      Field("description", JStr(h.config.description)),
      Field("provider", JStr(key.name)),
      Field("model", JStr(key.model)),
      Field("tools", JArr(StringList(h.config.tools))),
      Field("skills", JArr(StringList(h.config.skills))),
      Field("schedule", JArr(ScheduleInfo(d.jobs, h.name, iso)))]))
  }

  function AgentInfos(d: DaemonState, hosted: seq<Hosted>, iso: int -> string): (r: seq<Field>)
    ensures |r| == |hosted| && forall i :: 0 <= i < |hosted| ==> r[i].key == hosted[i].name
  {
    seq(|hosted|, i requires 0 <= i < |hosted| => AgentInfo(d, hosted[i], iso))
  }

  /** The reply to a status request: every hosted agent, in start-up order. */
  function StatusLine(d: DaemonState, iso: int -> string): Json {
    JObj([Field("type", JStr("status")), Field("agents", JObj(AgentInfos(d, d.hosted, iso)))])
  }

  predicate IsStatusRequest(fields: seq<Field>) {
    Lookup(fields, "type") == Some(JStr("status"))
  }

  /** `request.get("message", "")`; a non-string message is passed on as its JSON text. */
  function RequestMessage(fields: seq<Field>): string {
    match Lookup(fields, "message")
    case None => ""
    case Some(JStr(s)) => s
    case Some(v) => Encode(v)
  }

  /** `request.get("debug", False)`, as the truth value the agent and the daemon test. */
  function RequestDebug(fields: seq<Field>): bool {
    match Lookup(fields, "debug")
    case None => false
    case Some(v) => Truthy(v)
  }

  /** How `self.agents.get(request.get("agent", ""))` resolves. */
  datatype Target = Named(name: string) | Unnamed(shown: string) | Unhashable(typeName: string)

  function RequestTarget(fields: seq<Field>): Target {
    match Lookup(fields, "agent")
    case None => Named("")
    case Some(JStr(s)) => Named(s)
    case Some(v) => if v.JArr? || v.JObj? then Unhashable(TypeName(v)) else Unnamed(PyStr(v))
  }

  /** The debug events as reply lines. */
  function DebugLines(events: seq<string>): (r: seq<Json>)
    ensures |r| == |events| && forall i :: 0 <= i < |events| ==> r[i] == Line("debug", events[i])
  {
    seq(|events|, i requires 0 <= i < |events| => Line("debug", events[i]))
  }

  /** The agent's reply: its debug events when asked for, then its text. */
  function RunLines(debug: bool, o: Agent.Outcome<Agent.RunTrace>): (s: Session)
    ensures o.Done? ==> s == Answered((if debug then DebugLines(o.value.result.debugEvents) else []) + [Line("text", o.value.result.text)])
    ensures o.Raised? ==> s == Answered([Line("error", "Agent error: " + o.error)])
    ensures o.Stalled? <==> s.Hung?
  {
    match o
    case Done(trace, _) =>
      Answered((if debug then DebugLines(trace.result.debugEvents) else []) + [Line("text", trace.result.text)])
    case Raised(e) => Answered([Line("error", "Agent error: " + e)])
    case Stalled => Hung
  }

  /** Every line but the last is a debug line, and the last is a status, error or text line. */
  predicate Framed(lines: seq<Json>) {
    (forall i :: 0 <= i < |lines| - 1 ==> Kind(lines[i]) == "debug")
    && (|lines| > 0 ==> Kind(lines[|lines| - 1]) in {"status", "error", "text"})
  }

  lemma FramedSingle(kind: string, text: string)
    requires kind in {"status", "error", "text"}
    ensures Framed([Line(kind, text)])
  {
    LineFields(kind, text);
  }

  lemma FramedRun(debug: bool, o: Agent.Outcome<Agent.RunTrace>)
    requires RunLines(debug, o).Answered?
    ensures Framed(RunLines(debug, o).lines)
  {
    var lines := RunLines(debug, o).lines;
    if o.Done? {
      var events := if debug then o.value.result.debugEvents else [];
      assert lines == (if debug then DebugLines(events) else []) + [Line("text", o.value.result.text)];
      forall i | 0 <= i < |lines| - 1 ensures Kind(lines[i]) == "debug" {
        LineFields("debug", events[i]);
      }
      LineFields("text", o.value.result.text);
    } else {
      LineFields("error", "Agent error: " + o.error);
    }
  }

  lemma StatusKind(d: DaemonState, iso: int -> string)
    ensures Kind(StatusLine(d, iso)) == "status"
    ensures Framed([StatusLine(d, iso)])
  {
    var f := StatusLine(d, iso).fields;
    assert f[1].key != "type";
    assert f[..1] == [Field("type", JStr("status"))];
    assert f[..1][..0] == [];
    assert Lookup(f, "type") == Some(JStr("status"));
  }

  /** The reply to a decoded request object that is not a status request. */
  function Respond(d: DaemonState, body: Json, t: Agent.Tapes): (s: Session)
    requires body.JObj?
    ensures s.Answered? ==> Framed(s.lines) && |s.lines| > 0
    ensures !RequestDebug(body.fields) && s.Answered? ==> |s.lines| == 1
    ensures RequestTarget(body.fields).Named? && RequestTarget(body.fields).name !in HostedNames(d.hosted) ==>
      s == Answered([AgentMissingLine(RequestTarget(body.fields).name)])
  {
    var debug := RequestDebug(body.fields);
    var reg := Registry(d.hosted);
    match RequestTarget(body.fields)
    case Unhashable(tn) =>
      var msg := "unhashable type: '" + tn + "'";
      FramedSingle("error", "Server error: " + msg);
      Answered([ServerError(msg)])
    case Unnamed(shown) =>
      FramedSingle("error", "Agent '" + shown + "' not found");
      Answered([AgentMissingLine(shown)])
    case Named(name) =>
      if name !in reg then
        FramedSingle("error", "Agent '" + name + "' not found");
        Answered([AgentMissingLine(name)])
      else
        var o := Agent.Run(reg, reg[name], RequestMessage(body.fields), 0, debug, t);
        if RunLines(debug, o).Answered? then FramedRun(debug, o); RunLines(debug, o)
        else RunLines(debug, o)
  }

  /** `_handle_client`, from what was read to what is written back. */
  function HandleClient(d: DaemonState, iso: int -> string, incoming: Incoming, t: Agent.Tapes): (s: Session)
    ensures s == Answered([]) <==> incoming.NoData?
    ensures incoming.Request? && incoming.body.JObj? && IsStatusRequest(incoming.body.fields) ==>
      s.Answered? && |s.lines| == 1 && Kind(s.lines[0]) == "status"
    ensures incoming.Request? && incoming.body.JObj? && !IsStatusRequest(incoming.body.fields) ==>
      s == Respond(d, incoming.body, t)
    ensures s.Answered? ==> Framed(s.lines)
    ensures incoming.Request? && !(incoming.body.JObj? && RequestDebug(incoming.body.fields)) && s.Answered? ==>
      |s.lines| == 1
  {
    match incoming
    case NoData => Answered([])
    case Undecodable(e) =>
      FramedSingle("error", "Server error: " + e);
      Answered([ServerError(e)])
    case Request(body) =>
      if !body.JObj? then
        var msg := "'" + TypeName(body) + "' object has no attribute 'get'";
        FramedSingle("error", "Server error: " + msg);
        Answered([ServerError(msg)])
      else if IsStatusRequest(body.fields) then
        StatusKind(d, iso);
        Answered([StatusLine(d, iso)])
      else Respond(d, body, t)
  }

  /** A successful run answers with exactly its debug events (when asked for) and then its text. */
  lemma HandleClientRuns(d: DaemonState, iso: int -> string, body: Json, t: Agent.Tapes)
    requires body.JObj? && !IsStatusRequest(body.fields)
    requires RequestTarget(body.fields).Named? && RequestTarget(body.fields).name in HostedNames(d.hosted)
    requires Agent.Run(Registry(d.hosted), Registry(d.hosted)[RequestTarget(body.fields).name],
                       RequestMessage(body.fields), 0, RequestDebug(body.fields), t).Done?
    ensures var o := Agent.Run(Registry(d.hosted), Registry(d.hosted)[RequestTarget(body.fields).name],
                               RequestMessage(body.fields), 0, RequestDebug(body.fields), t);
      HandleClient(d, iso, Request(body), t) ==
        Answered(DebugLines(o.value.result.debugEvents) + [Line("text", o.value.result.text)])
  {
    var o := Agent.Run(Registry(d.hosted), Registry(d.hosted)[RequestTarget(body.fields).name],
                       RequestMessage(body.fields), 0, RequestDebug(body.fields), t);
    if !RequestDebug(body.fields) {
      assert o.value.result.debugEvents == [];
      assert DebugLines([]) == [];
    }
  }

  // ----- the client side -----

  /** The bytes the daemon writes: each line's JSON text followed by a newline. */
  function Wire(lines: seq<Json>): string {
    if |lines| == 0 then "" else Encode(lines[0]) + "\n" + Wire(lines[1..])
  }

  /** What the client prints: to standard output, or to standard error. */
  datatype Echo = Stdout(text: string) | Stderr(text: string)

  /** How the client ends: normally, with a `ClickException`, or with an uncaught error. */
  datatype Exit = Finished | ClickError(message: string) | Crashed(error: string)

  datatype Display = Display(echoes: seq<Echo>, exit: Exit)

  function Prepend(e: Echo, d: Display): Display {
    Display([e] + d.echoes, d.exit)
  }

  /** `resp.get("text", default)` as the client prints it. */
  function TextOr(fields: seq<Field>, default: string): string {
    match Lookup(fields, "text")
    case None => default
    case Some(v) => PyStr(v)
  }

  /** `click.echo(resp.get("text", ""))`: `click.echo(None)` prints an empty line. */
  function EchoText(fields: seq<Field>): (r: string)
    ensures Lookup(fields, "text") == Some(JNull) ==> r == ""
    ensures Lookup(fields, "text") != Some(JNull) ==> r == TextOr(fields, "")
  {
    match Lookup(fields, "text")
    case Some(JNull) => ""
    case _ => TextOr(fields, "")
  }

  /**
   * A null text prints as an empty line on stdout but as "[debug] None"
   * on stderr: `click.echo(None)` and an f-string treat None differently.
   */
  lemma NullTextEchoes(fields: seq<Field>, rest: Display)
    requires Lookup(fields, "text") == Some(JNull)
    ensures Lookup(fields, "type") != Some(JStr("error")) && Lookup(fields, "type") != Some(JStr("debug")) ==>
      ShowDecoded(JObj(fields), rest) == Prepend(Stdout(""), rest)
    ensures Lookup(fields, "type") == Some(JStr("debug")) ==>
      ShowDecoded(JObj(fields), rest) == Prepend(Stderr("[debug] None"), rest)
  {
    assert "[debug] " + "None" == "[debug] None";
  }

  /** What the client does with one decoded reply line, then with the rest. */
  function ShowDecoded(j: Json, rest: Display): Display {
    if !j.JObj? then Display([], Crashed("'" + TypeName(j) + "' object has no attribute 'get'"))
    else match Lookup(j.fields, "type")
      case Some(JStr("error")) => Display([], ClickError(TextOr(j.fields, "Unknown error")))
      case Some(JStr("debug")) => Prepend(Stderr("[debug] " + TextOr(j.fields, "")), rest)
      case _ => Prepend(Stdout(EchoText(j.fields)), rest)
  }

  /** The loop over reply lines: blank lines are skipped, undecodable ones echoed as they are. */
  function ShowLines(lines: seq<string>, decode: string -> Option<Json>): Display {
    if |lines| == 0 then Display([], Finished)
    else
      var rest := ShowLines(lines[1..], decode);
      if lines[0] == "" then rest
      else match decode(lines[0])
        case None => Prepend(Stdout(lines[0]), rest)
        case Some(j) => ShowDecoded(j, rest)
  }

  /** `send_message`'s reading of the whole reply. */
  function ShowReply(buffer: string, decode: string -> Option<Json>): Display {
    ShowLines(Split(Strip(buffer), '\n'), decode)
  }

  /** The same loop over lines already decoded. */
  function ShowAll(lines: seq<Json>): Display {
    if |lines| == 0 then Display([], Finished) else ShowDecoded(lines[0], ShowAll(lines[1..]))
  }

  function Encodings(lines: seq<Json>): (r: seq<string>)
    ensures |r| == |lines| && forall i :: 0 <= i < |lines| ==> r[i] == Encode(lines[i])
  {
    seq(|lines|, i requires 0 <= i < |lines| => Encode(lines[i]))
  }

  lemma {:induction false} WireIsJoin(lines: seq<Json>)
    requires |lines| > 0
    ensures Wire(lines) == Join(Encodings(lines), "\n") + "\n"
    decreases |lines|
  {
    if |lines| > 1 {
      WireIsJoin(lines[1..]);
      assert Encodings(lines)[1..] == Encodings(lines[1..]);
    }
  }

  lemma StripNewline(s: string)
    requires s != [] && !IsSpace(s[0]) && !IsSpace(s[|s| - 1])
    ensures Strip(s + "\n") == s
  {
    var x := s + "\n";
    assert LeadingSpaces(x) == 0;
    assert x[..|x| - 1] == s;
    assert TrailingSpaces(x[..|x| - 1]) == 0;
    assert TrailingSpaces(x) == 1;
    assert x[0..] == x;
  }

  lemma ObjectEncoding(fields: seq<Field>)
    ensures Encode(JObj(fields))[0] == '{'
    ensures Encode(JObj(fields))[|Encode(JObj(fields))| - 1] == '}'
  {
  }

  lemma {:induction false} JoinEnds(parts: seq<string>, sep: string)
    requires |parts| > 0 && forall i :: 0 <= i < |parts| ==> parts[i] != ""
    ensures Join(parts, sep) != ""
    ensures Join(parts, sep)[0] == parts[0][0]
    ensures Join(parts, sep)[|Join(parts, sep)| - 1] == parts[|parts| - 1][|parts[|parts| - 1]| - 1]
    decreases |parts|
  {
    if |parts| > 1 {
      JoinEnds(parts[1..], sep);
      assert parts[1..][|parts[1..]| - 1] == parts[|parts| - 1];
    }
  }

  lemma {:induction false} ShowEncodings(lines: seq<Json>, decode: string -> Option<Json>)
    requires forall j :: decode(Encode(j)) == Some(j)
    requires forall i :: 0 <= i < |lines| ==> lines[i].JObj?
    ensures ShowLines(Encodings(lines), decode) == ShowAll(lines)
    decreases |lines|
  {
    if |lines| > 0 {
      var e := Encodings(lines);
      ShowEncodings(lines[1..], decode);
      assert e[1..] == Encodings(lines[1..]);
      ObjectEncoding(lines[0].fields);
      assert e[0] == Encode(lines[0]) && e[0] != "";
      assert decode(e[0]) == Some(lines[0]);
      assert ShowLines(e, decode) == ShowDecoded(lines[0], ShowLines(e[1..], decode));
    }
  }

  /** The client's `strip().split("\n")` recovers the encoded lines the daemon wrote. */
  lemma WireLines(lines: seq<Json>)
    requires |lines| > 0
    requires forall i :: 0 <= i < |lines| ==> lines[i].JObj?
    ensures Split(Strip(Wire(lines)), '\n') == Encodings(lines)
  {
    var parts := Encodings(lines);
    WireIsJoin(lines);
    EncodePrintableAll(lines);
    forall i | 0 <= i < |parts| ensures parts[i] != "" && parts[i][0] == '{' && parts[i][|parts[i]| - 1] == '}' {
      ObjectEncoding(lines[i].fields);
    }
    JoinEnds(parts, "\n");
    StripNewline(Join(parts, "\n"));
    SplitJoin(parts, '\n');
  }

  /**
   * Reading back what the daemon wrote: the client sees the reply lines in
   * order, exactly as if it had been handed them decoded.
   */
  lemma ClientReadsReply(lines: seq<Json>, decode: string -> Option<Json>)
    requires forall j :: decode(Encode(j)) == Some(j)
    requires forall i :: 0 <= i < |lines| ==> lines[i].JObj?
    ensures ShowReply(Wire(lines), decode) == ShowAll(lines)
  {
    if |lines| == 0 {
      assert Strip("") == "";
      assert Split("", '\n') == [""];
    } else {
      WireLines(lines);
      ShowEncodings(lines, decode);
    }
  }

  lemma EncodePrintableAll(lines: seq<Json>)
    ensures forall i :: 0 <= i < |lines| ==> '\n' !in Encodings(lines)[i]
  {
    forall i | 0 <= i < |lines| ensures '\n' !in Encodings(lines)[i] {
      EncodePrintable(lines[i]);
    }
  }

  function DebugEchoes(events: seq<string>): (r: seq<Echo>)
    ensures |r| == |events| && forall i :: 0 <= i < |events| ==> r[i] == Stderr("[debug] " + events[i])
  {
    seq(|events|, i requires 0 <= i < |events| => Stderr("[debug] " + events[i]))
  }

  lemma ShowDebugLine(e: string, rest: Display)
    ensures ShowDecoded(Line("debug", e), rest) == Prepend(Stderr("[debug] " + e), rest)
  {
    LineFields("debug", e);
  }

  lemma ShowTextLine(text: string)
    ensures ShowDecoded(Line("text", text), Display([], Finished)) == Display([Stdout(text)], Finished)
  {
    LineFields("text", text);
  }

  lemma DebugLinesCons(events: seq<string>, last: Json)
    requires |events| > 0
    ensures (DebugLines(events) + [last])[0] == Line("debug", events[0])
    ensures (DebugLines(events) + [last])[1..] == DebugLines(events[1..]) + [last]
  {
  }

  /** What the client shows for a run's reply lines, as a predicate so that the induction below stays small. */
  predicate ShowsRun(events: seq<string>, text: string) {
    ShowAll(DebugLines(events) + [Line("text", text)]) == Display(DebugEchoes(events) + [Stdout(text)], Finished)
  }

  lemma ShowsRunBase(text: string)
    ensures ShowsRun([], text)
  {
    var lines := DebugLines([]) + [Line("text", text)];
    assert lines == [Line("text", text)];
    assert lines[1..] == [];
    ShowTextLine(text);
  }

  lemma ShowsRunStep(events: seq<string>, text: string)
    requires |events| > 0 && ShowsRun(events[1..], text)
    ensures ShowsRun(events, text)
  {
    var last := Line("text", text);
    var lines := DebugLines(events) + [last];
    DebugLinesCons(events, last);
    ShowDebugLine(events[0], ShowAll(lines[1..]));
    assert DebugEchoes(events) == [Stderr("[debug] " + events[0])] + DebugEchoes(events[1..]);
  }

  lemma {:induction false} ShowDebugThenText(events: seq<string>, text: string)
    ensures ShowsRun(events, text)
    decreases |events|
  {
    if |events| == 0 {
      ShowsRunBase(text);
    } else {
      ShowDebugThenText(events[1..], text);
      ShowsRunStep(events, text);
    }
  }




  /**
   * End to end: when the agent run succeeds, the client prints each debug
   * event to standard error with the "[debug] " prefix and then the text to
   * standard output; when it fails, the client stops with the error text.
   */
  lemma ClientSeesRun(debugEvents: seq<string>, text: string, decode: string -> Option<Json>)
    requires forall j :: decode(Encode(j)) == Some(j)
    ensures ShowReply(Wire(DebugLines(debugEvents) + [Line("text", text)]), decode) ==
      Display(DebugEchoes(debugEvents) + [Stdout(text)], Finished)
  {
    ClientReadsReply(DebugLines(debugEvents) + [Line("text", text)], decode);
    ShowDebugThenText(debugEvents, text);
  }

  lemma ClientSeesError(message: string, decode: string -> Option<Json>)
    requires forall j :: decode(Encode(j)) == Some(j)
    ensures ShowReply(Wire([Line("error", message)]), decode) == Display([], ClickError(message))
  {
    ClientReadsReply([Line("error", message)], decode);
    LineFields("error", message);
  }

  /** A connection closed without a request leaves the client with nothing to print. */
  lemma ClientSeesNothing(decode: string -> Option<Json>)
    ensures ShowReply(Wire([]), decode) == Display([], Finished)
  {
    assert Strip("") == "";
    assert Split("", '\n') == [""];
  }
}
