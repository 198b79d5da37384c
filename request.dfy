/**
 * The command encoder of `net/beanstalk/Request.php`: a request is a method
 * name, a primary argument and an option array, and its string form is the
 * beanstalkd command it stands for, terminated by CRLF.
 *
 * `Decode` is the other side of the wire: how a beanstalkd server reads a
 * command line (and, for `put`, the body after it), as the beanstalk
 * protocol document describes. `DecodeWire` proves the two agree.
 */
module Request {
  import opened Wrappers
  import opened Decimal
  import opened PhpValues
  import opened Wire

  datatype Request = Request(verb: Option<string>, data: Value, options: Options)

  /** The keys of the table of handler closures. */
  datatype Verb = UseTube | PutJob | ReserveJob | ReserveWithTimeoutJob | ReleaseJob | DeleteJob | ListAllTubes | ServerStats

  /** The method name each handler is stored under. */
  function Name(v: Verb): string {
    match v
    case UseTube => "use"
    case PutJob => "put"
    case ReserveJob => "reserve"
    case ReserveWithTimeoutJob => "reserve-with-timeout"
    case ReleaseJob => "release"
    case DeleteJob => "delete"
    case ListAllTubes => "list-tubes"
    case ServerStats => "stats"
  }

  /** `isset($handlers[$method]) ? $handlers[$method] : null`. */
  function Lookup(name: string): (v: Option<Verb>)
    ensures v.Some? ==> Name(v.value) == name
    ensures v.None? ==> forall x :: Name(x) != name
  {
    if name == "use" then Some(UseTube)
    else if name == "put" then Some(PutJob)
    else if name == "reserve" then Some(ReserveJob)
    else if name == "reserve-with-timeout" then Some(ReserveWithTimeoutJob)
    else if name == "release" then Some(ReleaseJob)
    else if name == "delete" then Some(DeleteJob)
    else if name == "list-tubes" then Some(ListAllTubes)
    else if name == "stats" then Some(ServerStats)
    else None
  }

  /** `%d` of an option after the handler's defaults have been merged in. */
  function Arg(options: Options, defaults: Options, key: string): string {
    FormatInt(IntOf(Get(Merge(options, defaults), key)))
  }

  lemma ArgDefault(options: Options, defaults: Options, key: string)
    requires key in defaults && defaults[key].Int?
    ensures Arg(options, defaults, key) == FormatInt(IntOption(options, key, defaults[key].i))
  {
  }

  /** One handler closure of the table, applied to the data and options. */
  function Handler(v: Verb, data: Value, options: Options): string {
    match v
    case UseTube =>
      "use " + StrOf(data)
    case PutJob =>
      var defaults := map["pri" := Int(0), "delay" := Int(0), "ttl" := Int(0)];
      var payload := StrOf(data);
      var command := Unwords(["put", Arg(options, defaults, "pri"), Arg(options, defaults, "delay"),
                              Arg(options, defaults, "ttl"), FormatInt(|payload|)]);
      command + CRLF + payload
    case ReserveJob =>
      "reserve"
    case ReserveWithTimeoutJob =>
      Unwords(["reserve-with-timeout", Arg(options, map["timeout" := Int(0)], "timeout")])
    case ReleaseJob =>
      var defaults := map["pri" := Int(0), "delay" := Int(0)];
      Unwords(["release", FormatInt(IntOf(data)), Arg(options, defaults, "pri"), Arg(options, defaults, "delay")])
    case DeleteJob =>
      Unwords(["delete", FormatInt(IntOf(data))])
    case ListAllTubes =>
      "list-tubes"
    case ServerStats =>
      "stats"
  }

  /** Every handler's command starts with its own name as a word: the name alone, or the name and a space. */
  lemma HandlerNamesCommand(v: Verb, data: Value, o: Options)
    ensures var r := Handler(v, data, o);
            r == Name(v) || (|Name(v)| < |r| && r[..|Name(v)| + 1] == Name(v) + " ")
  {
    match v
    case UseTube =>
      assert ("use " + StrOf(data))[..4] == "use ";
    case PutJob =>
      PutNamed(data, o);
    case ReserveWithTimeoutJob =>
      var line := Unwords(["reserve-with-timeout", Arg(o, map["timeout" := Int(0)], "timeout")]);
      assert Handler(v, data, o) == line;
      NamedLine(["reserve-with-timeout", Arg(o, map["timeout" := Int(0)], "timeout")]);
    case ReleaseJob =>
      var defaults := map["pri" := Int(0), "delay" := Int(0)];
      var ws := ["release", FormatInt(IntOf(data)), Arg(o, defaults, "pri"), Arg(o, defaults, "delay")];
      assert Handler(v, data, o) == Unwords(ws);
      NamedLine(ws);
    case DeleteJob =>
      var ws := ["delete", FormatInt(IntOf(data))];
      assert Handler(v, data, o) == Unwords(ws);
      NamedLine(ws);
    case ReserveJob =>
    case ListAllTubes =>
    case ServerStats =>
  }

  /** The `put` command starts with `put` and a space. */
  lemma PutNamed(data: Value, o: Options)
    ensures var r := Handler(PutJob, data, o);
            |r| > 3 && r[..4] == "put "
  {
    var defaults := map["pri" := Int(0), "delay" := Int(0), "ttl" := Int(0)];
    var ws := ["put", Arg(o, defaults, "pri"), Arg(o, defaults, "delay"), Arg(o, defaults, "ttl"), FormatInt(|StrOf(data)|)];
    NamedLine(ws);
    var tail := CRLF + StrOf(data);
    assert Handler(PutJob, data, o) == Unwords(ws) + tail;
    assert (Unwords(ws) + tail)[..4] == Unwords(ws)[..4];
  }

  /** A line of two or more words starts with the first and a space. */
  lemma NamedLine(ws: seq<string>)
    requires |ws| >= 2
    ensures |ws[0]| < |Unwords(ws)| && Unwords(ws)[..|ws[0]| + 1] == ws[0] + " "
  {
    var rest := Spaced(ws[2..]);
    assert Spaced(ws[1..]) == " " + ws[1] + rest;
    assert Unwords(ws) == ws[0] + " " + (ws[1] + rest);
  }

  /** `body()`: the handler's string; `None` where PHP would call a null handler. */
  function Body(r: Request): (b: Option<string>)
    ensures b.Some? <==> r.verb.Some? && Lookup(r.verb.value).Some?
  {
    if r.verb.None? then None
    else match Lookup(r.verb.value)
      case None => None
      case Some(v) => Some(Handler(v, r.data, r.options))
  }

  /** `__toString()`: the body finished with a CRLF pair. */
  function ToString(r: Request): (w: Option<string>)
    ensures w.Some? <==> r.verb.Some? && Lookup(r.verb.value).Some?
    ensures w.Some? ==> |w.value| >= 2 && w.value[|w.value| - 2..] == CRLF
  {
    match Body(r)
    case None => None
    case Some(b) => Some(b + CRLF)
  }

  /** A method name outside the table has no handler, so the request has no string form. */
  lemma UnknownMethodHasNoHandler(name: string, data: Value, options: Options)
    requires name !in {"use", "put", "reserve", "reserve-with-timeout", "release", "delete", "list-tubes", "stats"}
    ensures ToString(Request(Some(name), data, options)) == None
  {
  }

  /** The value of an option as `%d` prints it, `fallback` when missing. */
  function IntOption(options: Options, key: string, fallback: int): int {
    if key in options then IntOf(options[key]) else fallback
  }

  // ---------------------------------------------------------------------
  // The server's view of a command

  datatype Command =
    | Use(tube: string)
    | Put(pri: int, delay: int, ttr: int, body: string)
    | Reserve
    | ReserveWithTimeout(timeout: int)
    | Release(id: int, pri: int, delay: int)
    | Delete(id: int)
    | ListTubes
    | Stats

  /** The command a request stands for, with every default filled in. */
  function Denotes(v: Verb, data: Value, options: Options): Command {
    match v
    case UseTube => Use(StrOf(data))
    case PutJob =>
      Put(IntOption(options, "pri", 0), IntOption(options, "delay", 0), IntOption(options, "ttl", 0), StrOf(data))
    case ReserveJob => Reserve
    case ReserveWithTimeoutJob => ReserveWithTimeout(IntOption(options, "timeout", 0))
    case ReleaseJob => Release(IntOf(data), IntOption(options, "pri", 0), IntOption(options, "delay", 0))
    case DeleteJob => Delete(IntOf(data))
    case ListAllTubes => ListTubes
    case ServerStats => Stats
  }

  /**
   * How a server reads the bytes of one command: a line up to the first CRLF,
   * split into words; for `put`, exactly the declared number of body bytes
   * follow, then a CRLF; every other command is the line alone.
   */
  function Decode(wire: string): Option<Command> {
    var p := FindCRLF(wire);
    if p == |wire| then None else DecodeFrame(wire[..p], wire[p + 2..])
  }

  /** The command a command line and the bytes after its CRLF stand for. */
  function DecodeFrame(line: string, after: string): Option<Command> {
      var ws := Tokens(line);
      if |line| >= 4 && line[..4] == "use " then
        if after == [] then Some(Use(line[4..])) else None
      else if |ws| == 5 && ws[0] == "put" then
        var pri, delay, ttr, n := ParseInt(ws[1]), ParseInt(ws[2]), ParseInt(ws[3]), ParseInt(ws[4]);
        if pri.Some? && delay.Some? && ttr.Some? && n.Some? && n.value >= 0
           && |after| == n.value + 2 && after[n.value..] == CRLF
        then Some(Put(pri.value, delay.value, ttr.value, after[..n.value]))
        else None
      else if after != [] then None
      else if ws == ["reserve"] then Some(Reserve)
      else if |ws| == 2 && ws[0] == "reserve-with-timeout" && ParseInt(ws[1]).Some? then
        Some(ReserveWithTimeout(ParseInt(ws[1]).value))
      else if |ws| == 4 && ws[0] == "release" && ParseInt(ws[1]).Some? && ParseInt(ws[2]).Some? && ParseInt(ws[3]).Some? then
        Some(Release(ParseInt(ws[1]).value, ParseInt(ws[2]).value, ParseInt(ws[3]).value))
      else if |ws| == 2 && ws[0] == "delete" && ParseInt(ws[1]).Some? then
        Some(Delete(ParseInt(ws[1]).value))
      else if ws == ["list-tubes"] then Some(ListTubes)
      else if ws == ["stats"] then Some(Stats)
      else None
  }

  // ---------------------------------------------------------------------
  // Properties of the encoder

  /** Decoding splits the wire string at the CRLF that ends the command line. */
  lemma DecodeSplit(line: string, rest: string)
    requires NoCR(line)
    ensures Decode(line + CRLF + rest) == DecodeFrame(line, rest)
  {
    var w := line + CRLF + rest;
    FindCRLFAfter(line, rest);
    assert w[..|line|] == line && w[|line| + 2..] == rest;
  }

  /** A one-line command decodes from its line alone. */
  lemma DecodeLine(line: string)
    requires NoCR(line)
    ensures Decode(line + CRLF) == DecodeFrame(line, [])
  {
    DecodeSplit(line, []);
    assert line + CRLF + [] == line + CRLF;
  }

  /** Every method name of the table finds its own handler. */
  lemma LookupName(v: Verb)
    ensures Lookup(Name(v)) == Some(v)
  {
  }

  /** The words of the `put` command line, defaults filled in. */
  function PutWords(data: Value, options: Options): seq<string> {
    ["put", FormatInt(IntOption(options, "pri", 0)), FormatInt(IntOption(options, "delay", 0)),
     FormatInt(IntOption(options, "ttl", 0)), FormatInt(|StrOf(data)|)]
  }

  lemma PutHandler(data: Value, options: Options)
    ensures Handler(PutJob, data, options) == Unwords(PutWords(data, options)) + CRLF + StrOf(data)
  {
    var defaults := map["pri" := Int(0), "delay" := Int(0), "ttl" := Int(0)];
    ArgDefault(options, defaults, "pri");
    ArgDefault(options, defaults, "delay");
    ArgDefault(options, defaults, "ttl");
  }

  /** The `put` frame: command line, CRLF, the body, and the final CRLF. */
  lemma PutWire(data: Value, options: Options)
    ensures ToString(Request(Some("put"), data, options)) ==
      Some("put " + FormatInt(IntOption(options, "pri", 0)) + " " + FormatInt(IntOption(options, "delay", 0))
           + " " + FormatInt(IntOption(options, "ttl", 0)) + " " + FormatInt(|StrOf(data)|)
           + CRLF + StrOf(data) + CRLF)
  {
    LookupName(PutJob);
    PutHandler(data, options);
    var ws := PutWords(data, options);
    Unwords5(ws[0], ws[1], ws[2], ws[3], ws[4]);
    assert ws == [ws[0], ws[1], ws[2], ws[3], ws[4]];
    assert "put" + " " == "put ";
  }

  /**
   * The body of a `put` is recovered from its wire string: after the first
   * CRLF come exactly the declared number of bytes, then the final CRLF,
   * whatever the body itself contains.
   */
  lemma PutBodyRecovered(data: Value, options: Options)
    ensures var w := Handler(PutJob, data, options) + CRLF;
            var p := FindCRLF(w);
            var n := |StrOf(data)|;
            p < |w| && Tokens(w[..p]) == PutWords(data, options)
            && p + 2 + n + 2 == |w| && w[p + 2..p + 2 + n] == StrOf(data) && w[p + 2 + n..] == CRLF
  {
    var words := PutWords(data, options);
    PutWordsAreWords(data, options);
    CommandLine(words);
    PutHandler(data, options);
    FrameSplit(Unwords(words), StrOf(data));
  }

  lemma PutWordsAreWords(data: Value, options: Options)
    ensures forall i :: 0 <= i < |PutWords(data, options)| ==> IsWord(PutWords(data, options)[i])
  {
    FormatIntIsWord(IntOption(options, "pri", 0));
    FormatIntIsWord(IntOption(options, "delay", 0));
    FormatIntIsWord(IntOption(options, "ttl", 0));
    FormatIntIsWord(|StrOf(data)|);
    Word("put");
  }

  /** Decoding the string form of any request gives back the command it stands for. */
  lemma DecodeWire(v: Verb, data: Value, o: Options)
    requires v == UseTube ==> NoCR(StrOf(data))
    ensures Decode(Handler(v, data, o) + CRLF) == Some(Denotes(v, data, o))
  {
    match v
    case UseTube => DecodeUse(data, o);
    case PutJob => DecodePut(data, o);
    case ReserveJob => DecodeConstant(ReserveJob, data, o);
    case ReserveWithTimeoutJob => DecodeReserveWithTimeout(data, o);
    case ReleaseJob => DecodeRelease(data, o);
    case DeleteJob => DecodeDelete(data, o);
    case ListAllTubes => DecodeConstant(ListAllTubes, data, o);
    case ServerStats => DecodeConstant(ServerStats, data, o);
  }

  lemma DecodeUse(data: Value, o: Options)
    requires NoCR(StrOf(data))
    ensures Decode(Handler(UseTube, data, o) + CRLF) == Some(Use(StrOf(data)))
  {
    var t := StrOf(data);
    assert NoCR("use " + t);
    DecodeLine("use " + t);
    assert ("use " + t)[..4] == "use " && ("use " + t)[4..] == t;
  }

  lemma DecodePut(data: Value, o: Options)
    ensures Decode(Handler(PutJob, data, o) + CRLF) == Some(Denotes(PutJob, data, o))
  {
    assert Handler(PutJob, data, o) + CRLF == Unwords(PutWords(data, o)) + CRLF + (StrOf(data) + CRLF) by {
      PutHandler(data, o);
    }
    PutWordsWire(data, o);
  }

  /** The `put` words, a CRLF, the data and a CRLF decode to the command the request stands for. */
  lemma PutWordsWire(data: Value, o: Options)
    ensures Decode(Unwords(PutWords(data, o)) + CRLF + (StrOf(data) + CRLF)) == Some(Denotes(PutJob, data, o))
  {
    PutWordsFrame(data, o);
    DecodeSplit(Unwords(PutWords(data, o)), StrOf(data) + CRLF);
  }

  /** The `put` words of a request, then its data and a CRLF, decode to the command it stands for. */
  lemma PutWordsFrame(data: Value, o: Options)
    ensures NoCR(Unwords(PutWords(data, o)))
    ensures DecodeFrame(Unwords(PutWords(data, o)), StrOf(data) + CRLF) == Some(Denotes(PutJob, data, o))
  {
    var pri, delay, ttl, payload := IntOption(o, "pri", 0), IntOption(o, "delay", 0), IntOption(o, "ttl", 0), StrOf(data);
    assert PutWords(data, o) == ["put", FormatInt(pri), FormatInt(delay), FormatInt(ttl), FormatInt(|payload|)];
    PutFrame(pri, delay, ttl, payload);
  }

  /** A `put` line of four integers, followed by exactly that many bytes and a CRLF, decodes to them. */
  lemma PutFrame(pri: int, delay: int, ttl: int, payload: string)
    ensures var ws := ["put", FormatInt(pri), FormatInt(delay), FormatInt(ttl), FormatInt(|payload|)];
            NoCR(Unwords(ws)) && DecodeFrame(Unwords(ws), payload + CRLF) == Some(Put(pri, delay, ttl, payload))
  {
    var ws := ["put", FormatInt(pri), FormatInt(delay), FormatInt(ttl), FormatInt(|payload|)];
    FormatIntIsWord(pri); FormatIntIsWord(delay); FormatIntIsWord(ttl); FormatIntIsWord(|payload|);
    Word("put");
    CommandLine(ws);
    ParseIntFormat(pri); ParseIntFormat(delay); ParseIntFormat(ttl); ParseIntFormat(|payload|);
    var after := payload + CRLF;
    assert after[|payload|..] == CRLF && after[..|payload|] == payload;
    PutLineHead(ws);
    NotUseLine(Unwords(ws));
  }

  /** The line of `put` words starts with "put". */
  lemma PutLineHead(ws: seq<string>)
    requires |ws| > 0 && ws[0] == "put"
    ensures |Unwords(ws)| >= 3 && Unwords(ws)[..3] == "put"
  {
    assert Unwords(ws) == ws[0] + Spaced(ws[1..]);
  }

  lemma DecodeConstant(v: Verb, data: Value, o: Options)
    requires v == ReserveJob || v == ListAllTubes || v == ServerStats
    ensures Decode(Handler(v, data, o) + CRLF) == Some(Denotes(v, data, o))
  {
    match v
    case ReserveJob =>
      assert Handler(v, data, o) == "reserve";
      ConstantLine("reserve");
    case ListAllTubes =>
      assert Handler(v, data, o) == "list-tubes";
      ConstantLine("list-tubes");
    case ServerStats =>
      assert Handler(v, data, o) == "stats";
      ConstantLine("stats");
  }

  /** A one-word command line splits into that word alone. */
  lemma ConstantLine(name: string)
    requires name in {"reserve", "list-tubes", "stats"}
    ensures Decode(name + CRLF) == Some(if name == "reserve" then Reserve else if name == "list-tubes" then ListTubes else Stats)
  {
    Word(name);
    OneLine([name]);
    assert Unwords([name]) == name;
    assert Tokens(name) == [name] && !(|name| >= 4 && name[..4] == "use ");
    DecodeLine(name);
  }

  lemma DecodeReserveWithTimeout(data: Value, o: Options)
    ensures Decode(Handler(ReserveWithTimeoutJob, data, o) + CRLF) == Some(Denotes(ReserveWithTimeoutJob, data, o))
  {
    var t := IntOption(o, "timeout", 0);
    ArgDefault(o, map["timeout" := Int(0)], "timeout");
    TimeoutFrame(t);
    DecodeLine(Unwords(["reserve-with-timeout", FormatInt(t)]));
  }

  /** A `reserve-with-timeout` line of an integer decodes to it. */
  lemma TimeoutFrame(t: int)
    ensures var line := Unwords(["reserve-with-timeout", FormatInt(t)]);
            NoCR(line) && DecodeFrame(line, []) == Some(ReserveWithTimeout(t))
  {
    FormatIntIsWord(t);
    ParseIntFormat(t);
    Word("reserve-with-timeout");
    OneLine(["reserve-with-timeout", FormatInt(t)]);
  }

  lemma DecodeRelease(data: Value, o: Options)
    ensures Decode(Handler(ReleaseJob, data, o) + CRLF) == Some(Denotes(ReleaseJob, data, o))
  {
    var defaults := map["pri" := Int(0), "delay" := Int(0)];
    var id, pri, delay := IntOf(data), IntOption(o, "pri", 0), IntOption(o, "delay", 0);
    ArgDefault(o, defaults, "pri");
    ArgDefault(o, defaults, "delay");
    ReleaseFrame(id, pri, delay);
    DecodeLine(Unwords(["release", FormatInt(id), FormatInt(pri), FormatInt(delay)]));
  }

  /** A `release` line of three integers decodes to them. */
  lemma ReleaseFrame(id: int, pri: int, delay: int)
    ensures var line := Unwords(["release", FormatInt(id), FormatInt(pri), FormatInt(delay)]);
            NoCR(line) && DecodeFrame(line, []) == Some(Release(id, pri, delay))
  {
    var ws := ["release", FormatInt(id), FormatInt(pri), FormatInt(delay)];
    FormatIntIsWord(id); FormatIntIsWord(pri); FormatIntIsWord(delay);
    Word("release");
    OneLine(ws);
    ParseIntFormat(id); ParseIntFormat(pri); ParseIntFormat(delay);
    assert Tokens(Unwords(ws)) == ws && |ws| == 4 && ws[0] == "release";
    assert ParseInt(ws[1]) == Some(id) && ParseInt(ws[2]) == Some(pri) && ParseInt(ws[3]) == Some(delay);
  }

  lemma DecodeDelete(data: Value, o: Options)
    ensures Decode(Handler(DeleteJob, data, o) + CRLF) == Some(Denotes(DeleteJob, data, o))
  {
    var id := IntOf(data);
    assert Handler(DeleteJob, data, o) == Unwords(["delete", FormatInt(id)]);
    DeleteWire(id);
  }

  /** A `delete` command of an integer decodes to it. */
  lemma DeleteWire(id: int)
    ensures Decode(Unwords(["delete", FormatInt(id)]) + CRLF) == Some(Delete(id))
  {
    DeleteFrame(id);
    DecodeLine(Unwords(["delete", FormatInt(id)]));
  }

  /** A `delete` line of an integer decodes to it. */
  lemma DeleteFrame(id: int)
    ensures var line := Unwords(["delete", FormatInt(id)]);
            NoCR(line) && DecodeFrame(line, []) == Some(Delete(id))
  {
    var ws := ["delete", FormatInt(id)];
    FormatIntIsWord(id);
    Word("delete");
    OneLine(ws);
    ParseIntFormat(id);
    assert Tokens(Unwords(ws)) == ws && |ws| == 2 && ws[0] == "delete";
    assert ParseInt(ws[1]) == Some(id);
  }

  /** A literal command word has no space and no CR. */
  lemma Word(w: string)
    requires w in {"put", "reserve", "reserve-with-timeout", "release", "delete", "list-tubes", "stats"}
    ensures IsWord(w)
  {
  }

  /** A `put` command line does not start with "use ". */
  lemma NotUseLine(line: string)
    requires |line| >= 3 && line[..3] == "put"
    ensures !(|line| >= 4 && line[..4] == "use ")
  {
    assert line[0] == 'p';
  }

  /** The first character of a line is the first character of its first token, when the line starts with no space. */
  lemma TokensHead(line: string)
    requires |line| > 0 && line[0] != ' '
    ensures |Tokens(line)| > 0 && |Tokens(line)[0]| > 0 && Tokens(line)[0][0] == line[0]
  {
    var k := SpaceFree(line);
    assert k > 0;
    assert NextToken(line) == (Some(line[..k]), line[k..]);
  }

  /** A command line that does not start with "use " decodes by its words. */
  lemma OneLine(words: seq<string>)
    requires |words| > 0 && words[0] != "put" && words[0] != "use"
    requires forall i :: 0 <= i < |words| ==> IsWord(words[i])
    ensures var line := Unwords(words);
            NoCR(line) && Tokens(line) == words && !(|line| >= 4 && line[..4] == "use ")
  {
    CommandLine(words);
    var line := Unwords(words);
    var w, tail := words[0], Spaced(words[1..]);
    assert line == w + tail;
    assert tail == [] || tail[0] == ' ';
    if |line| >= 4 {
      if |w| >= 4 {
        assert line[3] == w[3] != ' ';
      } else if |w| == 3 {
        assert line[..4][..3] == w;
      } else {
        assert line[|w|] == tail[0] == ' ';
        assert "use "[|w|] != ' ';
      }
    }
  }

  // The candidate properties of the table, one per method.

  lemma UseRendersTube(tube: string, options: Options)
    ensures ToString(Request(Some("use"), Str(tube), options)) == Some("use " + tube + CRLF)
  {
    LookupName(UseTube);
  }

  lemma ReserveIgnoresArguments(d1: Value, o1: Options, d2: Value, o2: Options)
    ensures ToString(Request(Some("reserve"), d1, o1)) == ToString(Request(Some("reserve"), d2, o2))
         == Some("reserve" + CRLF)
  {
    LookupName(ReserveJob);
  }

  lemma ReserveWithTimeoutDefault(data: Value, options: Options)
    ensures ToString(Request(Some("reserve-with-timeout"), data, options))
         == Some("reserve-with-timeout " + FormatInt(IntOption(options, "timeout", 0)) + CRLF)
  {
    LookupName(ReserveWithTimeoutJob);
    ArgDefault(options, map["timeout" := Int(0)], "timeout");
    Unwords2("reserve-with-timeout", FormatInt(IntOption(options, "timeout", 0)));
    assert "reserve-with-timeout" + " " == "reserve-with-timeout ";
  }

  lemma ReleaseRendersDefaults(id: int, options: Options)
    ensures ToString(Request(Some("release"), Int(id), options))
         == Some("release " + FormatInt(id) + " " + FormatInt(IntOption(options, "pri", 0)) + " "
                 + FormatInt(IntOption(options, "delay", 0)) + CRLF)
  {
    LookupName(ReleaseJob);
    var defaults := map["pri" := Int(0), "delay" := Int(0)];
    ArgDefault(options, defaults, "pri");
    ArgDefault(options, defaults, "delay");
    Unwords4("release", FormatInt(id), FormatInt(IntOption(options, "pri", 0)), FormatInt(IntOption(options, "delay", 0)));
    assert "release" + " " == "release ";
  }

  lemma DeleteRendersId(id: int, options: Options)
    ensures ToString(Request(Some("delete"), Int(id), options)) == Some("delete " + FormatInt(id) + CRLF)
  {
    LookupName(DeleteJob);
    Unwords2("delete", FormatInt(id));
    assert "delete" + " " == "delete ";
  }

  lemma ConstantCommands(d1: Value, o1: Options, d2: Value, o2: Options)
    ensures ToString(Request(Some("list-tubes"), d1, o1)) == ToString(Request(Some("list-tubes"), d2, o2))
         == Some("list-tubes" + CRLF)
    ensures ToString(Request(Some("stats"), d1, o1)) == ToString(Request(Some("stats"), d2, o2))
         == Some("stats" + CRLF)
  {
    LookupName(ListAllTubes);
    LookupName(ServerStats);
  }
}
