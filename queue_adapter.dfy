/**
 * The beanstalk queue adapter: configuration defaults, the connection flag,
 * and the queue operations layered over the socket commands (choosing or
 * watching a tube first, treating a scalar argument as the job id, the
 * drain loop of `reset`).
 *
 * The socket is abstract here: a `Connection` records every command it is
 * sent, with the answer it gave, and answers from a script fixed in advance.
 */
module QueueAdapter {
  import opened Wrappers
  import opened PhpValues

  /**
   * What a socket command returns: a PHP value, or a job `{id, body}` whose
   * body is `false` (None) when reading it failed.
   */
  datatype Answer = Plain(v: Value) | Job(id: int, body: Option<string>)

  /** The text a job's body hands to the decoder: `false` reads as the empty string. */
  function BodyText(a: Answer): string
    requires a.Job?
  {
    if a.body.Some? then a.body.value else ""
  }

  /** PHP truthiness of an answer; a job array is never empty. */
  predicate Succeeded(a: Answer) {
    a.Job? || Truthy(a.v)
  }

  /** The commands the adapter sends to the socket, with their arguments. */
  datatype Command =
    | Open(options: Options) | Close
    | Choose(tube: Value) | Put(priority: Value, delay: Value, ttr: Value, body: string)
    | Watch(tube: Value) | Reserve(timeout: Value) | Delete(id: Value)
    | Release(id: Value, priority: Value, delay: Value) | Touch(id: Value) | Bury(id: Value, priority: Value)
    | Kick(bound: Value) | Peek(id: Value) | PeekNext(name: string)
    | Stats | StatsJob(id: Value) | StatsTube(tube: Value) | ListTubeChosen

  /** One command and the answer it got. */
  datatype Exchange = Exchange(command: Command, answer: Answer)

  /** A script that has run out answers `false`. */
  function Head(script: seq<Answer>): Answer {
    if script == [] then Plain(Bool(false)) else script[0]
  }

  function Tail(script: seq<Answer>): seq<Answer> {
    if script == [] then [] else script[1..]
  }

  /** The `j`-th answer of a script. */
  function AnswerAt(script: seq<Answer>, j: nat): Answer {
    if j < |script| then script[j] else Plain(Bool(false))
  }

  /** The outcome of a run of commands: the result, the exchanges in order, and the answers left. */
  datatype Run<T> = Run(result: T, log: seq<Exchange>, rest: seq<Answer>)

  /** Sending one command. */
  function Ask(script: seq<Answer>, c: Command): (r: Run<Answer>)
    ensures |r.rest| <= |script| && (script != [] ==> |r.rest| < |script|)
  {
    Run(Head(script), [Exchange(c, Head(script))], Tail(script))
  }

  /**
   * What `_decode` gives back: an array; an object, which is what
   * `json_decode` without `$assoc` makes of a JSON object; or a scalar, such
   * as the `false` of a failed `unserialize` or a decoded string.
   */
  datatype Decoded = DecodedArray(entries: Options) | DecodedObject(properties: Options) | DecodedScalar(v: Value)

  /** The encoders and decoders `format` chooses between; they are not part of this model. */
  datatype Codec = Codec(
    serialize: Value -> string, unserialize: string -> Decoded,
    jsonEncode: Value -> string, jsonDecode: string -> Decoded)

  /** `(array) $x`: an array as it is, an object's properties, null as the empty array, any other scalar as `[0 => $x]`. */
  function CastArray(d: Decoded): Options {
    match d
    case DecodedArray(entries) => entries
    case DecodedObject(properties) => properties
    case DecodedScalar(v) => if v.Null? then map[] else map["0" := v]
  }

  /** `reserve`'s `array_merge((array) $decoded, array('id' => $id))`. */
  function ReservedJob(d: Decoded, id: int): Options {
    CastArray(d)["id" := Int(id)]
  }

  /** What `next` returns: `false`, the `null` of a failed `array_merge`, or a job's array. */
  datatype NextResult = NextFalse | NextNull | NextJob(job: Options)

  /** `next`'s `array_merge($decoded, array('id' => $id))`: PHP 7 gives null unless `$decoded` is an array. */
  function PeekedJob(d: Decoded, id: int): NextResult {
    if d.DecodedArray? then NextJob(d.entries["id" := Int(id)]) else NextNull
  }

  /** `switch ($config['format'])` takes the `'json'` case by loose comparison; every other value serialises. */
  predicate UsesJson(config: Options) {
    LooseEqualsWord(Get(config, "format"), "json")
  }

  /**
   * `put` runs `extract($options)` after `$data` is bound, so a `data`
   * option replaces the payload.
   */
  function Payload(options: Options, data: Value): Value {
    if "data" in options then options["data"] else data
  }

  /** The adapter's configuration defaults. */
  const Defaults: Options := map[
    "autoConnect" := Bool(true), "persistent" := Bool(true), "format" := Str("php"),
    "kickBound" := Int(100), "host" := Str("127.0.0.1" + ":" + "11300"), "timeout" := Int(60)]

  /** The options `connect` opens the socket with. */
  function SocketOptions(config: Options): Options {
    map["persistent" := Get(config, "persistent"), "host" := Get(config, "host"),
        "port" := Get(config, "port"), "timeout" := Int(-1)]
  }

  // ---------------------------------------------------------------------
  // What each composite operation sends, answer by answer

  /** `watch`: each tube in order, stopping at the first falsy answer. */
  function WatchAll(script: seq<Answer>, tubes: seq<Value>): (r: Run<bool>)
    ensures |r.rest| <= |script|
    decreases |tubes|
  {
    if tubes == [] then Run(true, [], script)
    else
      var a := Ask(script, Watch(tubes[0]));
      if !Succeeded(a.result) then Run(false, a.log, a.rest)
      else
        var w := WatchAll(a.rest, tubes[1..]);
        Run(w.result, a.log + w.log, w.rest)
  }

  function PutDefaults(timeout: Value): Options {
    map["priority" := Int(0), "delay" := Int(0), "timeout" := timeout, "tube" := Str("default")]
  }

  /** `put`: choose the tube when one is set, then put the encoded body unless choosing failed. */
  function PutRun(script: seq<Answer>, options: Options, timeout: Value, body: string): Run<Answer> {
    var o := Merge(options, PutDefaults(timeout));
    var put := Command.Put(Get(o, "priority"), Get(o, "delay"), Get(o, "timeout"), body);
    if Truthy(Get(o, "tube")) then
      var c := Ask(script, Choose(Get(o, "tube")));
      if !Succeeded(c.result) then Run(Plain(Bool(false)), c.log, c.rest)
      else
        var p := Ask(c.rest, put);
        Run(p.result, c.log + p.log, p.rest)
    else Ask(script, put)
  }

  const ReserveDefaults: Options := map["timeout" := Null, "tube" := Null]

  /**
   * `reserve`: watch the tube when one is set, then reserve; a job comes
   * back as its decoded body with the server's `id` merged over it. An
   * answer that is not a job reads as `false`.
   */
  function ReserveRun(script: seq<Answer>, options: Options, decode: string -> Decoded): (r: Run<Option<Options>>)
    ensures |r.rest| <= |script| && (r.result.Some? ==> |r.rest| < |script|)
  {
    var o := Merge(options, ReserveDefaults);
    var w := if Truthy(Get(o, "tube")) then WatchAll(script, [Get(o, "tube")]) else Run(true, [], script);
    if !w.result then Run(None, w.log, w.rest)
    else
      var a := Ask(w.rest, Reserve(Get(o, "timeout")));
      var job := a.result;
      Run(if job.Job? then Some(ReservedJob(decode(BodyText(job)), job.id)) else None, w.log + a.log, a.rest)
  }

  const ResetDefaults: Options := map["timeout" := Int(1), "tube" := Str("default")]

  /** `reset`'s loop: reserve, delete what was reserved, until a reserve fails. */
  function Drain(script: seq<Answer>, options: Options, decode: string -> Decoded): Run<bool>
    decreases |script|
  {
    var r := ReserveRun(script, options, decode);
    if r.result.None? then Run(true, r.log, r.rest)
    else
      var d := Ask(r.rest, Delete(Get(r.result.value, "id")));
      var n := Drain(d.rest, options, decode);
      Run(true, r.log + d.log + n.log, n.rest)
  }

  /** `reset`'s loop ends at the first reserve that finds no job. */
  lemma DrainStops(script: seq<Answer>, options: Options, decode: string -> Decoded)
    requires ReserveRun(script, options, decode).result.None?
    ensures Drain(script, options, decode).rest == ReserveRun(script, options, decode).rest
    ensures Drain(script, options, decode).log == ReserveRun(script, options, decode).log
  {
  }

  /** Four logs appended in order, regrouped. */
  lemma Regroup(a: seq<Exchange>, b: seq<Exchange>, c: seq<Exchange>, d: seq<Exchange>)
    ensures a + b + c + d == a + (b + c + d)
  {
  }

  /** A round of `reset`'s loop that found a job deletes it and goes on with the answers left. */
  lemma DrainGoesOn(script: seq<Answer>, options: Options, decode: string -> Decoded, run: Run<Option<Options>>, del: Run<Answer>)
    requires run == ReserveRun(script, options, decode) && run.result.Some?
    requires del == Ask(run.rest, Delete(Get(run.result.value, "id")))
    ensures |del.rest| < |script|
    ensures Drain(del.rest, options, decode).rest == Drain(script, options, decode).rest
    ensures run.log + del.log + Drain(del.rest, options, decode).log == Drain(script, options, decode).log
  {
  }

  /** `ucfirst`: a lower-case ASCII first letter becomes upper case; everything else is kept. */
  function Ucfirst(s: string): (r: string)
    ensures |r| == |s| && (s != [] ==> r[1..] == s[1..])
    ensures s != [] && 'a' <= s[0] <= 'z' ==> 'A' <= r[0] <= 'Z' && r[0] as int == s[0] as int - 32
    ensures s != [] && !('a' <= s[0] <= 'z') ==> r[0] == s[0]
  {
    if s != [] && 'a' <= s[0] <= 'z' then [(s[0] as int - 32) as char] + s[1..] else s
  }

  /** The tube `next` chooses: the `tube` option, null by default. */
  function NextTube(options: Options): Value {
    Get(Merge(options, map["tube" := Null]), "tube")
  }

  /** `$type` after `extract($options, EXTR_OVERWRITE)`: a `type` option replaces the argument, read as a string by `ucfirst`. */
  function NextKind(kind: string, options: Options): string {
    if "type" in options then StrOf(options["type"]) else kind
  }

  /**
   * `next`: choose the tube when one is set, then call `peek<Type>`; a job
   * comes back decoded with its id, or null when its body does not decode
   * to an array; a failed choice or peek is `false`.
   */
  function NextRun(script: seq<Answer>, kind: string, options: Options, decode: string -> Decoded): Run<NextResult> {
    var tube := NextTube(options);
    var c := if Truthy(tube) then Ask(script, Choose(tube)) else Run(Plain(Bool(true)), [], script);
    if !Succeeded(c.result) then Run(NextFalse, c.log, c.rest)
    else
      var p := Ask(c.rest, PeekNext("peek" + Ucfirst(NextKind(kind, options))));
      var job := p.result;
      Run(if job.Job? then PeekedJob(decode(BodyText(job)), job.id) else NextFalse, c.log + p.log, p.rest)
  }

  /** An argument that is either an options array or a scalar. */
  datatype Arg = Scalar(v: Value) | Array(o: Options)

  /** `if (!is_array($options)) $options = array($key => $options);` */
  function AsOptions(a: Arg, key: string): Options {
    match a
    case Array(o) => o
    case Scalar(v) => map[key := v]
  }

  function ReleaseCommand(a: Arg): Command {
    var o := Merge(AsOptions(a, "id"), map["id" := Null, "priority" := Int(0), "delay" := Int(0)]);
    Release(Get(o, "id"), Get(o, "priority"), Get(o, "delay"))
  }

  function TouchCommand(a: Arg): Command {
    Touch(Get(Merge(AsOptions(a, "id"), map["id" := Null]), "id"))
  }

  function BuryCommand(a: Arg): Command {
    var o := Merge(AsOptions(a, "id"), map["id" := Null, "priority" := Int(0)]);
    Bury(Get(o, "id"), Get(o, "priority"))
  }

  function KickOptions(a: Arg, kickBound: Value): Options {
    Merge(AsOptions(a, "bound"), map["bound" := kickBound, "tube" := Null])
  }

  // ---------------------------------------------------------------------
  // Properties of the operations

  /** With no configuration at all, the adapter runs on its defaults. */
  lemma DefaultConfiguration()
    ensures var c := Merge(map[], Defaults);
            Get(c, "autoConnect") == Bool(true) && Get(c, "persistent") == Bool(true)
            && Get(c, "format") == Str("php") && Get(c, "kickBound") == Int(100)
            && Get(c, "host") == Str("127.0.0.1:11300") && Get(c, "timeout") == Int(60)
  {
    assert Merge(map[], Defaults) == Defaults;
  }

  /** The format is PHP serialisation by default and JSON only when asked for (or, loosely, given `true`). */
  lemma FormatChoice(config: Options)
    ensures !UsesJson(Merge(map[], Defaults))
    ensures UsesJson(Merge(map["format" := Str("json")], Defaults))
    ensures UsesJson(Merge(map["format" := Bool(true)], Defaults))
    ensures Get(config, "format") == Str("php") ==> !UsesJson(config)
  {
    assert Merge(map[], Defaults) == Defaults;
  }

  /** `watch` succeeds exactly when every tube's answer is truthy, and sends one command per tube tried. */
  lemma {:induction false} WatchAllSucceeds(script: seq<Answer>, tubes: seq<Value>)
    ensures WatchAll(script, tubes).result <==> forall j :: 0 <= j < |tubes| ==> Succeeded(AnswerAt(script, j))
    ensures WatchAll(script, tubes).result ==> |WatchAll(script, tubes).log| == |tubes|
    decreases |tubes|
  {
    if tubes != [] {
      var a := Ask(script, Watch(tubes[0]));
      assert AnswerAt(script, 0) == a.result;
      forall j | 0 <= j < |tubes| - 1 ensures AnswerAt(a.rest, j) == AnswerAt(script, j + 1) {
      }
      WatchAllSucceeds(a.rest, tubes[1..]);
      if Succeeded(a.result) && WatchAll(a.rest, tubes[1..]).result {
        forall j | 0 <= j < |tubes| ensures Succeeded(AnswerAt(script, j)) {
          if j > 0 { assert AnswerAt(a.rest, j - 1) == AnswerAt(script, j); }
        }
      }
    }
  }

  /** `put` with no options chooses the `default` tube, then puts at priority 0, delay 0 and the configured timeout. */
  lemma PutUsesDefaults(script: seq<Answer>, timeout: Value, body: string)
    requires Succeeded(Head(script))
    ensures PutRun(script, map[], timeout, body).log
            == [Exchange(Choose(Str("default")), Head(script)),
                Exchange(Command.Put(Int(0), Int(0), timeout, body), Head(Tail(script)))]
  {
    assert Merge(map[], PutDefaults(timeout)) == PutDefaults(timeout);
  }

  /** When choosing the tube fails, `put` is `false` and no put command is sent. */
  lemma PutStopsWhenChooseFails(script: seq<Answer>, options: Options, timeout: Value, body: string)
    requires Truthy(Get(Merge(options, PutDefaults(timeout)), "tube")) && !Succeeded(Head(script))
    ensures var r := PutRun(script, options, timeout, body);
            r.result == Plain(Bool(false)) && |r.log| == 1 && r.log[0].command.Choose?
  {
  }

  /** A reserved job is its decoded body with the server's id, which overrides any `id` in the body. */
  lemma ReservedJobId(script: seq<Answer>, options: Options, decode: string -> Decoded)
    requires ReserveRun(script, options, decode).result.Some?
    ensures var r := ReserveRun(script, options, decode);
            var job := r.log[|r.log| - 1].answer;
            Get(r.result.value, "id") == Int(job.id)
            && var fields := CastArray(decode(BodyText(job)));
               forall k :: k in fields && k != "id" ==> r.result.value[k] == fields[k]
  {
    ReserveFound(script, options, decode);
  }

  /**
   * Every job `reset` reserves is deleted exactly once: a reserve answered
   * with a job is followed at once by the delete of that job's id, and
   * every delete follows such a reserve.
   */
  predicate Paired(log: seq<Exchange>) {
    (forall i :: 0 <= i < |log| && log[i].command.Reserve? && log[i].answer.Job? ==>
       i + 1 < |log| && log[i + 1].command == Delete(Int(log[i].answer.id)))
    && (forall i :: 0 <= i < |log| && log[i].command.Delete? ==>
       0 < i && log[i - 1].command.Reserve? && log[i - 1].answer.Job? && log[i].command.id == Int(log[i - 1].answer.id))
  }

  /** The exchanges of one reserve that found a job, and the delete of that job. */
  lemma PairedStep(w: seq<Exchange>, reserve: Exchange, delete: Exchange, tail: seq<Exchange>)
    requires forall i :: 0 <= i < |w| ==> w[i].command.Watch?
    requires reserve.command.Reserve? && reserve.answer.Job? && delete.command == Delete(Int(reserve.answer.id))
    requires Paired(tail) && (tail == [] || !tail[0].command.Delete?)
    ensures Paired(w + [reserve] + [delete] + tail)
  {
    var log := w + [reserve] + [delete] + tail;
    var n := |w|;
    assert log[n] == reserve && log[n + 1] == delete;
    forall i | 0 <= i < |log| && log[i].command.Reserve? && log[i].answer.Job?
      ensures i + 1 < |log| && log[i + 1].command == Delete(Int(log[i].answer.id))
    {
      if i > n + 1 {
        assert log[i] == tail[i - n - 2];
        assert log[i + 1] == tail[i - n - 1];
      }
    }
    forall i | 0 <= i < |log| && log[i].command.Delete?
      ensures 0 < i && log[i - 1].command.Reserve? && log[i - 1].answer.Job? && log[i].command.id == Int(log[i - 1].answer.id)
    {
      if i > n + 2 {
        assert log[i] == tail[i - n - 2];
        assert log[i - 1] == tail[i - n - 3];
      }
    }
  }

  /** The last command of a failed reserve, and everything before it, hold no job to delete. */
  lemma PairedFailed(log: seq<Exchange>)
    requires forall i :: 0 <= i < |log| ==> log[i].command.Watch? || (log[i].command.Reserve? && !log[i].answer.Job?)
    ensures Paired(log)
  {
  }

  lemma {:induction false} DrainPairs(script: seq<Answer>, options: Options, decode: string -> Decoded)
    ensures Paired(Drain(script, options, decode).log)
    ensures Drain(script, options, decode).log != [] && !Drain(script, options, decode).log[0].command.Delete?
    decreases |script|
  {
    var r := ReserveRun(script, options, decode);
    if r.result.None? {
      ReserveFailedLog(script, options, decode);
      PairedFailed(r.log);
    } else {
      var d := Ask(r.rest, Delete(Get(r.result.value, "id")));
      var n := Drain(d.rest, options, decode);
      DrainPairs(d.rest, options, decode);
      ReserveFound(script, options, decode);
      var k := |r.log| - 1;
      assert r.log == r.log[..k] + [r.log[k]];
      PairedStep(r.log[..k], r.log[k], d.log[0], n.log);
      assert r.log + d.log + n.log == r.log[..k] + [r.log[k]] + [d.log[0]] + n.log;
    }
  }

  /** `watch` sends nothing but watch commands. */
  lemma {:induction false} OnlyWatches(script: seq<Answer>, tubes: seq<Value>)
    ensures forall i :: 0 <= i < |WatchAll(script, tubes).log| ==> WatchAll(script, tubes).log[i].command.Watch?
    decreases |tubes|
  {
    if tubes != [] {
      var a := Ask(script, Watch(tubes[0]));
      OnlyWatches(a.rest, tubes[1..]);
      var w := WatchAll(a.rest, tubes[1..]);
      forall i | 0 <= i < |a.log + w.log| ensures (a.log + w.log)[i].command.Watch? {
        if i > 0 {
          assert (a.log + w.log)[i] == w.log[i - 1];
          assert w.log[i - 1].command.Watch?;
        } else {
          assert (a.log + w.log)[i] == a.log[0];
          assert a.log[0].command.Watch?;
        }
      }
    }
  }

  /** A reserve that found a job sent watches, then the reserve whose answer is that job. */
  lemma ReserveFound(script: seq<Answer>, options: Options, decode: string -> Decoded)
    requires ReserveRun(script, options, decode).result.Some?
    ensures var r := ReserveRun(script, options, decode);
            |r.log| > 0 && (forall i :: 0 <= i < |r.log| - 1 ==> r.log[i].command.Watch?)
            && r.log[|r.log| - 1].command.Reserve? && r.log[|r.log| - 1].answer.Job?
            && r.result.value == ReservedJob(decode(BodyText(r.log[|r.log| - 1].answer)), r.log[|r.log| - 1].answer.id)
  {
    var o := Merge(options, ReserveDefaults);
    OnlyWatches(script, [Get(o, "tube")]);
    var w := if Truthy(Get(o, "tube")) then WatchAll(script, [Get(o, "tube")]) else Run(true, [], script);
    if Truthy(Get(o, "tube")) {
      assert w == WatchAll(script, [Get(o, "tube")]);
    }
    assert forall i :: 0 <= i < |w.log| ==> w.log[i].command.Watch?;
    var a := Ask(w.rest, Reserve(Get(o, "timeout")));
    assert ReserveRun(script, options, decode).log == w.log + a.log;
    assert forall i :: 0 <= i < |w.log| ==> (w.log + a.log)[i] == w.log[i];
    assert (w.log + a.log)[|w.log|] == a.log[0];
  }

  /** A reserve that found no job sent watches and at most one reserve, none of which holds a job. */
  lemma ReserveFailedLog(script: seq<Answer>, options: Options, decode: string -> Decoded)
    requires ReserveRun(script, options, decode).result.None?
    ensures var log := ReserveRun(script, options, decode).log;
            log != [] && forall i :: 0 <= i < |log| ==> log[i].command.Watch? || (log[i].command.Reserve? && !log[i].answer.Job?)
  {
    var o := Merge(options, ReserveDefaults);
    OnlyWatches(script, [Get(o, "tube")]);
    var w := if Truthy(Get(o, "tube")) then WatchAll(script, [Get(o, "tube")]) else Run(true, [], script);
    if Truthy(Get(o, "tube")) {
      assert w == WatchAll(script, [Get(o, "tube")]);
    }
    assert forall i :: 0 <= i < |w.log| ==> w.log[i].command.Watch?;
    if w.result {
      var a := Ask(w.rest, Reserve(Get(o, "timeout")));
      assert ReserveRun(script, options, decode).log == w.log + a.log;
      assert forall i :: 0 <= i < |w.log| ==> (w.log + a.log)[i] == w.log[i];
      assert (w.log + a.log)[|w.log|] == a.log[0];
    }
  }

  /**
   * What `next` sends and gives, for every script: a `choose` of the tube
   * exactly when the tube option is truthy; unless that choose failed, one
   * `peek` followed by the type (or the `type` option) with its first
   * letter upper-cased. The result is `false` exactly when the choice
   * failed or the peek found no job, `null` exactly when the job's body
   * does not decode to an array, and otherwise that array with the
   * server's id.
   */
  lemma NextSends(script: seq<Answer>, kind: string, options: Options, decode: string -> Decoded)
    ensures var r := NextRun(script, kind, options, decode);
            var chose := Truthy(NextTube(options));
            var at := if chose then 1 else 0;
            var peeked := AnswerAt(script, at);
            var peeks := !chose || Succeeded(Head(script));
            (chose ==> r.log[0] == Exchange(Choose(NextTube(options)), Head(script)))
            && (!peeks ==> r.log == [Exchange(Choose(NextTube(options)), Head(script))])
            && (peeks ==> |r.log| == at + 1 && r.log[at] == Exchange(PeekNext("peek" + Ucfirst(NextKind(kind, options))), peeked))
            && (r.result == NextFalse <==> !peeks || !peeked.Job?)
            && (r.result == NextNull <==> peeks && peeked.Job? && !decode(BodyText(peeked)).DecodedArray?)
            && (r.result.NextJob? ==> r.result.job == decode(BodyText(peeked)).entries["id" := Int(peeked.id)])
  {
    if Truthy(NextTube(options)) {
      assert AnswerAt(script, 1) == Head(Tail(script));
    } else {
      assert AnswerAt(script, 0) == Head(script);
    }
  }

  /** `next('ready')` asks the connection for `peekReady`. */
  lemma NextNamesPeekMethod(script: seq<Answer>)
    ensures var r := NextRun(script, "ready", map[], (s: string) => DecodedArray(map[]));
            r.log == [Exchange(PeekNext("peekReady"), Head(script))]
  {
    assert Get(Merge(map[], map["tube" := Null]), "tube") == Null;
    assert NextKind("ready", map[]) == "ready";
    assert Ucfirst("ready") == ['R'] + "eady";
    assert "peek" + Ucfirst("ready") == "peekReady";
  }

  /** `next('ready', array('type' => 'delayed'))`: the option extracted over `$type` makes it `peekDelayed`. */
  lemma NextTypeOption(script: seq<Answer>)
    ensures var r := NextRun(script, "ready", map["type" := Str("delayed")], (s: string) => DecodedArray(map[]));
            r.log == [Exchange(PeekNext("peekDelayed"), Head(script))]
  {
    var typed: Options := map["type" := Str("delayed")];
    assert Get(Merge(typed, map["tube" := Null]), "tube") == Null;
    assert NextKind("ready", typed) == "delayed";
    assert Ucfirst("delayed") == ['D'] + "elayed";
    assert "peek" + Ucfirst("delayed") == "peekDelayed";
  }

  /**
   * A body that decodes to a string comes back from `reserve` as that
   * string under key 0 with the id, and from `next` as null.
   */
  lemma ScalarBodies(script: seq<Answer>, decode: string -> Decoded, id: int, body: string, v: string)
    requires script == [Job(id, Some(body))] && decode(body) == DecodedScalar(Str(v))
    ensures ReserveRun(script, map[], decode).result == Some(map["0" := Str(v), "id" := Int(id)])
    ensures NextRun(script, "ready", map[], decode).result == NextNull
  {
    assert Merge(map[], ReserveDefaults) == ReserveDefaults;
    assert Merge(map[], map["tube" := Null]) == map["tube" := Null];
  }

  /** A scalar argument is the job id of `release`, `touch` and `bury`, whose priority and delay default to 0. */
  lemma ScalarIsId(v: Value)
    ensures ReleaseCommand(Scalar(v)) == Release(v, Int(0), Int(0))
    ensures TouchCommand(Scalar(v)) == Touch(v)
    ensures BuryCommand(Scalar(v)) == Bury(v, Int(0))
  {
  }

  /** A scalar argument is `kick`'s bound; without one the configured bound applies. */
  lemma KickBound(v: Value, kickBound: Value)
    ensures Get(KickOptions(Scalar(v), kickBound), "bound") == v
    ensures Get(KickOptions(Array(map[]), kickBound), "bound") == kickBound
  {
  }

  /** The value of an option when it is given, else its default: what `$options += $defaults` leaves under a key. */
  function OptionOr(options: Options, key: string, default: Value): Value {
    if key in options then options[key] else default
  }

  /**
   * `put` with any options: a given priority, delay, timeout or tube wins
   * over its default; a truthy tube is chosen first, and a failed choice
   * answers `false` with nothing put; otherwise the put gets the next
   * answer, which is the result.
   */
  lemma PutSends(script: seq<Answer>, options: Options, timeout: Value, body: string)
    ensures var r := PutRun(script, options, timeout, body);
            var tube := OptionOr(options, "tube", Str("default"));
            var put := Command.Put(OptionOr(options, "priority", Int(0)), OptionOr(options, "delay", Int(0)),
                                   OptionOr(options, "timeout", timeout), body);
            var chose := Truthy(tube);
            var at := if chose then 1 else 0;
            (chose ==> r.log[0] == Exchange(Choose(tube), Head(script)))
            && (chose && !Succeeded(Head(script)) ==> r.result == Plain(Bool(false)) && |r.log| == 1)
            && (!chose || Succeeded(Head(script)) ==>
                  |r.log| == at + 1 && r.log[at] == Exchange(put, AnswerAt(script, at)) && r.result == AnswerAt(script, at))
  {
    if Truthy(OptionOr(options, "tube", Str("default"))) {
      assert AnswerAt(script, 1) == Head(Tail(script));
    } else {
      assert AnswerAt(script, 0) == Head(script);
    }
  }

  /** A `type` option names the peek in place of the argument, whatever was passed; without one the argument does. */
  lemma TypeOptionWins(kind: string, other: string, options: Options)
    ensures "type" in options ==> NextKind(kind, options) == NextKind(other, options) == StrOf(options["type"])
    ensures "type" !in options ==> NextKind(kind, options) == kind
  {
  }

  /** A `data` option replaces the payload, whatever was passed; without one the passed data is put. */
  lemma DataOptionWins(options: Options, data: Value, other: Value)
    ensures "data" in options ==> Payload(options, data) == Payload(options, other) == options["data"]
    ensures "data" !in options ==> Payload(options, data) == data
  {
  }

  /** With no configuration, `connect` opens a persistent socket to 127.0.0.1:11300 with a null port and no timeout. */
  lemma DefaultSocketOptions()
    ensures SocketOptions(Merge(Merge(map[], Defaults), ObjectDefaults))
            == map["persistent" := Bool(true), "host" := Str("127.0.0.1:11300"), "port" := Null, "timeout" := Int(-1)]
  {
    assert Merge(map[], Defaults) == Defaults;
    var c := Merge(Defaults, ObjectDefaults);
    assert "127.0.0.1" + ":" + "11300" == "127.0.0.1:11300";
    assert Get(c, "persistent") == Bool(true) && Get(c, "host") == Str("127.0.0.1:11300");
    assert "port" !in c;
  }

  /** An options array gives `release`, `touch` and `bury` their id, priority and delay (null, 0 and 0 when missing), and `kick` its bound (the configured one when missing) and tube. */
  lemma ArrayArguments(o: Options, kickBound: Value)
    ensures ReleaseCommand(Array(o)) == Release(OptionOr(o, "id", Null), OptionOr(o, "priority", Int(0)), OptionOr(o, "delay", Int(0)))
    ensures TouchCommand(Array(o)) == Touch(OptionOr(o, "id", Null))
    ensures BuryCommand(Array(o)) == Bury(OptionOr(o, "id", Null), OptionOr(o, "priority", Int(0)))
    ensures Get(KickOptions(Array(o), kickBound), "bound") == OptionOr(o, "bound", kickBound)
    ensures Get(KickOptions(Array(o), kickBound), "tube") == OptionOr(o, "tube", Null)
  {
  }

  // ---------------------------------------------------------------------
  // The connection and the adapter

  /** A socket that answers from a script and records what it was sent. */
  class Connection {
    /** The answers still to give, in order. */
    var script: seq<Answer>
    /** Every command sent so far, with its answer. */
    var log: seq<Exchange>

    constructor(script: seq<Answer>)
      ensures this.script == script && log == []
    {
      this.script, log := script, [];
    }

    method Send(c: Command) returns (a: Answer)
      modifies this
      ensures a == Head(old(script)) && script == Tail(old(script)) && log == old(log) + [Exchange(c, a)]
    {
      a := Head(script);
      script := Tail(script);
      log := log + [Exchange(c, a)];
    }
  }

  class Beanstalk {
    /** `_config`: the user configuration merged over the defaults. */
    const config: Options
    const codec: Codec
    /** `_isConnected`. */
    var connected: bool
    /** `connection`: null until `connect`, and again after `disconnect` unsets it. */
    var connection: Connection?

    /** `_encode`: JSON when `format` is 'json', PHP serialisation otherwise. */
    function Encode(data: Value): string {
      if UsesJson(config) then codec.jsonEncode(data) else codec.serialize(data)
    }

    /** `_decode`, likewise. */
    function Decoder(): string -> Decoded {
      if UsesJson(config) then codec.jsonDecode else codec.unserialize
    }

    /**
     * The constructor merges the adapter's defaults, then the base object's
     * `init => true`, under the configuration. A truthy `init` runs `_init`,
     * where the base adapter's hook and then this adapter's each connect when
     * `autoConnect` is truthy: the socket is opened twice, and the flag is
     * the second open's.
     */
    constructor(config: Options, codec: Codec, socket: Connection)
      modifies socket
      ensures this.config == Merge(Merge(config, Defaults), ObjectDefaults) && this.codec == codec
      ensures var s := old(socket.script);
              var open := Open(SocketOptions(this.config));
              if Truthy(Get(this.config, "init")) && Truthy(Get(this.config, "autoConnect")) then
                connection == socket && connected == Succeeded(Head(Tail(s)))
                && socket.script == Tail(Tail(s))
                && socket.log == old(socket.log) + [Exchange(open, Head(s)), Exchange(open, Head(Tail(s)))]
              else
                connection == null && !connected && socket.script == s && socket.log == old(socket.log)
    {
      this.config := Merge(Merge(config, Defaults), ObjectDefaults);
      this.codec := codec;
      connected := false;
      connection := null;
      new;
      if Truthy(Get(this.config, "init")) && Truthy(Get(this.config, "autoConnect")) {
        var _ := Connect(socket);
        var _ := Connect(socket);
      }
    }

    /** `connect`: clears the flag, opens `socket`, and is connected exactly when the open succeeded. */
    method Connect(socket: Connection) returns (r: bool)
      modifies this, socket
      ensures connection == socket && socket.script == Tail(old(socket.script))
      ensures socket.log == old(socket.log) + [Exchange(Open(SocketOptions(config)), Head(old(socket.script)))]
      ensures r == connected && connected == Succeeded(Head(old(socket.script)))
    {
      connected := false;
      connection := socket;
      var answer := socket.Send(Open(SocketOptions(config)));
      if Succeeded(answer) {
        connected := true;
      }
      r := connected;
    }

    /** `isConnected`: connects through `socket` first only when not connected and `autoConnect` is truthy. */
    method IsConnected(options: Options, socket: Connection) returns (r: bool)
      modifies this, socket
      ensures var retry := !old(connected) && Truthy(Get(Merge(options, map["autoConnect" := Bool(false)]), "autoConnect"));
              if retry then
                connection == socket && connected == Succeeded(Head(old(socket.script)))
                && socket.script == Tail(old(socket.script))
                && socket.log == old(socket.log) + [Exchange(Open(SocketOptions(config)), Head(old(socket.script)))]
              else
                connected == old(connected) && connection == old(connection)
                && socket.script == old(socket.script) && socket.log == old(socket.log)
      ensures r == connected
    {
      var o := Merge(options, map["autoConnect" := Bool(false)]);
      if !connected && Truthy(Get(o, "autoConnect")) {
        var _ := Connect(socket);
      }
      r := connected;
    }

    /** `disconnect`: true at once when not connected; otherwise closes, drops the connection and reports whether the close succeeded. */
    method Disconnect() returns (r: bool)
      requires connected ==> connection != null
      modifies this, connection
      ensures old(connected) ==>
                connection == null && connected == !Succeeded(Head(old(connection.script)))
                && old(connection).script == Tail(old(connection.script))
                && old(connection).log == old(connection.log) + [Exchange(Close, Head(old(connection.script)))]
                && r == !connected
      ensures !old(connected) ==> r && !connected && connection == old(connection)
    {
      if connected {
        var closed := connection.Send(Close);
        connected := !Succeeded(closed);
        connection := null;
        return !connected;
      }
      return true;
    }

    /** `choose`: the connection's `choose`. */
    method Choose(tube: Value) returns (r: Answer)
      requires connection != null
      modifies connection
      ensures r == Head(old(connection.script)) && connection.script == Tail(old(connection.script))
      ensures connection.log == old(connection.log) + [Exchange(Command.Choose(tube), r)]
    {
      r := connection.Send(Command.Choose(tube));
    }

    /** `put`, with the defaults priority 0, delay 0, the configured timeout and the `default` tube. */
    method Put(data: Value, options: Options) returns (r: Answer)
      requires connection != null
      modifies connection
      ensures var run := PutRun(old(connection.script), options, Get(config, "timeout"), Encode(Payload(options, data)));
              r == run.result && connection.script == run.rest && connection.log == old(connection.log) + run.log
    {
      var o := Merge(options, PutDefaults(Get(config, "timeout")));
      var tube := Get(o, "tube");
      if Truthy(tube) {
        var chosen := Choose(tube);
        if !Succeeded(chosen) {
          return Plain(Bool(false));
        }
      }
      r := connection.Send(Command.Put(Get(o, "priority"), Get(o, "delay"), Get(o, "timeout"), Encode(Payload(o, data))));
    }

    /** `write`: exactly `put`. */
    method Write(data: Value, options: Options) returns (r: Answer)
      requires connection != null
      modifies connection
      ensures var run := PutRun(old(connection.script), options, Get(config, "timeout"), Encode(Payload(options, data)));
              r == run.result && connection.script == run.rest && connection.log == old(connection.log) + run.log
    {
      r := Put(data, options);
    }

    /** `add`: exactly `put`. */
    method Add(task: Value, options: Options) returns (r: Answer)
      requires connection != null
      modifies connection
      ensures var run := PutRun(old(connection.script), options, Get(config, "timeout"), Encode(Payload(options, task)));
              r == run.result && connection.script == run.rest && connection.log == old(connection.log) + run.log
    {
      r := Put(task, options);
    }

    /** `watch`: the tubes in order, `false` at the first that fails. */
    method Watch(tubes: seq<Value>) returns (r: bool)
      requires connection != null
      modifies connection
      ensures var run := WatchAll(old(connection.script), tubes);
              r == run.result && connection.script == run.rest && connection.log == old(connection.log) + run.log
    {
      var i := 0;
      while i < |tubes|
        invariant 0 <= i <= |tubes|
        invariant WatchAll(connection.script, tubes[i..]).result == WatchAll(old(connection.script), tubes).result
        invariant WatchAll(connection.script, tubes[i..]).rest == WatchAll(old(connection.script), tubes).rest
        invariant connection.log + WatchAll(connection.script, tubes[i..]).log
                  == old(connection.log) + WatchAll(old(connection.script), tubes).log
      {
        assert tubes[i..][1..] == tubes[i + 1..];
        var a := connection.Send(Command.Watch(tubes[i]));
        if !Succeeded(a) {
          return false;
        }
        i := i + 1;
      }
      return true;
    }

    /** `reserve`: watch the tube when one is set, then reserve; the decoded body with the server's id. */
    method Reserve(options: Options) returns (r: Option<Options>)
      requires connection != null
      modifies connection
      ensures var run := ReserveRun(old(connection.script), options, Decoder());
              r == run.result && connection.script == run.rest && connection.log == old(connection.log) + run.log
    {
      var o := Merge(options, ReserveDefaults);
      var tube := Get(o, "tube");
      if Truthy(tube) {
        var watched := Watch([tube]);
        if !watched {
          return None;
        }
      }
      var job := connection.Send(Command.Reserve(Get(o, "timeout")));
      if !job.Job? {
        return None;
      }
      r := Some(ReservedJob(Decoder()(BodyText(job)), job.id));
    }

    /** `run`: exactly `reserve`. */
    method Run(options: Options) returns (r: Option<Options>)
      requires connection != null
      modifies connection
      ensures var run := ReserveRun(old(connection.script), options, Decoder());
              r == run.result && connection.script == run.rest && connection.log == old(connection.log) + run.log
    {
      r := Reserve(options);
    }

    /** `delete`: the connection's `delete`. */
    method Delete(id: Value) returns (r: Answer)
      requires connection != null
      modifies connection
      ensures r == Head(old(connection.script)) && connection.script == Tail(old(connection.script))
      ensures connection.log == old(connection.log) + [Exchange(Command.Delete(id), r)]
    {
      r := connection.Send(Command.Delete(id));
    }

    /** One round of `reset`: reserve, and delete the job when one came back. */
    method DrainOnce(o: Options) returns (done: bool)
      requires connection != null
      modifies connection
      ensures var run := Drain(old(connection.script), o, Decoder());
              if done then connection.script == run.rest && connection.log == old(connection.log) + run.log
              else
                |connection.script| < |old(connection.script)| && Drain(connection.script, o, Decoder()).rest == run.rest
                && connection.log + Drain(connection.script, o, Decoder()).log == old(connection.log) + run.log
    {
      ghost var script, log := connection.script, connection.log;
      ghost var run := ReserveRun(script, o, Decoder());
      var job := Reserve(o);
      if job.None? {
        DrainStops(script, o, Decoder());
        return true;
      }
      var _ := Delete(Get(job.value, "id"));
      ghost var del := Ask(run.rest, Command.Delete(Get(job.value, "id")));
      DrainGoesOn(script, o, Decoder(), run, del);
      ghost var rest := Drain(del.rest, o, Decoder());
      assert connection.script == del.rest;
      assert connection.log == log + run.log + del.log;
      Regroup(log, run.log, del.log, rest.log);
      done := false;
    }

    /** `reset`: reserves from the `default` tube with timeout 1 and deletes each job until a reserve fails; always true. */
    method Reset(options: Options) returns (r: bool)
      requires connection != null
      modifies connection
      ensures var run := Drain(old(connection.script), Merge(options, ResetDefaults), Decoder());
              r && connection.script == run.rest && connection.log == old(connection.log) + run.log
    {
      var o := Merge(options, ResetDefaults);
      while true
        invariant Drain(connection.script, o, Decoder()).rest == Drain(old(connection.script), o, Decoder()).rest
        invariant connection.log + Drain(connection.script, o, Decoder()).log
                  == old(connection.log) + Drain(old(connection.script), o, Decoder()).log
        decreases |connection.script|
      {
        var done := DrainOnce(o);
        if done {
          break;
        }
      }
      return true;
    }

    /** `release`: a scalar argument is the id; priority and delay default to 0. */
    method Release(options: Arg) returns (r: Answer)
      requires connection != null
      modifies connection
      ensures r == Head(old(connection.script)) && connection.script == Tail(old(connection.script))
      ensures connection.log == old(connection.log) + [Exchange(ReleaseCommand(options), r)]
    {
      r := connection.Send(ReleaseCommand(options));
    }

    /** `touch`: a scalar argument is the id. */
    method Touch(options: Arg) returns (r: Answer)
      requires connection != null
      modifies connection
      ensures r == Head(old(connection.script)) && connection.script == Tail(old(connection.script))
      ensures connection.log == old(connection.log) + [Exchange(TouchCommand(options), r)]
    {
      r := connection.Send(TouchCommand(options));
    }

    /** `bury`: a scalar argument is the id; priority defaults to 0. */
    method Bury(options: Arg) returns (r: Answer)
      requires connection != null
      modifies connection
      ensures r == Head(old(connection.script)) && connection.script == Tail(old(connection.script))
      ensures connection.log == old(connection.log) + [Exchange(BuryCommand(options), r)]
    {
      r := connection.Send(BuryCommand(options));
    }

    /** `kick` without a tube: a scalar argument is the bound, which defaults to the configured `kickBound`. */
    method Kick(options: Arg) returns (r: Answer)
      requires connection != null
      requires !Truthy(Get(KickOptions(options, Get(config, "kickBound")), "tube"))
      modifies connection
      ensures r == Head(old(connection.script)) && connection.script == Tail(old(connection.script))
      ensures connection.log == old(connection.log)
                                + [Exchange(Command.Kick(Get(KickOptions(options, Get(config, "kickBound")), "bound")), r)]
    {
      var o := KickOptions(options, Get(config, "kickBound"));
      r := connection.Send(Command.Kick(Get(o, "bound")));
    }

    /** `peek`: the connection's `peek`. */
    method Peek(id: Value) returns (r: Answer)
      requires connection != null
      modifies connection
      ensures r == Head(old(connection.script)) && connection.script == Tail(old(connection.script))
      ensures connection.log == old(connection.log) + [Exchange(Command.Peek(id), r)]
    {
      r := connection.Send(Command.Peek(id));
    }

    /** `next`: choose the tube when one is set, then peek at the next job of the given type. */
    method Next(kind: string, options: Options) returns (r: NextResult)
      requires connection != null
      modifies connection
      ensures var run := NextRun(old(connection.script), kind, options, Decoder());
              r == run.result && connection.script == run.rest && connection.log == old(connection.log) + run.log
    {
      var tube := NextTube(options);
      if Truthy(tube) {
        var chosen := Choose(tube);
        if !Succeeded(chosen) {
          return NextFalse;
        }
      }
      var job := connection.Send(PeekNext("peek" + Ucfirst(NextKind(kind, options))));
      if !job.Job? {
        return NextFalse;
      }
      r := PeekedJob(Decoder()(BodyText(job)), job.id);
    }

    /** `statistics`: job or tube statistics by loose comparison of the type, server statistics otherwise. */
    method Statistics(kind: Value, key: Value) returns (r: Answer)
      requires connection != null
      modifies connection
      ensures var s := old(connection.script);
              if LooseEqualsWord(kind, "job") then
                r == Head(s) && connection.script == Tail(s) && connection.log == old(connection.log) + [Exchange(StatsJob(key), r)]
              else if LooseEqualsWord(kind, "tube") && key != Null then
                r == Head(s) && connection.script == Tail(s) && connection.log == old(connection.log) + [Exchange(StatsTube(key), r)]
              else if LooseEqualsWord(kind, "tube") then
                var chosen := Head(s);
                var k := if chosen.Plain? then chosen.v else Null;
                r == Head(Tail(s)) && connection.script == Tail(Tail(s))
                && connection.log == old(connection.log) + [Exchange(ListTubeChosen, chosen), Exchange(StatsTube(k), r)]
              else
                r == Head(s) && connection.script == Tail(s) && connection.log == old(connection.log) + [Exchange(Command.Stats, r)]
    {
      if LooseEqualsWord(kind, "job") {
        r := connection.Send(StatsJob(key));
      } else if LooseEqualsWord(kind, "tube") {
        var k := key;
        if k == Null {
          var chosen := connection.Send(ListTubeChosen);
          k := if chosen.Plain? then chosen.v else Null;
        }
        r := connection.Send(StatsTube(k));
      } else {
        r := connection.Send(Command.Stats);
      }
    }

    /** `stats`: the connection's `stats`. */
    method Stats() returns (r: Answer)
      requires connection != null
      modifies connection
      ensures r == Head(old(connection.script)) && connection.script == Tail(old(connection.script))
      ensures connection.log == old(connection.log) + [Exchange(Command.Stats, r)]
    {
      r := connection.Send(Command.Stats);
    }
  }
}
