/**
 * The response parser of the beanstalk service: an ordered table of status
 * grammars, each tried as an unanchored regular-expression search over the
 * whole message; the first grammar that matches anywhere sets the fields.
 */
module Response {
  import opened Wrappers
  import opened Decimal
  import opened PhpValues
  import opened Wire

  // ---------------------------------------------------------------------
  // Grammars

  /** The named capture groups besides `status`. */
  datatype Field = IdField | TubeField | BytesField | CountField | DataField

  /**
   * One piece of a pattern after its status keyword:
   * `\s`, the literal `\r\n`, a group `(\d+)`, or a trailing group `(.+)`,
   * `(.*)` or, with the `/s` flag, `(.*)` that also crosses newlines.
   */
  datatype Element =
    | Space
    | Newline
    | Digits(field: Field)
    | Rest(field: Field, nonEmpty: bool, dotAll: bool)

  /** A pattern: its literal status keyword, then its elements. */
  datatype Grammar = Grammar(status: string, elements: seq<Element>)

  /** The response table, in the order the parser tries it. */
  const Table: seq<Grammar> := [
    Grammar("OUT_OF_MEMORY", []),
    Grammar("INTERNAL_ERROR", []),
    Grammar("BAD_FORMAT", []),
    Grammar("UNKNOWN_COMMAND", []),
    Grammar("INSERTED", [Space, Digits(IdField)]),
    Grammar("BURIED", [Space, Digits(IdField)]),
    Grammar("EXPECTED_CRLF", []),
    Grammar("JOB_TOO_BIG", []),
    Grammar("DRAINING", []),
    Grammar("USING", [Space, Rest(TubeField, true, false)]),
    Grammar("DEADLINE_SOON", []),
    Grammar("TIMED_OUT", []),
    Grammar("RESERVED", [Space, Digits(IdField), Space, Digits(BytesField), Newline, Rest(DataField, false, false)]),
    Grammar("DELETED", []),
    Grammar("NOT_FOUND", []),
    Grammar("RELEASED", []),
    Grammar("TOUCHED", []),
    Grammar("WATCHING", [Space, Digits(CountField)]),
    Grammar("NOT_IGNORED", []),
    Grammar("KICKED", [Space, Digits(CountField)]),
    Grammar("KICKED", []),
    Grammar("OK", [Space, Digits(BytesField), Newline, Rest(DataField, false, true)])
  ]

  /** The fields a grammar captures besides `status`. */
  function FieldsOf(els: seq<Element>): set<Field> {
    if els == [] then {}
    else (if els[0].Digits? || els[0].Rest? then {els[0].field} else {}) + FieldsOf(els[1..])
  }

  // ---------------------------------------------------------------------
  // Character classes of the patterns

  /** `\s`: space, tab, line feed, vertical tab, form feed, carriage return. */
  predicate IsWhite(c: char) {
    c == ' ' || c == '\t' || c == '\n' || c == '\r' || c as int == 11 || c as int == 12
  }

  /** The length of the run that `.` matches greedily from the start of `s`: all of it with `/s`, else up to the first line feed. */
  function DotRun(s: string, dotAll: bool): (k: nat)
    ensures k <= |s|
    ensures !dotAll ==> forall j :: 0 <= j < k ==> s[j] != '\n'
    ensures !dotAll && k < |s| ==> s[k] == '\n'
    ensures dotAll ==> k == |s|
  {
    if dotAll || s == [] || s[0] == '\n' then (if dotAll then |s| else 0)
    else 1 + DotRun(s[1..], dotAll)
  }

  // ---------------------------------------------------------------------
  // Matching

  /** What a successful match sets: the status and each named group it holds. */
  datatype Captures = Captures(
    status: Option<string>, id: Option<string>, tube: Option<string>,
    bytes: Option<string>, count: Option<string>, data: Option<string>)

  const NoCaptures := Captures(None, None, None, None, None, None)

  function Capture(c: Captures, f: Field): Option<string> {
    match f
    case IdField => c.id
    case TubeField => c.tube
    case BytesField => c.bytes
    case CountField => c.count
    case DataField => c.data
  }

  function SetCapture(c: Captures, f: Field, v: string): (r: Captures)
    ensures Capture(r, f) == Some(v) && r.status == c.status
    ensures forall g :: g != f ==> Capture(r, g) == Capture(c, g)
  {
    match f
    case IdField => c.(id := Some(v))
    case TubeField => c.(tube := Some(v))
    case BytesField => c.(bytes := Some(v))
    case CountField => c.(count := Some(v))
    case DataField => c.(data := Some(v))
  }

  /**
   * Matches `els` against `msg` from position `i`. Every quantifier of the
   * table is greedy and is followed by a character it cannot match (or by the
   * end of the pattern), so the greedy run is the only way to match.
   */
  function MatchElements(rest: string, els: seq<Element>, c: Captures): Option<Captures>
    decreases |els|
  {
    if els == [] then Some(c)
    else
      match els[0]
      case Space =>
        if |rest| > 0 && IsWhite(rest[0]) then MatchElements(rest[1..], els[1..], c) else None
      case Newline =>
        if |rest| >= 2 && rest[0] == '\r' && rest[1] == '\n' then MatchElements(rest[2..], els[1..], c) else None
      case Digits(f) =>
        var k := DigitRun(rest);
        if k == 0 then None else MatchElements(rest[k..], els[1..], SetCapture(c, f, rest[..k]))
      case Rest(f, nonEmpty, dotAll) =>
        var k := DotRun(rest, dotAll);
        if nonEmpty && k == 0 then None else MatchElements(rest[k..], els[1..], SetCapture(c, f, rest[..k]))
  }

  /** The match of grammar `g` starting exactly at position `i`. */
  function MatchAt(msg: string, i: nat, g: Grammar): (r: Option<Captures>)
    requires i <= |msg|
    ensures r.Some? ==> g.status <= msg[i..]
  {
    if g.status <= msg[i..]
    then MatchElements(msg[i + |g.status|..], g.elements, NoCaptures.(status := Some(g.status)))
    else None
  }

  /** The leftmost position from `i` on where `g` matches. */
  function Leftmost(msg: string, g: Grammar, i: nat): (r: Option<nat>)
    requires i <= |msg|
    ensures r.Some? ==> i <= r.value <= |msg| && MatchAt(msg, r.value, g).Some?
    ensures r.Some? ==> forall j :: i <= j < r.value ==> MatchAt(msg, j, g).None?
    ensures r.None? ==> forall j :: i <= j <= |msg| ==> MatchAt(msg, j, g).None?
    decreases |msg| - i
  {
    if MatchAt(msg, i, g).Some? then Some(i)
    else if i == |msg| then None
    else Leftmost(msg, g, i + 1)
  }

  /** `preg_match`: the captures of the leftmost match of `g` in `msg`. */
  function Search(msg: string, g: Grammar): (r: Option<Captures>)
    ensures r.None? <==> forall j :: 0 <= j <= |msg| ==> MatchAt(msg, j, g).None?
  {
    match Leftmost(msg, g, 0)
    case None => None
    case Some(j) => MatchAt(msg, j, g)
  }

  /** The `k`-th `preg_match` of the parse: entry `k` of the table searched in `msg`. */
  function Try(msg: string, k: nat): (r: Option<Captures>)
    requires k < |Table|
    ensures r.Some? ==> Occurs(Table[k].status, msg)
  {
    Search(msg, Table[k])
  }

  /** The first entry of the table, from `k` on, whose search succeeds, with its captures. */
  function FirstMatch(msg: string, k: nat): (r: Option<(nat, Captures)>)
    requires k <= |Table|
    ensures r.Some? ==> k <= r.value.0 < |Table| && Try(msg, r.value.0) == Some(r.value.1)
    ensures r.Some? ==> forall j :: k <= j < r.value.0 ==> Try(msg, j).None?
    ensures r.None? ==> forall j :: k <= j < |Table| ==> Try(msg, j).None?
    decreases |Table| - k
  {
    if k == |Table| then None
    else
      var m := Try(msg, k);
      if m.Some? then Some((k, m.value)) else FirstMatch(msg, k + 1)
  }

  // ---------------------------------------------------------------------
  // The parse

  /** What a parse leaves behind: the five fields it sets and the data it returns. */
  datatype Parsed = Parsed(
    id: Option<string>, status: Option<string>, tube: Option<string>,
    bytes: Option<string>, count: Option<string>, result: Option<string>)

  /** YAML decoding of the `OK` body is not available, so the body is returned unchanged. */
  function ParseYaml(data: Option<string>): Option<string> {
    data
  }

  /** Post-processing applies only to a status of `OK` with a positive byte count. */
  predicate DecodesBody(c: Captures) {
    c.status == Some("OK") && c.bytes.Some? && AllDigits(c.bytes.value) && ValueOf(c.bytes.value) > 0
  }

  /** `_parseResponse`: `None` when no grammar matches, which leaves the fields as they were. */
  function Parse(msg: string): (r: Option<Parsed>)
    ensures r.None? <==> forall j :: 0 <= j < |Table| ==> Try(msg, j).None?
  {
    match FirstMatch(msg, 0)
    case None => None
    case Some((_, c)) =>
      Some(Parsed(c.id, c.status, c.tube, c.bytes, c.count, if DecodesBody(c) then ParseYaml(c.data) else c.data))
  }

  // ---------------------------------------------------------------------
  // The object

  /** The parser object: the five fields a parse sets, and the data it returned. */
  class Response {
    var id: Option<string>
    var status: Option<string>
    var tube: Option<string>
    var bytes: Option<string>
    var count: Option<string>
    var data: Option<string>

    function State(): Parsed
      reads this
    {
      Parsed(id, status, tube, bytes, count, data)
    }

    /** Parses the configured `message`, and only when it is truthy. */
    constructor(config: Options)
      ensures State() == Constructed(config)
    {
      id, status, tube, bytes, count, data := None, None, None, None, None, None;
      new;
      var message := Get(config, "message");
      if Truthy(message) {
        data := ParseResponse(StrOf(message));
      }
    }

    /** Tries the table in order; the first grammar found anywhere in `message` sets the fields. */
    method ParseResponse(message: string) returns (r: Option<string>)
      modifies this
      ensures Parse(message).None? ==> r == None && State() == old(State())
      ensures Parse(message).Some? ==>
        var p := Parse(message);
        r == p.value.result && State() == p.value.(result := old(data))
    {
      for k := 0 to |Table|
        invariant forall j :: 0 <= j < k ==> Try(message, j).None?
        invariant State() == old(State())
      {
        var m := Search(message, Table[k]);
        if m.Some? {
          var c := m.value;
          id, status, tube, bytes, count := c.id, c.status, c.tube, c.bytes, c.count;
          var d := c.data;
          if DecodesBody(c) {
            d := ParseYaml(d);
          }
          FirstMatchAt(message, k);
          return d;
        }
      }
      return None;
    }
  }

  /** The state a `Response` is constructed in. */
  function Constructed(config: Options): Parsed {
    var message := Get(config, "message");
    var none := Parsed(None, None, None, None, None, None);
    if !Truthy(message) then none
    else match Parse(StrOf(message))
      case None => none
      case Some(p) => p
  }

  // ---------------------------------------------------------------------
  // Properties of the table and the search

  /** The first grammar is whichever matches when none before it does. */
  lemma FirstMatchAt(msg: string, k: nat)
    requires k < |Table| && Try(msg, k).Some?
    requires forall j :: 0 <= j < k ==> Try(msg, j).None?
    ensures FirstMatch(msg, 0) == Some((k, Try(msg, k).value))
  {
  }

  /** A grammar whose keyword holds a character (at position `p`) absent from the message matches nowhere in it. */
  lemma KeywordAbsent(msg: string, g: Grammar, p: nat)
    requires p < |g.status| && g.status[p] !in msg
    ensures Search(msg, g).None?
  {
  }

  /** A match sets the status it started with and exactly the groups its elements name. */
  lemma {:induction false} MatchedFields(rest: string, els: seq<Element>, c: Captures)
    requires MatchElements(rest, els, c).Some?
    ensures var m := MatchElements(rest, els, c).value;
            m.status == c.status
            && forall f :: Capture(m, f).Some? <==> Capture(c, f).Some? || f in FieldsOf(els)
    decreases |els|
  {
    if els != [] {
      assert FieldsOf(els) == (if els[0].Digits? || els[0].Rest? then {els[0].field} else {}) + FieldsOf(els[1..]);
      match els[0]
      case Space => MatchedFields(rest[1..], els[1..], c);
      case Newline => MatchedFields(rest[2..], els[1..], c);
      case Digits(f) =>
        var k := DigitRun(rest);
        MatchedFields(rest[k..], els[1..], SetCapture(c, f, rest[..k]));
      case Rest(f, nonEmpty, dotAll) =>
        var k := DotRun(rest, dotAll);
        MatchedFields(rest[k..], els[1..], SetCapture(c, f, rest[..k]));
    }
  }

  /** A successful search sets the grammar's keyword as status, and exactly the groups the grammar names. */
  lemma SearchFields(msg: string, g: Grammar)
    requires Search(msg, g).Some?
    ensures Search(msg, g).value.status == Some(g.status)
    ensures forall f :: Capture(Search(msg, g).value, f).Some? <==> f in FieldsOf(g.elements)
  {
    var j := Leftmost(msg, g, 0).value;
    MatchedFields(msg[j + |g.status|..], g.elements, NoCaptures.(status := Some(g.status)));
  }

  /**
   * A parse reports the status of the grammar that matched, and a field is
   * set exactly when that grammar names it; every other field is null.
   */
  lemma ParsedFields(msg: string)
    requires FirstMatch(msg, 0).Some?
    ensures var (k, c) := FirstMatch(msg, 0).value;
            c.status == Some(Table[k].status)
            && forall f :: Capture(c, f).Some? <==> f in FieldsOf(Table[k].elements)
  {
    var (k, c) := FirstMatch(msg, 0).value;
    SearchFields(msg, Table[k]);
  }

  // ---------------------------------------------------------------------
  // Replies the server sends, one by one

  /** A character a keyword of the table is made of: an uppercase ASCII letter or `_`. */
  predicate KeyChar(c: char) { 'A' <= c <= 'Z' || c == '_' }

  /** Text with no line feed. */
  predicate NoLF(s: string) { forall i :: 0 <= i < |s| ==> s[i] != '\n' }

  /** Every keyword character of `s` is one of `head`. */
  predicate KeysIn(s: string, head: set<char>) {
    forall i :: 0 <= i < |s| ==> KeyChar(s[i]) ==> s[i] in head
  }

  lemma KeysInConcat(a: string, b: string, head: set<char>)
    requires KeysIn(a, head) && KeysIn(b, head)
    ensures KeysIn(a + b, head)
  {
    forall i | 0 <= i < |a + b| && KeyChar((a + b)[i]) ensures (a + b)[i] in head {
      if i >= |a| { assert (a + b)[i] == b[i - |a|]; }
    }
  }

  /** No entry before `k` matches anywhere in `msg`. */
  predicate Passed(msg: string, k: nat)
    requires k <= |Table|
  {
    forall j :: 0 <= j < k ==> Try(msg, j).None?
  }

  /** An entry whose keyword holds a character the message lacks is passed over. */
  lemma Pass(msg: string, head: set<char>, k: nat, p: nat)
    requires KeysIn(msg, head) && k < |Table| && Passed(msg, k) && p < |Table[k].status|
    requires KeyChar(Table[k].status[p]) && Table[k].status[p] !in head
    ensures Passed(msg, k + 1)
  {
    KeywordAbsent(msg, Table[k], p);
  }

  /** An entry that matches nowhere is passed over. */
  lemma Skip(msg: string, k: nat)
    requires k < |Table| && Passed(msg, k) && Try(msg, k).None?
    ensures Passed(msg, k + 1)
  {
  }

  /** `w` occurs in `s`. */
  predicate Occurs(w: string, s: string) {
    exists i :: 0 <= i <= |s| && w <= s[i..]
  }

  /** No keyword of an entry before `k` occurs anywhere in `msg`. */
  predicate NoEarlierKeyword(msg: string, k: nat)
    requires k <= |Table|
  {
    forall j :: 0 <= j < k ==> !Occurs(Table[j].status, msg)
  }

  /** A grammar whose keyword does not occur in the message matches nowhere in it. */
  lemma Absent(msg: string, g: Grammar)
    requires !Occurs(g.status, msg)
    ensures Search(msg, g).None?
  {
  }

  /** Every entry before `k` is passed over when none of their keywords occurs in the message. */
  lemma Unclaimed(msg: string, k: nat)
    requires k <= |Table| && NoEarlierKeyword(msg, k)
    ensures Passed(msg, k)
  {
    forall j | 0 <= j < k ensures Try(msg, j).None? {
      Absent(msg, Table[j]);
    }
  }

  /** An entry that matches at the start of the message is taken there. */
  lemma Hit(msg: string, k: nat)
    requires k < |Table| && MatchAt(msg, 0, Table[k]).Some?
    ensures Try(msg, k) == MatchAt(msg, 0, Table[k])
  {
  }

  /** An entry with no elements after its keyword matches wherever the keyword occurs. */
  lemma Bare(msg: string, k: nat, i: nat)
    requires k < |Table| && Table[k].elements == [] && i <= |msg| && Table[k].status <= msg[i..]
    ensures Try(msg, k) == Some(NoCaptures.(status := Some(Table[k].status)))
  {
    assert MatchAt(msg, i, Table[k]).Some?;
  }

  /** The parse of a message whose first matching entry is `k`. */
  lemma ParseAt(msg: string, k: nat, c: Captures)
    requires k < |Table| && Passed(msg, k) && Try(msg, k) == Some(c)
    ensures Parse(msg) == Some(Parsed(c.id, c.status, c.tube, c.bytes, c.count,
                                      if DecodesBody(c) then ParseYaml(c.data) else c.data))
  {
    FirstMatchAt(msg, k);
  }

  /** A message no entry matches is not parsed. */
  lemma ParseNone(msg: string)
    requires Passed(msg, |Table|)
    ensures Parse(msg).None?
  {
  }

  /** A numbered grammar that matches finds a digit in the message. */
  lemma FoundDigit(msg: string, g: Grammar, f: Field) returns (i: nat)
    requires g.elements == [Space, Digits(f)] && Search(msg, g).Some?
    ensures i < |msg| && IsDigit(msg[i])
  {
    var j := Leftmost(msg, g, 0).value;
    var c0 := NoCaptures.(status := Some(g.status));
    var rest := msg[j + |g.status|..];
    assert MatchElements(rest, [Space, Digits(f)], c0).Some?;
    assert MatchElements(rest[1..], [Digits(f)], c0).Some?;
    i := j + |g.status| + 1;
    assert rest[1..][0] == msg[i];
  }

  /** A numbered grammar matches nowhere in a message without digits. */
  lemma NeedsDigits(msg: string, g: Grammar, f: Field)
    requires g.elements == [Space, Digits(f)] && forall i :: 0 <= i < |msg| ==> !IsDigit(msg[i])
    ensures Search(msg, g).None?
  {
    if Search(msg, g).Some? {
      var i := FoundDigit(msg, g, f);
    }
  }

  // One element at a time

  /** A grammar matches at the start of a message that begins with its keyword exactly when its elements match what follows. */
  lemma StartAt(kw: string, t: string, els: seq<Element>)
    ensures MatchAt(kw + t, 0, Grammar(kw, els)) == MatchElements(t, els, NoCaptures.(status := Some(kw)))
  {
    assert (kw + t)[0..] == kw + t;
    assert kw <= kw + t;
    assert (kw + t)[|kw|..] == t;
  }

  lemma EatSpace(t: string, els: seq<Element>, c: Captures)
    requires |els| > 0 && els[0] == Space
    ensures MatchElements(" " + t, els, c) == MatchElements(t, els[1..], c)
  {
    assert (" " + t)[1..] == t;
  }

  lemma EatNewline(t: string, els: seq<Element>, c: Captures)
    requires |els| > 0 && els[0] == Newline
    ensures MatchElements(CRLF + t, els, c) == MatchElements(t, els[1..], c)
  {
    assert (CRLF + t)[2..] == t;
  }

  lemma EatDigits(d: string, t: string, els: seq<Element>, c: Captures)
    requires |d| > 0 && AllDigits(d) && (t == [] || !IsDigit(t[0]))
    requires |els| > 0 && els[0].Digits?
    ensures MatchElements(d + t, els, c) == MatchElements(t, els[1..], SetCapture(c, els[0].field, d))
  {
    DigitRunOfDigits(d, t);
    assert (d + t)[..|d|] == d;
    assert (d + t)[|d|..] == t;
  }

  lemma {:induction false} LineRun(line: string, tail: string)
    requires NoLF(line) && (tail == [] || tail[0] == '\n')
    ensures DotRun(line + tail, false) == |line|
    decreases |line|
  {
    if line != [] {
      assert (line + tail)[1..] == line[1..] + tail;
      LineRun(line[1..], tail);
    }
  }

  lemma EatLine(line: string, t: string, els: seq<Element>, c: Captures)
    requires NoLF(line) && (t == [] || t[0] == '\n')
    requires |els| > 0 && els[0].Rest? && !els[0].dotAll && (els[0].nonEmpty ==> |line| > 0)
    ensures MatchElements(line + t, els, c) == MatchElements(t, els[1..], SetCapture(c, els[0].field, line))
  {
    LineRun(line, t);
    assert (line + t)[..|line|] == line;
    assert (line + t)[|line|..] == t;
  }

  lemma EatAll(t: string, els: seq<Element>, c: Captures)
    requires |els| == 1 && els[0].Rest? && els[0].dotAll && (els[0].nonEmpty ==> |t| > 0)
    ensures MatchElements(t, els, c) == Some(SetCapture(c, els[0].field, t))
  {
    assert t[..|t|] == t;
  }

  /** `kw\s(\d+)` matches a status word, a space, a digit run and CRLF, and captures the digits. */
  lemma NumberedAt(kw: string, f: Field, d: string)
    requires |d| > 0 && AllDigits(d)
    ensures MatchAt(kw + " " + d + CRLF, 0, Grammar(kw, [Space, Digits(f)]))
            == Some(SetCapture(NoCaptures.(status := Some(kw)), f, d))
  {
    var els: seq<Element> := [Space, Digits(f)];
    var c0 := NoCaptures.(status := Some(kw));
    assert kw + " " + d + CRLF == kw + (" " + (d + CRLF));
    StartAt(kw, " " + (d + CRLF), els);
    EatSpace(d + CRLF, els, c0);
    EatDigits(d, CRLF, els[1..], c0);
  }

  /** A numbered reply whose entry is the first to match sets the status and the one field the entry names. */
  lemma NumberedParse(kw: string, f: Field, d: string, k: nat)
    requires |d| > 0 && AllDigits(d) && kw != "OK"
    requires k < |Table| && Table[k] == Grammar(kw, [Space, Digits(f)]) && Passed(kw + " " + d + CRLF, k)
    ensures var c := SetCapture(NoCaptures.(status := Some(kw)), f, d);
            Parse(kw + " " + d + CRLF) == Some(Parsed(c.id, c.status, c.tube, c.bytes, c.count, c.data))
  {
    var msg := kw + " " + d + CRLF;
    var c := SetCapture(NoCaptures.(status := Some(kw)), f, d);
    NumberedAt(kw, f, d);
    Hit(msg, k);
    ParseAt(msg, k, c);
  }

  /** The keyword characters of a status word, a space, a digit run and a CRLF are those of the word. */
  lemma NumberedKeys(kw: string, d: string, head: set<char>)
    requires KeysIn(kw, head) && AllDigits(d)
    ensures KeysIn(kw + " " + d + CRLF, head)
  {
    assert KeysIn(" ", head) && KeysIn(d, head) && KeysIn(CRLF, head);
    KeysInConcat(kw, " ", head);
    KeysInConcat(kw + " ", d, head);
    KeysInConcat(kw + " " + d, CRLF, head);
  }

  // Passing over the entries before a reply's own: each holds a keyword character the reply lacks

  lemma Rows1()
    ensures Table[0] == Grammar("OUT_OF_MEMORY", [])
    ensures Table[1] == Grammar("INTERNAL_ERROR", [])
    ensures Table[2] == Grammar("BAD_FORMAT", [])
    ensures Table[3] == Grammar("UNKNOWN_COMMAND", [])
  {
  }

  lemma Rows2()
    ensures Table[4] == Grammar("INSERTED", [Space, Digits(IdField)])
    ensures Table[5] == Grammar("BURIED", [Space, Digits(IdField)])
    ensures Table[6] == Grammar("EXPECTED_CRLF", [])
    ensures Table[7] == Grammar("JOB_TOO_BIG", [])
  {
  }

  lemma Rows3()
    ensures Table[8] == Grammar("DRAINING", [])
    ensures Table[9] == Grammar("USING", [Space, Rest(TubeField, true, false)])
    ensures Table[10] == Grammar("DEADLINE_SOON", [])
    ensures Table[11] == Grammar("TIMED_OUT", [])
  {
  }

  lemma Rows4()
    ensures Table[12] == Grammar("RESERVED", [Space, Digits(IdField), Space, Digits(BytesField), Newline, Rest(DataField, false, false)])
    ensures Table[13] == Grammar("DELETED", [])
    ensures Table[14] == Grammar("NOT_FOUND", [])
    ensures Table[15] == Grammar("RELEASED", [])
    ensures Table[16] == Grammar("TOUCHED", [])
  {
  }

  lemma Rows5()
    ensures Table[17] == Grammar("WATCHING", [Space, Digits(CountField)])
    ensures Table[18] == Grammar("NOT_IGNORED", [])
    ensures Table[19] == Grammar("KICKED", [Space, Digits(CountField)])
    ensures Table[20] == Grammar("KICKED", [])
    ensures Table[21] == Grammar("OK", [Space, Digits(BytesField), Newline, Rest(DataField, false, true)])
  {
  }

  lemma InsertedPasses(msg: string)
    requires KeysIn(msg, {'D', 'E', 'I', 'N', 'R', 'S', 'T'}) && Passed(msg, 0)
    ensures Passed(msg, 4)
  {
    Rows1();
    Pass(msg, {'D', 'E', 'I', 'N', 'R', 'S', 'T'}, 0, 0);
    Pass(msg, {'D', 'E', 'I', 'N', 'R', 'S', 'T'}, 1, 6);
    Pass(msg, {'D', 'E', 'I', 'N', 'R', 'S', 'T'}, 2, 0);
    Pass(msg, {'D', 'E', 'I', 'N', 'R', 'S', 'T'}, 3, 0);
  }

  lemma BuriedPasses1(msg: string)
    requires KeysIn(msg, {'B', 'D', 'E', 'I', 'R', 'U'}) && Passed(msg, 0)
    ensures Passed(msg, 4)
  {
    Rows1();
    Pass(msg, {'B', 'D', 'E', 'I', 'R', 'U'}, 0, 0);
    Pass(msg, {'B', 'D', 'E', 'I', 'R', 'U'}, 1, 1);
    Pass(msg, {'B', 'D', 'E', 'I', 'R', 'U'}, 2, 1);
    Pass(msg, {'B', 'D', 'E', 'I', 'R', 'U'}, 3, 1);
  }

  lemma BuriedPasses2(msg: string)
    requires KeysIn(msg, {'B', 'D', 'E', 'I', 'R', 'U'}) && Passed(msg, 4)
    ensures Passed(msg, 5)
  {
    Rows2();
    Pass(msg, {'B', 'D', 'E', 'I', 'R', 'U'}, 4, 1);
  }

  lemma WatchingPasses1(msg: string)
    requires KeysIn(msg, {'A', 'C', 'G', 'H', 'I', 'N', 'T', 'W'}) && Passed(msg, 0)
    ensures Passed(msg, 4)
  {
    Rows1();
    Pass(msg, {'A', 'C', 'G', 'H', 'I', 'N', 'T', 'W'}, 0, 0);
    Pass(msg, {'A', 'C', 'G', 'H', 'I', 'N', 'T', 'W'}, 1, 3);
    Pass(msg, {'A', 'C', 'G', 'H', 'I', 'N', 'T', 'W'}, 2, 0);
    Pass(msg, {'A', 'C', 'G', 'H', 'I', 'N', 'T', 'W'}, 3, 0);
  }

  lemma WatchingPasses2(msg: string)
    requires KeysIn(msg, {'A', 'C', 'G', 'H', 'I', 'N', 'T', 'W'}) && Passed(msg, 4)
    ensures Passed(msg, 8)
  {
    Rows2();
    Pass(msg, {'A', 'C', 'G', 'H', 'I', 'N', 'T', 'W'}, 4, 2);
    Pass(msg, {'A', 'C', 'G', 'H', 'I', 'N', 'T', 'W'}, 5, 0);
    Pass(msg, {'A', 'C', 'G', 'H', 'I', 'N', 'T', 'W'}, 6, 0);
    Pass(msg, {'A', 'C', 'G', 'H', 'I', 'N', 'T', 'W'}, 7, 0);
  }

  lemma WatchingPasses3(msg: string)
    requires KeysIn(msg, {'A', 'C', 'G', 'H', 'I', 'N', 'T', 'W'}) && Passed(msg, 8)
    ensures Passed(msg, 12)
  {
    Rows3();
    Pass(msg, {'A', 'C', 'G', 'H', 'I', 'N', 'T', 'W'}, 8, 0);
    Pass(msg, {'A', 'C', 'G', 'H', 'I', 'N', 'T', 'W'}, 9, 0);
    Pass(msg, {'A', 'C', 'G', 'H', 'I', 'N', 'T', 'W'}, 10, 0);
    Pass(msg, {'A', 'C', 'G', 'H', 'I', 'N', 'T', 'W'}, 11, 2);
  }

  lemma WatchingPasses4(msg: string)
    requires KeysIn(msg, {'A', 'C', 'G', 'H', 'I', 'N', 'T', 'W'}) && Passed(msg, 12)
    ensures Passed(msg, 17)
  {
    Rows4();
    Pass(msg, {'A', 'C', 'G', 'H', 'I', 'N', 'T', 'W'}, 12, 0);
    Pass(msg, {'A', 'C', 'G', 'H', 'I', 'N', 'T', 'W'}, 13, 0);
    Pass(msg, {'A', 'C', 'G', 'H', 'I', 'N', 'T', 'W'}, 14, 1);
    Pass(msg, {'A', 'C', 'G', 'H', 'I', 'N', 'T', 'W'}, 15, 0);
    Pass(msg, {'A', 'C', 'G', 'H', 'I', 'N', 'T', 'W'}, 16, 1);
  }

  lemma KickedPasses1(msg: string)
    requires KeysIn(msg, {'C', 'D', 'E', 'I', 'K'}) && Passed(msg, 0)
    ensures Passed(msg, 4)
  {
    Rows1();
    Pass(msg, {'C', 'D', 'E', 'I', 'K'}, 0, 0);
    Pass(msg, {'C', 'D', 'E', 'I', 'K'}, 1, 1);
    Pass(msg, {'C', 'D', 'E', 'I', 'K'}, 2, 0);
    Pass(msg, {'C', 'D', 'E', 'I', 'K'}, 3, 0);
  }

  lemma KickedPasses2(msg: string)
    requires KeysIn(msg, {'C', 'D', 'E', 'I', 'K'}) && Passed(msg, 4)
    ensures Passed(msg, 8)
  {
    Rows2();
    Pass(msg, {'C', 'D', 'E', 'I', 'K'}, 4, 1);
    Pass(msg, {'C', 'D', 'E', 'I', 'K'}, 5, 0);
    Pass(msg, {'C', 'D', 'E', 'I', 'K'}, 6, 1);
    Pass(msg, {'C', 'D', 'E', 'I', 'K'}, 7, 0);
  }

  lemma KickedPasses3(msg: string)
    requires KeysIn(msg, {'C', 'D', 'E', 'I', 'K'}) && Passed(msg, 8)
    ensures Passed(msg, 12)
  {
    Rows3();
    Pass(msg, {'C', 'D', 'E', 'I', 'K'}, 8, 1);
    Pass(msg, {'C', 'D', 'E', 'I', 'K'}, 9, 0);
    Pass(msg, {'C', 'D', 'E', 'I', 'K'}, 10, 2);
    Pass(msg, {'C', 'D', 'E', 'I', 'K'}, 11, 0);
  }

  lemma KickedPasses4(msg: string)
    requires KeysIn(msg, {'C', 'D', 'E', 'I', 'K'}) && Passed(msg, 12)
    ensures Passed(msg, 17)
  {
    Rows4();
    Pass(msg, {'C', 'D', 'E', 'I', 'K'}, 12, 0);
    Pass(msg, {'C', 'D', 'E', 'I', 'K'}, 13, 2);
    Pass(msg, {'C', 'D', 'E', 'I', 'K'}, 14, 0);
    Pass(msg, {'C', 'D', 'E', 'I', 'K'}, 15, 0);
    Pass(msg, {'C', 'D', 'E', 'I', 'K'}, 16, 0);
  }

  lemma KickedPasses5(msg: string)
    requires KeysIn(msg, {'C', 'D', 'E', 'I', 'K'}) && Passed(msg, 17)
    ensures Passed(msg, 19)
  {
    Rows5();
    Pass(msg, {'C', 'D', 'E', 'I', 'K'}, 17, 0);
    Pass(msg, {'C', 'D', 'E', 'I', 'K'}, 18, 0);
  }

  lemma BuriedRestPasses1(msg: string)
    requires KeysIn(msg, {'B', 'D', 'E', 'I', 'R', 'U'}) && Passed(msg, 6)
    ensures Passed(msg, 8)
  {
    Rows2();
    Pass(msg, {'B', 'D', 'E', 'I', 'R', 'U'}, 6, 1);
    Pass(msg, {'B', 'D', 'E', 'I', 'R', 'U'}, 7, 0);
  }

  lemma BuriedRestPasses2(msg: string)
    requires KeysIn(msg, {'B', 'D', 'E', 'I', 'R', 'U'}) && Passed(msg, 8)
    ensures Passed(msg, 12)
  {
    Rows3();
    Pass(msg, {'B', 'D', 'E', 'I', 'R', 'U'}, 8, 2);
    Pass(msg, {'B', 'D', 'E', 'I', 'R', 'U'}, 9, 1);
    Pass(msg, {'B', 'D', 'E', 'I', 'R', 'U'}, 10, 2);
    Pass(msg, {'B', 'D', 'E', 'I', 'R', 'U'}, 11, 0);
  }

  lemma BuriedRestPasses3(msg: string)
    requires KeysIn(msg, {'B', 'D', 'E', 'I', 'R', 'U'}) && Passed(msg, 12)
    ensures Passed(msg, 17)
  {
    Rows4();
    Pass(msg, {'B', 'D', 'E', 'I', 'R', 'U'}, 12, 2);
    Pass(msg, {'B', 'D', 'E', 'I', 'R', 'U'}, 13, 2);
    Pass(msg, {'B', 'D', 'E', 'I', 'R', 'U'}, 14, 0);
    Pass(msg, {'B', 'D', 'E', 'I', 'R', 'U'}, 15, 2);
    Pass(msg, {'B', 'D', 'E', 'I', 'R', 'U'}, 16, 0);
  }

  lemma BuriedRestPasses4(msg: string)
    requires KeysIn(msg, {'B', 'D', 'E', 'I', 'R', 'U'}) && Passed(msg, 17)
    ensures Passed(msg, 22)
  {
    Rows5();
    Pass(msg, {'B', 'D', 'E', 'I', 'R', 'U'}, 17, 0);
    Pass(msg, {'B', 'D', 'E', 'I', 'R', 'U'}, 18, 0);
    Pass(msg, {'B', 'D', 'E', 'I', 'R', 'U'}, 19, 0);
    Pass(msg, {'B', 'D', 'E', 'I', 'R', 'U'}, 20, 0);
    Pass(msg, {'B', 'D', 'E', 'I', 'R', 'U'}, 21, 0);
  }

  lemma OverridePasses(msg: string)
    requires KeysIn(msg, {'A', 'B', 'D', 'E', 'F', 'M', 'O', 'R', 'S', 'T', 'V', '_'}) && Passed(msg, 0)
    ensures Passed(msg, 2)
  {
    Rows1();
    Pass(msg, {'A', 'B', 'D', 'E', 'F', 'M', 'O', 'R', 'S', 'T', 'V', '_'}, 0, 1);
    Pass(msg, {'A', 'B', 'D', 'E', 'F', 'M', 'O', 'R', 'S', 'T', 'V', '_'}, 1, 0);
  }

  // The replies

  /** `INSERTED <id>` sets the status and the id, and nothing else. */
  lemma Inserted(n: nat)
    ensures Parse("INSERTED " + FormatNat(n) + CRLF)
            == Some(Parsed(Some(FormatNat(n)), Some("INSERTED"), None, None, None, None))
  {
    var d := FormatNat(n);
    var msg := "INSERTED " + d + CRLF;
    var head := {'D', 'E', 'I', 'N', 'R', 'S', 'T'};
    assert msg == "INSERTED" + " " + d + CRLF;
    NumberedKeys("INSERTED", d, head);
    Rows2();
    assert Passed(msg, 0);
    InsertedPasses(msg);
    NumberedParse("INSERTED", IdField, d, 4);
  }

  /** `BURIED <id>`, the reply to a `put` the server could not queue, sets the status and the id. */
  lemma Buried(n: nat)
    ensures Parse("BURIED " + FormatNat(n) + CRLF)
            == Some(Parsed(Some(FormatNat(n)), Some("BURIED"), None, None, None, None))
  {
    var d := FormatNat(n);
    var msg := "BURIED " + d + CRLF;
    var head := {'B', 'D', 'E', 'I', 'R', 'U'};
    assert msg == "BURIED" + " " + d + CRLF;
    NumberedKeys("BURIED", d, head);
    Rows2();
    assert Passed(msg, 0);
    BuriedPasses1(msg);
    BuriedPasses2(msg);
    NumberedParse("BURIED", IdField, d, 5);
  }

  /** `WATCHING <count>` sets the status and the count, and nothing else. */
  lemma Watching(n: nat)
    ensures Parse("WATCHING " + FormatNat(n) + CRLF)
            == Some(Parsed(None, Some("WATCHING"), None, None, Some(FormatNat(n)), None))
  {
    var d := FormatNat(n);
    var msg := "WATCHING " + d + CRLF;
    var head := {'A', 'C', 'G', 'H', 'I', 'N', 'T', 'W'};
    assert msg == "WATCHING" + " " + d + CRLF;
    NumberedKeys("WATCHING", d, head);
    Rows5();
    assert Passed(msg, 0);
    WatchingPasses1(msg);
    WatchingPasses2(msg);
    WatchingPasses3(msg);
    WatchingPasses4(msg);
    NumberedParse("WATCHING", CountField, d, 17);
  }

  /** `KICKED <count>` is taken by the numbered entry, which sets the count. */
  lemma Kicked(n: nat)
    ensures Parse("KICKED " + FormatNat(n) + CRLF)
            == Some(Parsed(None, Some("KICKED"), None, None, Some(FormatNat(n)), None))
  {
    var d := FormatNat(n);
    var msg := "KICKED " + d + CRLF;
    var head := {'C', 'D', 'E', 'I', 'K'};
    assert msg == "KICKED" + " " + d + CRLF;
    NumberedKeys("KICKED", d, head);
    Rows5();
    assert Passed(msg, 0);
    KickedPasses1(msg);
    KickedPasses2(msg);
    KickedPasses3(msg);
    KickedPasses4(msg);
    KickedPasses5(msg);
    NumberedParse("KICKED", CountField, d, 19);
  }

  /** A bare `KICKED` passes over the numbered entry and is taken by the next one, with no count. */
  lemma KickedBare()
    ensures Parse("KICKED" + CRLF) == Some(Parsed(None, Some("KICKED"), None, None, None, None))
  {
    var msg := "KICKED" + CRLF;
    var head := {'C', 'D', 'E', 'I', 'K'};
    assert KeysIn(msg, head);
    Rows5();
    assert Passed(msg, 0);
    KickedPasses1(msg);
    KickedPasses2(msg);
    KickedPasses3(msg);
    KickedPasses4(msg);
    KickedPasses5(msg);
    NeedsDigits(msg, Table[19], CountField);
    Skip(msg, 19);
    StartAt("KICKED", CRLF, []);
    Hit(msg, 20);
    ParseAt(msg, 20, NoCaptures.(status := Some("KICKED")));
  }

  /** A bare `BURIED`, the reply to `bury`, matches no entry: the numbered one needs an id. */
  lemma BuriedBare()
    ensures Parse("BURIED" + CRLF).None?
  {
    var msg := "BURIED" + CRLF;
    var head := {'B', 'D', 'E', 'I', 'R', 'U'};
    assert KeysIn(msg, head);
    Rows2();
    assert Passed(msg, 0);
    BuriedPasses1(msg);
    BuriedPasses2(msg);
    NeedsDigits(msg, Table[5], IdField);
    Skip(msg, 5);
    BuriedRestPasses1(msg);
    BuriedRestPasses2(msg);
    BuriedRestPasses3(msg);
    BuriedRestPasses4(msg);
    ParseNone(msg);
  }

  /**
   * `USING <tube>` captures everything after the space up to the line feed,
   * so the captured tube keeps the carriage return of the CRLF.
   */
  lemma Using(tube: string)
    requires NoLF(tube) && NoEarlierKeyword("USING " + tube + CRLF, 9)
    ensures Parse("USING " + tube + CRLF)
            == Some(Parsed(None, Some("USING"), Some(tube + "\r"), None, None, None))
  {
    var msg := "USING " + tube + CRLF;
    var c := UsingAt(tube);
    Unclaimed(msg, 9);
    Rows3();
    Hit(msg, 9);
    ParseAt(msg, 9, c);
  }

  /** The match of `USING\s(.+)` at the start of a `USING` reply. */
  lemma UsingAt(tube: string) returns (c: Captures)
    requires NoLF(tube)
    ensures c == NoCaptures.(status := Some("USING"), tube := Some(tube + "\r"))
    ensures MatchAt("USING " + tube + CRLF, 0, Grammar("USING", [Space, Rest(TubeField, true, false)])) == Some(c)
  {
    var els := [Space, Rest(TubeField, true, false)];
    var c0 := NoCaptures.(status := Some("USING"));
    var line := tube + "\r";
    c := SetCapture(c0, TubeField, line);
    assert "USING " + tube + CRLF == "USING" + (" " + (line + "\n"));
    StartAt("USING", " " + (line + "\n"), els);
    EatSpace(line + "\n", els, c0);
    EatLine(line, "\n", els[1..], c0);
  }

  /** The `RESERVED` header line: id, byte count, CRLF. */
  function ReservedHead(id: nat, n: nat): string {
    "RESERVED " + FormatNat(id) + " " + FormatNat(n) + CRLF
  }

  /**
   * `RESERVED <id> <bytes>` followed by a body: `(.*)` stops at the first
   * line feed, so the data is the body's first line, carriage return
   * included, provided no keyword of an earlier entry occurs in the reply.
   */
  lemma Reserved(id: nat, n: nat, line: string, rest: string)
    requires NoLF(line) && (rest == [] || rest[0] == '\n')
    requires NoEarlierKeyword(ReservedHead(id, n) + line + rest, 12)
    ensures Parse(ReservedHead(id, n) + line + rest)
            == Some(Parsed(Some(FormatNat(id)), Some("RESERVED"), None, Some(FormatNat(n)), None, Some(line)))
  {
    var msg := ReservedHead(id, n) + line + rest;
    var c := ReservedAt(id, n, line, rest);
    Unclaimed(msg, 12);
    Rows4();
    Hit(msg, 12);
    assert !DecodesBody(c);
    ParseAt(msg, 12, c);
  }

  /** A job body of one line comes back with the carriage return of its terminating CRLF. */
  lemma ReservedJob(id: nat, body: string)
    requires NoLF(body) && NoEarlierKeyword(ReservedHead(id, |body|) + body + CRLF, 12)
    ensures var p := Parse(ReservedHead(id, |body|) + body + CRLF);
            p.Some? && p.value.status == Some("RESERVED") && p.value.result == Some(body + "\r")
  {
    assert ReservedHead(id, |body|) + body + CRLF == ReservedHead(id, |body|) + (body + "\r") + "\n";
    Reserved(id, |body|, body + "\r", "\n");
  }

  /** The match of the `RESERVED` grammar at the start of a `RESERVED` reply. */
  lemma ReservedAt(id: nat, n: nat, line: string, rest: string) returns (c: Captures)
    requires NoLF(line) && (rest == [] || rest[0] == '\n')
    ensures c == NoCaptures.(status := Some("RESERVED"), id := Some(FormatNat(id)), bytes := Some(FormatNat(n)), data := Some(line))
    ensures MatchAt(ReservedHead(id, n) + line + rest, 0,
                    Grammar("RESERVED", [Space, Digits(IdField), Space, Digits(BytesField), Newline, Rest(DataField, false, false)]))
            == Some(c)
  {
    var d1, d2 := FormatNat(id), FormatNat(n);
    var els := [Space, Digits(IdField), Space, Digits(BytesField), Newline, Rest(DataField, false, false)];
    var c0 := NoCaptures.(status := Some("RESERVED"));
    var c1 := SetCapture(c0, IdField, d1);
    c := SetCapture(SetCapture(c1, BytesField, d2), DataField, line);
    var t := " " + (d2 + (CRLF + (line + rest)));
    assert ReservedHead(id, n) + line + rest == "RESERVED" + (" " + (d1 + t));
    StartAt("RESERVED", " " + (d1 + t), els);
    EatSpace(d1 + t, els, c0);
    EatDigits(d1, t, els[1..], c0);
    assert els[2..] == [Space, Digits(BytesField), Newline, Rest(DataField, false, false)];
    ReservedTail(c1, d2, line, rest);
  }

  /** The rest of the `RESERVED` grammar: a space, the byte count, CRLF and the first line of the body. */
  lemma ReservedTail(c: Captures, d: string, line: string, rest: string)
    requires |d| > 0 && AllDigits(d) && NoLF(line) && (rest == [] || rest[0] == '\n')
    ensures MatchElements(" " + (d + (CRLF + (line + rest))), [Space, Digits(BytesField), Newline, Rest(DataField, false, false)], c)
            == Some(SetCapture(SetCapture(c, BytesField, d), DataField, line))
  {
    var els := [Space, Digits(BytesField), Newline, Rest(DataField, false, false)];
    var c1 := SetCapture(c, BytesField, d);
    EatSpace(d + (CRLF + (line + rest)), els, c);
    EatDigits(d, CRLF + (line + rest), els[1..], c);
    EatNewline(line + rest, els[2..], c1);
    EatLine(line, rest, els[3..], c1);
  }

  /**
   * `OK <bytes>` followed by a payload: with `/s` the data runs to the end
   * of the message, across line feeds, and comes back unchanged.
   */
  lemma Ok(n: nat, payload: string)
    requires NoEarlierKeyword("OK " + FormatNat(n) + CRLF + payload, 21)
    ensures Parse("OK " + FormatNat(n) + CRLF + payload)
            == Some(Parsed(None, Some("OK"), None, Some(FormatNat(n)), None, Some(payload)))
  {
    var msg := "OK " + FormatNat(n) + CRLF + payload;
    var c := OkAt(n, payload);
    Unclaimed(msg, 21);
    Rows5();
    Hit(msg, 21);
    ParseAt(msg, 21, c);
  }

  /** The match of the `OK` grammar at the start of an `OK` reply. */
  lemma OkAt(n: nat, payload: string) returns (c: Captures)
    ensures c == NoCaptures.(status := Some("OK"), bytes := Some(FormatNat(n)), data := Some(payload))
    ensures MatchAt("OK " + FormatNat(n) + CRLF + payload, 0,
                    Grammar("OK", [Space, Digits(BytesField), Newline, Rest(DataField, false, true)]))
            == Some(c)
  {
    var d := FormatNat(n);
    var els := [Space, Digits(BytesField), Newline, Rest(DataField, false, true)];
    var c0 := NoCaptures.(status := Some("OK"));
    var c1 := SetCapture(c0, BytesField, d);
    c := SetCapture(c1, DataField, payload);
    assert "OK " + d + CRLF + payload == "OK" + (" " + (d + (CRLF + payload)));
    StartAt("OK", " " + (d + (CRLF + payload)), els);
    EatSpace(d + (CRLF + payload), els, c0);
    EatDigits(d, CRLF + payload, els[1..], c0);
    EatNewline(payload, els[2..], c1);
    EatAll(payload, els[3..], c1);
  }

  /**
   * A job body that holds a keyword of an earlier entry decides the status:
   * the search is not anchored at the start of the message.
   */
  lemma BodyOverridesStatus()
    ensures Parse("RESERVED 1 10" + CRLF + "BAD_FORMAT" + CRLF)
            == Some(Parsed(None, Some("BAD_FORMAT"), None, None, None, None))
  {
    var msg := "RESERVED 1 10" + CRLF + "BAD_FORMAT" + CRLF;
    var head := {'A', 'B', 'D', 'E', 'F', 'M', 'O', 'R', 'S', 'T', 'V', '_'};
    assert KeysIn(msg, head);
    Rows1();
    assert Passed(msg, 0);
    OverridePasses(msg);
    assert msg[15..][..10] == "BAD_FORMAT";
    Bare(msg, 2, 15);
    ParseAt(msg, 2, NoCaptures.(status := Some("BAD_FORMAT")));
  }
}
