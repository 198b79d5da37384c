// The reply parser as evidently intended: every pattern anchored at the
// start of the reply (`/^.../`), and a bare `BURIED` entry listed after the
// numbered one, as the table already does for `KICKED`.

module Anchored {
  import opened Wrappers
  import opened Decimal
  import opened Wire
  import opened Response

  /** The `BURIED` reply of `release` and `bury`, which carries no id. */
  const BareBuried := Grammar("BURIED", [])

  /** The reply table with the bare `BURIED` entry after the numbered one. */
  const Fixed: seq<Grammar> := Table[..6] + [BareBuried] + Table[6..]

  lemma FixedEntry(k: nat)
    requires k < |Table| + 1
    ensures |Fixed| == |Table| + 1
    ensures Fixed[k] == if k < 6 then Table[k] else if k == 6 then BareBuried else Table[k - 1]
  {
  }

  /** The first entry from `k` on that matches at the very start of `msg`, with its captures. */
  function FirstAt(msg: string, k: nat): (r: Option<(nat, Captures)>)
    requires k <= |Fixed|
    ensures r.Some? ==> k <= r.value.0 < |Fixed| && MatchAt(msg, 0, Fixed[r.value.0]) == Some(r.value.1)
    ensures r.Some? ==> forall j :: k <= j < r.value.0 ==> MatchAt(msg, 0, Fixed[j]).None?
    ensures r.None? ==> forall j :: k <= j < |Fixed| ==> MatchAt(msg, 0, Fixed[j]).None?
    decreases |Fixed| - k
  {
    if k == |Fixed| then None
    else
      var m := MatchAt(msg, 0, Fixed[k]);
      if m.Some? then Some((k, m.value)) else FirstAt(msg, k + 1)
  }

  /** The corrected `_parseResponse`: as `Parse`, with anchored patterns over the fixed table. */
  function ParseAnchored(msg: string): Option<Parsed> {
    match FirstAt(msg, 0)
    case None => None
    case Some((_, c)) =>
      Some(Parsed(c.id, c.status, c.tube, c.bytes, c.count, if DecodesBody(c) then ParseYaml(c.data) else c.data))
  }

  /**
   * An anchored parse reads its status from the start of the reply: the
   * status is a prefix of the message, and the fields set are exactly those
   * the matching grammar names.
   */
  lemma AnchoredStatus(msg: string)
    requires FirstAt(msg, 0).Some?
    ensures var (k, c) := FirstAt(msg, 0).value;
            c.status == Some(Fixed[k].status) && Fixed[k].status <= msg
            && forall f :: Capture(c, f).Some? <==> f in FieldsOf(Fixed[k].elements)
  {
    var (k, c) := FirstAt(msg, 0).value;
    var g := Fixed[k];
    assert msg[0..] == msg;
    MatchedFields(msg[|g.status|..], g.elements, NoCaptures.(status := Some(g.status)));
  }

  /** No entry before `k` matches at the start of `msg`. */
  predicate Missed(msg: string, k: nat)
    requires k <= |Fixed|
  {
    forall j :: 0 <= j < k ==> MatchAt(msg, 0, Fixed[j]).None?
  }

  /** An entry whose keyword starts with another letter than the message is passed over. */
  lemma Miss(msg: string, k: nat)
    requires k < |Fixed| && Missed(msg, k)
    requires |msg| > 0 && |Fixed[k].status| > 0 && Fixed[k].status[0] != msg[0]
    ensures Missed(msg, k + 1)
  {
    assert msg[0..] == msg;
  }

  /** The parse of a message whose first anchored match is entry `k`. */
  lemma AnchoredAt(msg: string, k: nat, c: Captures)
    requires k < |Fixed| && Missed(msg, k) && MatchAt(msg, 0, Fixed[k]) == Some(c)
    ensures ParseAnchored(msg) == Some(Parsed(c.id, c.status, c.tube, c.bytes, c.count,
                                              if DecodesBody(c) then ParseYaml(c.data) else c.data))
  {
  }

  /** The ten entries before `RESERVED` whose keyword does not start with `R`, and `RESERVED` itself. */
  lemma MissedBeforeReserved(msg: string)
    requires |msg| > 0 && msg[0] == 'R'
    ensures Missed(msg, 13)
  {
    Rows1();
    Rows2();
    Rows3();
    Rows4();
    forall k | 0 <= k < 13 ensures MatchAt(msg, 0, Fixed[k]).None? {
      FixedEntry(k);
      assert msg[0..] == msg;
    }
  }

  /** The reply of the example below: job 1, whose ten-byte body is an earlier keyword. */
  function OverrideReply(): string {
    "RESERVED 1 10" + CRLF + "BAD_FORMAT" + CRLF
  }

  lemma OverrideReplyHead()
    ensures FormatNat(1) == "1" && FormatNat(10) == "10"
    ensures OverrideReply() == ReservedHead(1, 10) + "BAD_FORMAT\r" + "\n"
  {
    assert FormatNat(1) == "1";
    assert FormatNat(10) == FormatNat(1) + "0";
  }

  /**
   * With anchored patterns, every `RESERVED` reply is parsed as `RESERVED`
   * with its id and byte count, whatever its body holds; the data is the
   * body's first line.
   */
  lemma AnchoredReserved(id: nat, n: nat, line: string, rest: string)
    requires NoLF(line) && (rest == [] || rest[0] == '\n')
    ensures ParseAnchored(ReservedHead(id, n) + line + rest)
            == Some(Parsed(Some(FormatNat(id)), Some("RESERVED"), None, Some(FormatNat(n)), None, Some(line)))
  {
    var msg := ReservedHead(id, n) + line + rest;
    var c := ReservedAt(id, n, line, rest);
    Rows4();
    FixedEntry(13);
    MissedBeforeReserved(msg);
    AnchoredAt(msg, 13, c);
  }

  /** The reply the unanchored table misreads as `BAD_FORMAT` keeps its `RESERVED` status here. */
  lemma AnchoredOverrideReply()
    ensures ParseAnchored(OverrideReply())
            == Some(Parsed(Some("1"), Some("RESERVED"), None, Some("10"), None, Some("BAD_FORMAT\r")))
  {
    OverrideReplyHead();
    AnchoredReserved(1, 10, "BAD_FORMAT\r", "\n");
  }

  /** A bare `BURIED` is recognised, with no id. */
  lemma AnchoredBuried()
    ensures ParseAnchored("BURIED" + CRLF) == Some(Parsed(None, Some("BURIED"), None, None, None, None))
  {
    var msg := "BURIED" + CRLF;
    Rows1();
    Rows2();
    FixedEntry(0);
    FixedEntry(1);
    FixedEntry(2);
    FixedEntry(3);
    FixedEntry(4);
    FixedEntry(5);
    FixedEntry(6);
    assert Missed(msg, 0);
    Miss(msg, 0);
    Miss(msg, 1);
    assert msg[0..] == msg;
    assert !("BAD_FORMAT" <= msg);
    assert Missed(msg, 3);
    Miss(msg, 3);
    Miss(msg, 4);
    StartAt("BURIED", CRLF, [Space, Digits(IdField)]);
    assert Missed(msg, 6);
    StartAt("BURIED", CRLF, []);
    AnchoredAt(msg, 6, NoCaptures.(status := Some("BURIED")));
  }
}
