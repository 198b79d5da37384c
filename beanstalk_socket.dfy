/**
 * The socket command layer: one method per beanstalk command. Each writes a
 * command line, reads the status line the server answers with, splits it
 * with `strtok` on spaces and maps the status to a return value or to
 * `false`, logging the status in `errors`.
 *
 * The stream is a fake transport: `inbox` holds the bytes the server has
 * sent and not yet read, `outbox` every `fwrite` in order.
 */
module BeanstalkSocket {
  import opened Wrappers
  import opened Decimal
  import opened Wire
  import opened PhpValues

  /** The `stream_get_line` length limit of a status line. */
  const MaxLine: nat := 16384

  /** What `read` logs when the stream reports a time-out. */
  const TimedOutError: string := "Connection timed out."

  /** What one `read` leaves: the packet (`None` is PHP's `false`), the bytes still unread, and what it logged. */
  datatype Received = Received(packet: Option<string>, inbox: string, logged: seq<Option<string>>)

  /** A job as `reserve` and the peek family return it. */
  datatype Job = Job(id: int, body: Option<string>)

  /**
   * `stream_get_line($h, 16384, "\r\n")`: the text before the first CRLF,
   * which is consumed with it, when that CRLF lies within the first 16384
   * bytes; otherwise at most 16384 bytes. `None` at the end of the stream.
   */
  function GetLine(inbox: string): (r: (Option<string>, string))
    ensures r.0.None? <==> inbox == []
    ensures r.0.Some? ==> |r.0.value| <= MaxLine
    ensures r.0.Some? ==> inbox == r.0.value + CRLF + r.1 || inbox == r.0.value + r.1
  {
    if inbox == [] then (None, [])
    else
      var p := FindCRLF(inbox);
      if p < |inbox| && p + 2 <= MaxLine then
        assert inbox == inbox[..p] + CRLF + inbox[p + 2..];
        (Some(inbox[..p]), inbox[p + 2..])
      else
        var n := if |inbox| < MaxLine then |inbox| else MaxLine;
        assert inbox == inbox[..n] + inbox[n..];
        (Some(inbox[..n]), inbox[n..])
  }

  /** `fread($h, n)`: the first `n` bytes, or all there are; a length below 1 reads nothing. */
  function Fread(inbox: string, n: int): (r: (string, string))
    ensures r.0 + r.1 == inbox
    ensures |r.0| == if n <= 0 then 0 else if n < |inbox| then n else |inbox|
  {
    var k := if n <= 0 then 0 else if n < |inbox| then n else |inbox|;
    assert inbox == inbox[..k] + inbox[k..];
    (inbox[..k], inbox[k..])
  }

  /**
   * `read($length)`: nothing on a closed stream; a line when the length is
   * 0 (PHP's falsy length); otherwise `length + 2` bytes with every trailing
   * CR and LF stripped, `false` at the end of the stream, and `false` plus a
   * logged error when the stream timed out.
   */
  function Receive(open: bool, timedOut: bool, inbox: string, length: int): Received {
    if !open then Received(None, inbox, [])
    else if length == 0 then
      var (line, rest) := GetLine(inbox);
      Received(line, rest, [])
    else if inbox == [] then Received(None, inbox, [])
    else
      var (data, rest) := Fread(inbox, length + 2);
      if timedOut then Received(None, rest, [Some(TimedOutError)])
      else Received(Some(TrimLineEnds(data)), rest, [])
  }

  /**
   * A read only consumes: what is left is a suffix of the stream. Only a
   * timed-out length read on an open stream logs, and it answers `false`;
   * a length read strips every trailing CR and LF.
   */
  lemma ReceiveConsumes(open: bool, timedOut: bool, inbox: string, length: int)
    ensures var r := Receive(open, timedOut, inbox, length);
            && |r.inbox| <= |inbox| && r.inbox == inbox[|inbox| - |r.inbox|..]
            && (r.logged != [] ==> open && timedOut && length != 0 && r.packet.None?)
            && (length != 0 && r.packet.Some? ==> r.packet.value == [] || !IsLineEnd(r.packet.value[|r.packet.value| - 1]))
  {
  }

  /** `(integer)strtok(' ')`: the integer cast of a token, 0 for `false`. */
  function IntTok(t: Option<string>): int {
    if t.None? then 0 else LeadingInt(t.value)
  }

  /** What an open stream's `fwrite` calls leave in the outbox: each line with its CRLF. */
  function Framed(open: bool, line: string): seq<string> {
    if open then [line + CRLF] else []
  }

  // ---------------------------------------------------------------------
  // Reading replies back

  /** A status line shorter than the limit is read whole and its CRLF consumed. */
  lemma ReadsLine(line: string, rest: string, timedOut: bool)
    requires NoCR(line) && |line| + 2 <= MaxLine
    ensures Receive(true, timedOut, line + CRLF + rest, 0) == Received(Some(line), rest, [])
  {
    var s := line + CRLF + rest;
    FindCRLFAfter(line, rest);
    assert s[..|line|] == line;
    assert s[|line| + 2..] == rest;
  }

  /** A line with no CRLF among its first 16385 bytes is cut after 16384 of them. */
  lemma CutsLongLine(s: string)
    requires |s| > MaxLine && NoCR(s[..MaxLine])
    ensures GetLine(s) == (Some(s[..MaxLine]), s[MaxLine..])
  {
  }

  /** An empty body with its CRLF is read as an empty line: a length of 0 is falsy. */
  lemma ReadsEmptyBody(rest: string)
    ensures Receive(true, false, CRLF + rest, 0) == Received(Some(""), rest, [])
  {
    assert CRLF + rest == "" + CRLF + rest;
    ReadsLine("", rest, false);
  }

  /** A non-empty body is read with its CRLF by `fread`. */
  lemma ReadsSizedBody(body: string, rest: string)
    requires body != []
    ensures Receive(true, false, body + CRLF + rest, |body|) == Received(Some(TrimLineEnds(body + CRLF)), rest, [])
  {
    var s := body + CRLF + rest;
    assert s[..|body| + 2] == body + CRLF;
    assert s[|body| + 2..] == rest;
    assert Fread(s, |body| + 2) == (body + CRLF, rest);
  }

  /**
   * A body read by its declared length consumes the body and its CRLF, and
   * returns it with trailing CR and LF stripped; it comes back intact
   * exactly when it does not itself end in CR or LF.
   */
  lemma ReadsBody(body: string, rest: string)
    ensures Receive(true, false, body + CRLF + rest, |body|) == Received(Some(TrimLineEnds(body + CRLF)), rest, [])
    ensures TrimLineEnds(body + CRLF) == body <==> body == [] || !IsLineEnd(body[|body| - 1])
  {
    TrimTerminator(body);
    if body == [] {
      assert body + CRLF + rest == CRLF + rest;
      ReadsEmptyBody(rest);
    } else {
      ReadsSizedBody(body, rest);
    }
  }

  /** A timed-out length read returns `false`, logs one error and still consumes the bytes. */
  lemma TimedOutRead(inbox: string, length: int)
    requires inbox != [] && length != 0
    ensures var x := Receive(true, true, inbox, length);
            x.packet == None && x.logged == [Some(TimedOutError)] && |x.inbox| <= |inbox|
  {
  }

  /** `<word> <n>` splits into the word and the number. */
  lemma NumberTokens(word: string, n: int)
    requires IsWord(word)
    ensures var line := Some(word + " " + FormatInt(n));
            TokenAt(line, 0) == Some(word) && IntTok(TokenAt(line, 1)) == n
  {
    FormatIntIsWord(n);
    Unwords2(word, FormatInt(n));
    CommandLine([word, FormatInt(n)]);
    LeadingIntFormat(n, []);
    assert FormatInt(n) + [] == FormatInt(n);
  }

  /** A numbered reply line is read and split into its word and its number. */
  lemma NumberReply(word: string, n: int, rest: string)
    requires IsWord(word) && |word| + |FormatInt(n)| + 3 <= MaxLine
    ensures var x := Receive(true, false, word + " " + FormatInt(n) + CRLF + rest, 0);
            x.inbox == rest && x.logged == []
            && TokenAt(x.packet, 0) == Some(word) && IntTok(TokenAt(x.packet, 1)) == n
  {
    FormatIntIsWord(n);
    Unwords2(word, FormatInt(n));
    UnwordsNoCR([word, FormatInt(n)]);
    ReadsLine(word + " " + FormatInt(n), rest, false);
    NumberTokens(word, n);
  }

  /** `USING <tube>` gives the tube back as the second token when the name is one word. */
  lemma UsingReply(tube: string, rest: string)
    requires IsWord(tube) && |tube| + 8 <= MaxLine
    ensures var x := Receive(true, false, "USING " + tube + CRLF + rest, 0);
            x.inbox == rest && TokenAt(x.packet, 0) == Some("USING") && TokenAt(x.packet, 1) == Some(tube)
  {
    assert IsWord("USING");
    Unwords2("USING", tube);
    assert "USING" + " " + tube == "USING " + tube;
    CommandLine(["USING", tube]);
    ReadsLine("USING " + tube, rest, false);
  }

  lemma {:induction false} TokensHaveNoSpace(s: string)
    ensures forall i :: 0 <= i < |Tokens(s)| ==> NoSpace(Tokens(s)[i])
    decreases |s|
  {
    var (t, rest) := NextToken(s);
    if t.Some? {
      TokensHaveNoSpace(rest);
      assert Tokens(s) == [t.value] + Tokens(rest);
    }
  }

  /** A tube whose name holds a space never comes back as one token, so `choose` of it fails. */
  lemma SpacedTubeNeverEchoed(line: Option<string>, tube: string)
    requires !NoSpace(tube)
    ensures TokenValue(TokenAt(line, 1)) != Str(tube)
  {
    if line.Some? {
      TokensHaveNoSpace(line.value);
    }
  }

  /** What `strtok` returns, as a PHP value: the token, or `false`. */
  function TokenValue(t: Option<string>): Value {
    if t.Some? then Str(t.value) else Bool(false)
  }

  /**
   * `strtok(' ') === $tube` is never true for a tube that is not a string,
   * except `false`, which is identical to the `false` of a missing token;
   * an integer tube the server echoes is still not chosen.
   */
  lemma NonStringTubeNeverEchoed(line: Option<string>, tube: Value)
    requires !tube.Str?
    ensures TokenValue(TokenAt(line, 1)) == tube <==> tube == Bool(false) && TokenAt(line, 1).None?
  {
  }

  /** The reply `USING 5` to `use 5` does not choose the integer tube 5. */
  lemma EchoedIntegerNotChosen(rest: string)
    ensures var x := Receive(true, false, "USING 5" + CRLF + rest, 0);
            StrOf(Int(5)) == "5" && TokenAt(x.packet, 0) == Some("USING")
            && TokenAt(x.packet, 1) == Some("5") && TokenValue(TokenAt(x.packet, 1)) != Int(5)
  {
    assert StrOf(Int(5)) == "5" by {
      assert FormatNat(5) == "5";
    }
    assert IsWord("5") by {
      assert NoSpace("5") && NoCR("5");
    }
    UsingReply("5", rest);
    assert "USING " + "5" + CRLF + rest == "USING 5" + CRLF + rest;
  }

  /**
   * A job reply `<word> <id> <bytes>`, CRLF, the body and CRLF: the line
   * carries the word, the id and the body's length, and the body read by
   * that length consumes exactly the rest of the reply.
   */
  lemma JobReply(word: string, id: int, body: string, rest: string)
    requires IsWord(word) && |word| + |FormatInt(id)| + |FormatInt(|body|)| + 4 <= MaxLine
    ensures var x := Receive(true, false, word + " " + FormatInt(id) + " " + FormatInt(|body|) + CRLF + body + CRLF + rest, 0);
            var line := x.packet;
            TokenAt(line, 0) == Some(word) && IntTok(TokenAt(line, 1)) == id && IntTok(TokenAt(line, 2)) == |body|
            && Receive(true, false, x.inbox, IntTok(TokenAt(line, 2))) == Received(Some(TrimLineEnds(body + CRLF)), rest, [])
  {
    var words := [word, FormatInt(id), FormatInt(|body|)];
    FormatIntIsWord(id);
    FormatIntIsWord(|body|);
    Unwords3(word, FormatInt(id), FormatInt(|body|));
    CommandLine(words);
    var head := Unwords(words);
    assert head + CRLF + body + CRLF + rest == head + CRLF + (body + CRLF + rest);
    ReadsLine(head, body + CRLF + rest, false);
    LeadingIntFormat(id, []);
    LeadingIntFormat(|body|, []);
    assert FormatInt(id) + [] == FormatInt(id);
    assert FormatInt(|body|) + [] == FormatInt(|body|);
    ReadsBody(body, rest);
  }

  // ---------------------------------------------------------------------
  // The adapter

  class Beanstalk {
    /** `is_resource($this->_resource)`. */
    var open: bool
    /** The `timed_out` flag `stream_get_meta_data` reports. */
    var timedOut: bool
    /** The bytes the server has sent and that have not been read. */
    var inbox: string
    /** Every `fwrite`, in order. */
    var outbox: seq<string>
    /** `_errors`; `None` is a `false` status. */
    var errors: seq<Option<string>>

    /** A socket over a stream that is open or not, with the server's bytes waiting. */
    constructor(open: bool, timedOut: bool, inbox: string)
      ensures this.open == open && this.timedOut == timedOut && this.inbox == inbox
      ensures outbox == [] && errors == []
    {
      this.open, this.timedOut, this.inbox := open, timedOut, inbox;
      outbox, errors := [], [];
    }

    /** `read($length)`. */
    method Read(length: int) returns (r: Option<string>)
      modifies this
      ensures open == old(open) && timedOut == old(timedOut) && outbox == old(outbox)
      ensures var x := Receive(open, timedOut, old(inbox), length);
              r == x.packet && inbox == x.inbox && errors == old(errors) + x.logged
    {
      ghost var x := Receive(open, timedOut, inbox, length);
      assert errors + [] == errors;
      if !open {
        assert x == Received(None, inbox, []);
        return None;
      }
      if length != 0 {
        if inbox == [] {
          assert x == Received(None, inbox, []);
          return None;
        }
        var (data, rest) := Fread(inbox, length + 2);
        assert x == if timedOut then Received(None, rest, [Some(TimedOutError)]) else Received(Some(TrimLineEnds(data)), rest, []);
        inbox := rest;
        if timedOut {
          errors := errors + [Some(TimedOutError)];
          return None;
        }
        r := Some(TrimLineEnds(data));
      } else {
        var (line, rest) := GetLine(inbox);
        assert x == Received(line, rest, []);
        inbox := rest;
        r := line;
      }
    }

    /** `write($data)`: sends the data and a CRLF, and answers the byte count; `false` on a closed stream. */
    method Write(data: string) returns (r: Option<nat>)
      modifies this
      ensures open == old(open) && timedOut == old(timedOut) && inbox == old(inbox) && errors == old(errors)
      ensures outbox == old(outbox) + Framed(open, data)
      ensures r == if open then Some(|data| + 2) else None
    {
      if !open {
        return None;
      }
      outbox := outbox + [data + CRLF];
      r := Some(|data| + 2);
    }

    /** Sends a command line and reads the status line that answers it. */
    method Exchange(line: string) returns (reply: Option<string>)
      modifies this
      ensures open == old(open) && timedOut == old(timedOut) && errors == old(errors)
      ensures outbox == old(outbox) + Framed(open, line)
      ensures var x := Receive(open, timedOut, old(inbox), 0);
              reply == x.packet && inbox == x.inbox
    {
      var _ := Write(line);
      reply := Read(0);
    }

    /** `put`: the id on `INSERTED` or `BURIED`; otherwise `false`, logging the status. */
    method Put(priority: int, delay: int, timeout: int, data: string) returns (r: Option<int>)
      modifies this
      ensures open == old(open) && timedOut == old(timedOut)
      ensures outbox == old(outbox)
                        + Framed(open, "put " + FormatInt(priority) + " " + FormatInt(delay) + " " + FormatInt(timeout) + " " + FormatInt(|data|))
                        + Framed(open, data)
      ensures var x := Receive(open, timedOut, old(inbox), 0);
              var status := TokenAt(x.packet, 0);
              var ok := status == Some("INSERTED") || status == Some("BURIED");
              inbox == x.inbox
              && r == (if ok then Some(IntTok(TokenAt(x.packet, 1))) else None)
              && errors == old(errors) + (if ok then [] else [status])
    {
      var _ := Write("put " + FormatInt(priority) + " " + FormatInt(delay) + " " + FormatInt(timeout) + " " + FormatInt(|data|));
      var line := Exchange(data);
      var status := TokenAt(line, 0);
      if status == Some("INSERTED") || status == Some("BURIED") {
        return Some(IntTok(TokenAt(line, 1)));
      }
      errors := errors + [status];
      return None;
    }

    /**
     * `choose` (`use`): the tube is written with `%s`, and the call is true
     * only when the second token of a `USING` line is identical (`===`) to
     * the tube; a `USING` of anything else is `false` and logs nothing.
     */
    method Choose(tube: Value) returns (r: bool)
      modifies this
      ensures open == old(open) && timedOut == old(timedOut)
      ensures outbox == old(outbox) + Framed(open, "use " + StrOf(tube))
      ensures var x := Receive(open, timedOut, old(inbox), 0);
              var status := TokenAt(x.packet, 0);
              inbox == x.inbox
              && r == (status == Some("USING") && TokenValue(TokenAt(x.packet, 1)) == tube)
              && errors == old(errors) + (if status == Some("USING") then [] else [status])
    {
      var line := Exchange("use " + StrOf(tube));
      var status := TokenAt(line, 0);
      if status == Some("USING") {
        return TokenValue(TokenAt(line, 1)) == tube;
      }
      errors := errors + [status];
      return false;
    }

    /** `useTube`: another name for `choose`. */
    method UseTube(tube: Value) returns (r: bool)
      modifies this
      ensures open == old(open) && timedOut == old(timedOut)
      ensures outbox == old(outbox) + Framed(open, "use " + StrOf(tube))
      ensures var x := Receive(open, timedOut, old(inbox), 0);
              var status := TokenAt(x.packet, 0);
              inbox == x.inbox
              && r == (status == Some("USING") && TokenValue(TokenAt(x.packet, 1)) == tube)
              && errors == old(errors) + (if status == Some("USING") then [] else [status])
    {
      r := Choose(tube);
    }

    /**
     * Reads a job reply: the status line, and on `word` the body by the
     * length the line declares; any other status is `false` and logged.
     * This is `_peekRead` for `FOUND` and the reply half of `reserve` for
     * `RESERVED`.
     */
    method ReadJob(word: string) returns (r: Option<Job>)
      modifies this
      ensures open == old(open) && timedOut == old(timedOut) && outbox == old(outbox)
      ensures var x := Receive(open, timedOut, old(inbox), 0);
              var status := TokenAt(x.packet, 0);
              if status == Some(word) then
                var y := Receive(open, timedOut, x.inbox, IntTok(TokenAt(x.packet, 2)));
                r == Some(Job(IntTok(TokenAt(x.packet, 1)), y.packet)) && inbox == y.inbox && errors == old(errors) + y.logged
              else
                r == None && inbox == x.inbox && errors == old(errors) + [status]
    {
      var line := Read(0);
      ReceiveConsumes(open, timedOut, old(inbox), 0);
      assert errors == old(errors);
      var status := TokenAt(line, 0);
      if status == Some(word) {
        var id := IntTok(TokenAt(line, 1));
        var body := Read(IntTok(TokenAt(line, 2)));
        return Some(Job(id, body));
      }
      errors := errors + [status];
      return None;
    }

    /** `reserve`: `reserve-with-timeout <t>` when a timeout is given, `reserve` otherwise; the job on `RESERVED`. */
    method Reserve(timeout: Option<int>) returns (r: Option<Job>)
      modifies this
      ensures open == old(open) && timedOut == old(timedOut)
      ensures outbox == old(outbox) + Framed(open, if timeout.Some? then "reserve-with-timeout " + FormatInt(timeout.value) else "reserve")
      ensures var x := Receive(open, timedOut, old(inbox), 0);
              var status := TokenAt(x.packet, 0);
              if status == Some("RESERVED") then
                var y := Receive(open, timedOut, x.inbox, IntTok(TokenAt(x.packet, 2)));
                r == Some(Job(IntTok(TokenAt(x.packet, 1)), y.packet)) && inbox == y.inbox && errors == old(errors) + y.logged
              else
                r == None && inbox == x.inbox && errors == old(errors) + [status]
    {
      if timeout.Some? {
        var _ := Write("reserve-with-timeout " + FormatInt(timeout.value));
      } else {
        var _ := Write("reserve");
      }
      r := ReadJob("RESERVED");
    }

    /** A command whose whole status line is compared with the words that mean success. */
    method Confirm(line: string, success: set<string>) returns (r: bool)
      modifies this
      ensures open == old(open) && timedOut == old(timedOut)
      ensures outbox == old(outbox) + Framed(open, line)
      ensures var x := Receive(open, timedOut, old(inbox), 0);
              inbox == x.inbox
              && r == (x.packet.Some? && x.packet.value in success)
              && errors == old(errors) + (if r then [] else [x.packet])
    {
      var status := Exchange(line);
      if status.Some? && status.value in success {
        return true;
      }
      errors := errors + [status];
      return false;
    }

    /** `delete`: true on `DELETED`. */
    method Delete(id: int) returns (r: bool)
      modifies this
      ensures open == old(open) && timedOut == old(timedOut)
      ensures outbox == old(outbox) + Framed(open, "delete " + FormatInt(id))
      ensures var x := Receive(open, timedOut, old(inbox), 0);
              inbox == x.inbox && r == (x.packet == Some("DELETED"))
              && errors == old(errors) + (if r then [] else [x.packet])
    {
      r := Confirm("delete " + FormatInt(id), {"DELETED"});
    }

    /** `release`: true on `RELEASED` or `BURIED`. */
    method Release(id: int, pri: int, delay: int) returns (r: bool)
      modifies this
      ensures open == old(open) && timedOut == old(timedOut)
      ensures outbox == old(outbox) + Framed(open, "release " + FormatInt(id) + " " + FormatInt(pri) + " " + FormatInt(delay))
      ensures var x := Receive(open, timedOut, old(inbox), 0);
              inbox == x.inbox && r == (x.packet == Some("RELEASED") || x.packet == Some("BURIED"))
              && errors == old(errors) + (if r then [] else [x.packet])
    {
      r := Confirm("release " + FormatInt(id) + " " + FormatInt(pri) + " " + FormatInt(delay), {"RELEASED", "BURIED"});
    }

    /** `bury`: true on `BURIED`. */
    method Bury(id: int, pri: int) returns (r: bool)
      modifies this
      ensures open == old(open) && timedOut == old(timedOut)
      ensures outbox == old(outbox) + Framed(open, "bury " + FormatInt(id) + " " + FormatInt(pri))
      ensures var x := Receive(open, timedOut, old(inbox), 0);
              inbox == x.inbox && r == (x.packet == Some("BURIED"))
              && errors == old(errors) + (if r then [] else [x.packet])
    {
      r := Confirm("bury " + FormatInt(id) + " " + FormatInt(pri), {"BURIED"});
    }

    /** `touch`: true on `TOUCHED`. */
    method Touch(id: int) returns (r: bool)
      modifies this
      ensures open == old(open) && timedOut == old(timedOut)
      ensures outbox == old(outbox) + Framed(open, "touch " + FormatInt(id))
      ensures var x := Receive(open, timedOut, old(inbox), 0);
              inbox == x.inbox && r == (x.packet == Some("TOUCHED"))
              && errors == old(errors) + (if r then [] else [x.packet])
    {
      r := Confirm("touch " + FormatInt(id), {"TOUCHED"});
    }

    /** A command answered by `<word> <n>`: the number on `word`, otherwise `false` with the status logged. */
    method Count(line: string, word: string) returns (r: Option<int>)
      modifies this
      ensures open == old(open) && timedOut == old(timedOut)
      ensures outbox == old(outbox) + Framed(open, line)
      ensures var x := Receive(open, timedOut, old(inbox), 0);
              var status := TokenAt(x.packet, 0);
              inbox == x.inbox
              && r == (if status == Some(word) then Some(IntTok(TokenAt(x.packet, 1))) else None)
              && errors == old(errors) + (if status == Some(word) then [] else [status])
    {
      var reply := Exchange(line);
      var status := TokenAt(reply, 0);
      if status == Some(word) {
        return Some(IntTok(TokenAt(reply, 1)));
      }
      errors := errors + [status];
      return None;
    }

    /** `watch`: the number of watched tubes on `WATCHING`. */
    method Watch(tube: string) returns (r: Option<int>)
      modifies this
      ensures open == old(open) && timedOut == old(timedOut)
      ensures outbox == old(outbox) + Framed(open, "watch " + tube)
      ensures var x := Receive(open, timedOut, old(inbox), 0);
              var status := TokenAt(x.packet, 0);
              inbox == x.inbox
              && r == (if status == Some("WATCHING") then Some(IntTok(TokenAt(x.packet, 1))) else None)
              && errors == old(errors) + (if status == Some("WATCHING") then [] else [status])
    {
      r := Count("watch " + tube, "WATCHING");
    }

    /** `ignore`: the number of watched tubes on `WATCHING`. */
    method Ignore(tube: string) returns (r: Option<int>)
      modifies this
      ensures open == old(open) && timedOut == old(timedOut)
      ensures outbox == old(outbox) + Framed(open, "ignore " + tube)
      ensures var x := Receive(open, timedOut, old(inbox), 0);
              var status := TokenAt(x.packet, 0);
              inbox == x.inbox
              && r == (if status == Some("WATCHING") then Some(IntTok(TokenAt(x.packet, 1))) else None)
              && errors == old(errors) + (if status == Some("WATCHING") then [] else [status])
    {
      r := Count("ignore " + tube, "WATCHING");
    }

    /** `kick`: the number of jobs kicked on `KICKED`. */
    method Kick(bound: int) returns (r: Option<int>)
      modifies this
      ensures open == old(open) && timedOut == old(timedOut)
      ensures outbox == old(outbox) + Framed(open, "kick " + FormatInt(bound))
      ensures var x := Receive(open, timedOut, old(inbox), 0);
              var status := TokenAt(x.packet, 0);
              inbox == x.inbox
              && r == (if status == Some("KICKED") then Some(IntTok(TokenAt(x.packet, 1))) else None)
              && errors == old(errors) + (if status == Some("KICKED") then [] else [status])
    {
      r := Count("kick " + FormatInt(bound), "KICKED");
    }

    /** The peek family: sends `line`, then reads a `FOUND` job. */
    method PeekWith(line: string) returns (r: Option<Job>)
      modifies this
      ensures open == old(open) && timedOut == old(timedOut)
      ensures outbox == old(outbox) + Framed(open, line)
      ensures var x := Receive(open, timedOut, old(inbox), 0);
              var status := TokenAt(x.packet, 0);
              if status == Some("FOUND") then
                var y := Receive(open, timedOut, x.inbox, IntTok(TokenAt(x.packet, 2)));
                r == Some(Job(IntTok(TokenAt(x.packet, 1)), y.packet)) && inbox == y.inbox && errors == old(errors) + y.logged
              else
                r == None && inbox == x.inbox && errors == old(errors) + [status]
    {
      var _ := Write(line);
      r := ReadJob("FOUND");
    }

    /** `peek <id>`. */
    method Peek(id: int) returns (r: Option<Job>)
      modifies this
      ensures open == old(open) && timedOut == old(timedOut)
      ensures outbox == old(outbox) + Framed(open, "peek " + FormatInt(id))
      ensures var x := Receive(open, timedOut, old(inbox), 0);
              var status := TokenAt(x.packet, 0);
              if status == Some("FOUND") then
                var y := Receive(open, timedOut, x.inbox, IntTok(TokenAt(x.packet, 2)));
                r == Some(Job(IntTok(TokenAt(x.packet, 1)), y.packet)) && inbox == y.inbox && errors == old(errors) + y.logged
              else
                r == None && inbox == x.inbox && errors == old(errors) + [status]
    {
      r := PeekWith("peek " + FormatInt(id));
    }

    /** `peek-ready`. */
    method PeekReady() returns (r: Option<Job>)
      modifies this
      ensures open == old(open) && timedOut == old(timedOut)
      ensures outbox == old(outbox) + Framed(open, "peek-ready")
      ensures var x := Receive(open, timedOut, old(inbox), 0);
              var status := TokenAt(x.packet, 0);
              if status == Some("FOUND") then
                var y := Receive(open, timedOut, x.inbox, IntTok(TokenAt(x.packet, 2)));
                r == Some(Job(IntTok(TokenAt(x.packet, 1)), y.packet)) && inbox == y.inbox && errors == old(errors) + y.logged
              else
                r == None && inbox == x.inbox && errors == old(errors) + [status]
    {
      r := PeekWith("peek-ready");
    }

    /** `peek-delayed`. */
    method PeekDelayed() returns (r: Option<Job>)
      modifies this
      ensures open == old(open) && timedOut == old(timedOut)
      ensures outbox == old(outbox) + Framed(open, "peek-delayed")
      ensures var x := Receive(open, timedOut, old(inbox), 0);
              var status := TokenAt(x.packet, 0);
              if status == Some("FOUND") then
                var y := Receive(open, timedOut, x.inbox, IntTok(TokenAt(x.packet, 2)));
                r == Some(Job(IntTok(TokenAt(x.packet, 1)), y.packet)) && inbox == y.inbox && errors == old(errors) + y.logged
              else
                r == None && inbox == x.inbox && errors == old(errors) + [status]
    {
      r := PeekWith("peek-delayed");
    }

    /** `peek-buried`. */
    method PeekBuried() returns (r: Option<Job>)
      modifies this
      ensures open == old(open) && timedOut == old(timedOut)
      ensures outbox == old(outbox) + Framed(open, "peek-buried")
      ensures var x := Receive(open, timedOut, old(inbox), 0);
              var status := TokenAt(x.packet, 0);
              if status == Some("FOUND") then
                var y := Receive(open, timedOut, x.inbox, IntTok(TokenAt(x.packet, 2)));
                r == Some(Job(IntTok(TokenAt(x.packet, 1)), y.packet)) && inbox == y.inbox && errors == old(errors) + y.logged
              else
                r == None && inbox == x.inbox && errors == old(errors) + [status]
    {
      r := PeekWith("peek-buried");
    }

    /** `stats`: on `OK <bytes>`, the body read by that length. */
    method Stats() returns (r: Option<string>)
      modifies this
      ensures open == old(open) && timedOut == old(timedOut)
      ensures outbox == old(outbox) + Framed(open, "stats")
      ensures var x := Receive(open, timedOut, old(inbox), 0);
              var status := TokenAt(x.packet, 0);
              if status == Some("OK") then
                var y := Receive(open, timedOut, x.inbox, IntTok(TokenAt(x.packet, 1)));
                r == y.packet && inbox == y.inbox && errors == old(errors) + y.logged
              else
                r == None && inbox == x.inbox && errors == old(errors) + [status]
    {
      var line := Exchange("stats");
      var status := TokenAt(line, 0);
      if status == Some("OK") {
        r := Read(IntTok(TokenAt(line, 1)));
        return;
      }
      errors := errors + [status];
      return None;
    }
  }
}
