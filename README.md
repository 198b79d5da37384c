# li3_queue beanstalk client, modelled in Dafny

This project models the beanstalk client of the li3_queue plugin for the
Lithium PHP framework. It covers five parts:

- the request encoder (`net/beanstalk/Request.php`), which turns a method
  and its data and options into a beanstalkd command string;
- the response parser (`net/beanstalk/Response.php`), which picks a status
  and its fields out of a server reply with an ordered table of patterns;
- the socket command layer (`extensions/adapter/net/socket/Beanstalk.php`),
  with one method per protocol command over an inbox of server bytes, an
  outbox of written frames and the `_errors` list;
- the queue adapter (`extensions/adapter/queue/Beanstalk.php`): defaults,
  the connection flag, choosing or watching a tube first, scalar ids, and
  the `reset` drain loop, over a connection that answers from a script and
  records every command;
- the message value object (`storage/queue/Message.php`) and the in-memory
  FIFO the registry tests use (`tests/mocks/extensions/adapter/queue/MockQueue.php`).

PHP values are `PhpValues.Value` (null, bool, int, string); option arrays
are `map<string, Value>`, and `$options += $defaults` is `PhpValues.Merge`.
Integers are unbounded, as PHP's integers are within the sizes the protocol
uses. The encoder has a partner: a server-side decoder (`Request.Decode`)
that reads a command back from its wire form, and the round trip is proved
for every command of the table. The response patterns are modelled as
keywords followed by elements (`\s`, `\d+`, `\r\n`, `.*`/`.+` with or without
`/s`), searched unanchored and leftmost as `preg_match` does. Greedy
matching without backtracking is exact here, because the table never
follows a quantifier with something that quantifier could also match.

Files: `wrappers.dfy` (Option, Result), `decimal.dfy` (`%d` and the
`(integer)` cast), `php_values.dfy`, `wire.dfy` (CRLF, `strtok`, `rtrim`),
`request.dfy`, `response.dfy`, `anchored.dfy` (the corrected parser),
`beanstalk_socket.dfy`, `queue_adapter.dfy`, `message.dfy`, `mock_queue.dfy`.

## Model

| member | source | states |
|---|---|---|
| Decimal.FormatInt | net/beanstalk/Request.php:54 | `%d` writes a non-empty run of digits, after a `-` exactly when the number is negative. |
| Decimal.LeadingIntFormat | extensions/adapter/net/socket/Beanstalk.php:105 | The `(integer)` cast reads back exactly the integer `%d` wrote, when what follows cannot continue a number: nothing, or a character other than a digit, `.`, `e` or `E`. |
| Decimal.LeadingIntFraction | extensions/adapter/net/socket/Beanstalk.php:105 | A `.` and a fraction after the integer `%d` wrote are truncated away: the cast gives that integer. |
| Decimal.LeadingIntExponent | extensions/adapter/net/socket/Beanstalk.php:105 | Digits, `e` and digits are read in exponent form, as PHP 7.1 and later read numeric strings: `n` `e` `k` casts to `n * 10^k`. |
| Decimal.LeadingIntSkipsBlanks | extensions/adapter/net/socket/Beanstalk.php:105 | The cast skips leading spaces, tabs, line feeds, carriage returns, vertical tabs and form feeds. |
| Decimal.CastExamples | net/beanstalk/Request.php:77 | `" 5"` casts to 5 and `"1e3"` to 1000. |
| Decimal.ValueOfFormatNat | net/beanstalk/Request.php:54 | The digits `%d` writes for a natural number denote that number. |
| Decimal.ParseIntFormat | net/beanstalk/Request.php:54 | A strict decimal parser reads back every integer `%d` writes. |
| PhpValues.Merge | extensions/adapter/queue/Beanstalk.php:43 | `$options += $defaults` holds the keys of both, and the user-supplied value wins on a shared key. |
| PhpValues.MergeAbsorbs | extensions/adapter/queue/Beanstalk.php:180 | Merging defaults whose keys are already present changes nothing. |
| PhpValues.MergeAssociates | extensions/adapter/queue/Beanstalk.php:155-158 | Two successive default merges equal one merge with the left-biased union of the defaults. |
| PhpValues.IntOfStrOf | net/beanstalk/Request.php:77 | Casting any value to a string and that string to an integer gives the value's own integer cast. |
| PhpValues.TruthyStrOf | extensions/adapter/queue/Beanstalk.php:182 | Casting a value to a string keeps its truthiness: only null, `false`, 0, `""` and `"0"` are falsy, before and after. |
| PhpValues.LooseEqualsWordRules | extensions/adapter/queue/Beanstalk.php:348-376 | `$x == 'word'` follows PHP 7's rules: a boolean compares with the word's truthiness, an integer with the word's integer cast, null as the empty string, a string by its characters. |
| Wire.FindCRLF | net/beanstalk/Request.php:55 | The position found is the first CRLF of the text, or its end. |
| Wire.FrameSplit | net/beanstalk/Request.php:52-55 | In a line, CRLF, body, CRLF frame, the first CRLF ends the line whatever the body holds. |
| Wire.NextToken | extensions/adapter/net/socket/Beanstalk.php:105 | One `strtok` call gives a non-empty token without spaces, and consumes input. |
| Wire.TokensOfWords | extensions/adapter/net/socket/Beanstalk.php:105-108 | `strtok` over words joined by single spaces gives back exactly those words. |
| Wire.TokensOfSpaced | extensions/adapter/net/socket/Beanstalk.php:105-108 | The same for words that each follow one space. |
| Wire.TrimLineEnds | extensions/adapter/net/socket/Beanstalk.php:60 | `rtrim($s, "\r\n")` is the longest prefix not ending in CR or LF, and only CR and LF are dropped. |
| Wire.TrimTerminator | extensions/adapter/net/socket/Beanstalk.php:53-60 | A body survives the trim of its CRLF exactly when it does not itself end in CR or LF. |
| Wire.Tokens | extensions/adapter/net/socket/Beanstalk.php:100-105 | Every token `strtok` gives is non-empty and holds no space. |
| Wire.TokenAt | extensions/adapter/net/socket/Beanstalk.php:100-105 | The `k`-th `strtok` call gives a non-empty token without spaces exactly when the line read has more than `k` tokens, and `false` when the read failed. |
| Wire.CommandLine | extensions/adapter/net/socket/Beanstalk.php:73-79 | A command line written as words has no CR and splits back into its words. |
| Request.HandlerNamesCommand | net/beanstalk/Request.php:39-88 | Every handler's string starts with its command's name, alone or followed by a space. |
| Request.Lookup | net/beanstalk/Request.php:96 | A handler is found exactly for the method names of the table, each under its own name. |
| Request.Body | net/beanstalk/Request.php:93-98 | `body()` has a value exactly when the method is one of the table. |
| Request.ToString | net/beanstalk/Request.php:106-108 | The string form exists exactly when the body does, and always ends in CRLF. |
| Request.UnknownMethodHasNoHandler | net/beanstalk/Request.php:96-97 | A method outside the table has no handler, so the request has no string form. |
| Request.LookupName | net/beanstalk/Request.php:39-88 | Every method of the table finds its own handler. |
| Request.ArgDefault | net/beanstalk/Request.php:44-50 | A numeric option prints the user's value when given and the handler's default otherwise. |
| Request.PutHandler | net/beanstalk/Request.php:43-56 | `put` renders its words, a CRLF, then the data. |
| Request.PutWire | net/beanstalk/Request.php:43-56 | `put` is `put <pri> <delay> <ttl> <bytes>`, CRLF, the data, CRLF, where `bytes` is the data's length and the numbers default to 0. |
| Request.PutBodyRecovered | net/beanstalk/Request.php:52-55 | After the first CRLF of a `put` frame come exactly the declared number of bytes, which are the data, then the final CRLF, even when the data holds CRLF. |
| Request.PutWordsAreWords | net/beanstalk/Request.php:54 | Every word of the `put` line is a single token without CR. |
| Request.DecodeWire | net/beanstalk/Request.php:39-108 | A server decoding the string form of any request of the table reads back the command it stands for, with every default filled in (for `use`, when the tube name holds no CR). |
| Request.DecodeSplit | net/beanstalk/Request.php:106-108 | A decoder splits the wire string at the CRLF that ends the command line. |
| Request.DecodeLine | net/beanstalk/Request.php:106-108 | A one-line command decodes from its line alone. |
| Request.DecodeUse | net/beanstalk/Request.php:40-42 | `use` of a tube name without CR decodes to a use of that name. |
| Request.DecodePut | net/beanstalk/Request.php:43-56 | `put` decodes to its priority, delay, ttl and exactly its data. |
| Request.DecodeConstant | net/beanstalk/Request.php:57-59 | `reserve`, `list-tubes` and `stats` decode to themselves. |
| Request.DecodeReserveWithTimeout | net/beanstalk/Request.php:60-68 | `reserve-with-timeout` decodes to its timeout, 0 by default. |
| Request.DecodeRelease | net/beanstalk/Request.php:69-78 | `release` decodes to its id, priority and delay, both defaulting to 0. |
| Request.DecodeDelete | net/beanstalk/Request.php:79-81 | `delete` decodes to its id. |
| Request.UseRendersTube | net/beanstalk/Request.php:40-42 | `use` with tube `t` is `use t` and a CRLF. |
| Request.ReserveIgnoresArguments | net/beanstalk/Request.php:57-59 | `reserve` renders the same string whatever its data and options. |
| Request.ReserveWithTimeoutDefault | net/beanstalk/Request.php:60-68 | `reserve-with-timeout` renders the timeout option, 0 when missing. |
| Request.ReleaseRendersDefaults | net/beanstalk/Request.php:69-78 | `release id pri delay`, with priority and delay defaulting to 0. |
| Request.DeleteRendersId | net/beanstalk/Request.php:79-81 | `delete id`, whatever the options. |
| Request.ConstantCommands | net/beanstalk/Request.php:82-87 | `list-tubes` and `stats` are constant strings. |
| Response.DotRun | net/beanstalk/Response.php:25 | `.` runs to the first line feed, or to the end under `/s`. |
| Response.SetCapture | net/beanstalk/Response.php:51-55 | Setting one named group leaves the status and every other group as they were. |
| Response.MatchAt | net/beanstalk/Response.php:50 | A pattern matches at a position only where its keyword starts. |
| Response.Search | net/beanstalk/Response.php:50 | A search fails exactly when the pattern matches at no position of the message. |
| Response.Try | net/beanstalk/Response.php:49-50 | An entry that matches has its keyword somewhere in the message. |
| Response.Parse | net/beanstalk/Response.php:48-65 | There is no parse exactly when no entry of the table matches. |
| Response.Absent | net/beanstalk/Response.php:50 | A pattern whose keyword does not occur in the message does not match it. |
| Response.Unclaimed | net/beanstalk/Response.php:49-50 | Every entry before `k` is passed over when none of their keywords occurs in the message. |
| Response.Leftmost | net/beanstalk/Response.php:50 | The position found is the leftmost one where the pattern matches, or there is none. |
| Response.FirstMatch | net/beanstalk/Response.php:49-50 | The entry found is the first of the table from `k` on whose search succeeds. |
| Response.FirstMatchAt | net/beanstalk/Response.php:49-62 | The parse takes an entry exactly when no entry before it matches. |
| Response.KeywordAbsent | net/beanstalk/Response.php:15-38 | A pattern whose keyword holds a character the message lacks matches nowhere. |
| Response.MatchedFields | net/beanstalk/Response.php:51-55 | A match sets the status it began with and exactly the groups its elements name. |
| Response.SearchFields | net/beanstalk/Response.php:50-55 | A successful search sets the pattern's keyword as status and exactly the groups the pattern names. |
| Response.ParsedFields | net/beanstalk/Response.php:49-61 | A parse reports the status of the first matching entry, and a field is set exactly when that entry names it (every other field is null). |
| Response.ParseAt | net/beanstalk/Response.php:49-62 | The fields and data of a parse whose first matching entry is `k`, with the data post-processed only for `OK` with positive bytes. |
| Response.ParseNone | net/beanstalk/Response.php:64 | A message no entry matches is not parsed. |
| Response.NeedsDigits | net/beanstalk/Response.php:20-21 | A numbered pattern matches nowhere in a message without digits. |
| Response.StartAt | net/beanstalk/Response.php:16-37 | A pattern matches at the start of a message beginning with its keyword exactly when its elements match the rest. |
| Response.NumberedAt | net/beanstalk/Response.php:20-21 | `KEYWORD\s(\d+)` matches a word, a space, digits and a CRLF, capturing the digits. |
| Response.Inserted | net/beanstalk/Response.php:20 | `INSERTED <id>` sets the status and the id, and nothing else. |
| Response.Buried | net/beanstalk/Response.php:21 | `BURIED <id>` sets the status and the id. |
| Response.Watching | net/beanstalk/Response.php:33 | `WATCHING <count>` sets the status and the count. |
| Response.Kicked | net/beanstalk/Response.php:35 | `KICKED <count>` is taken by the numbered entry and sets the count. |
| Response.KickedBare | net/beanstalk/Response.php:35-36 | A bare `KICKED` passes the numbered entry and is taken by the next, with count null. |
| Response.BuriedBare | net/beanstalk/Response.php:21 | A bare `BURIED` matches no entry of the table. |
| Response.Using | net/beanstalk/Response.php:25 | `USING <tube>` captures the rest of the line, including the CR of its CRLF, whenever no keyword of an earlier entry occurs in the reply. |
| Response.Reserved | net/beanstalk/Response.php:28 | `RESERVED <id> <bytes>`, CRLF, body: the id and bytes are captured and the data stops at the first line feed, whenever no keyword of an earlier entry occurs in the reply. |
| Response.ReservedJob | net/beanstalk/Response.php:28 | A one-line job body comes back with the CR of its terminating CRLF, whenever no keyword of an earlier entry occurs in the reply. |
| Response.Ok | net/beanstalk/Response.php:37 | `OK <bytes>`, CRLF, payload: under `/s` the data is the whole payload, across line feeds, unchanged, whenever no keyword of an earlier entry occurs in the reply. |
| Response.BodyOverridesStatus | net/beanstalk/Response.php:15-38 | A job body holding an earlier keyword decides the status, because the search is not anchored. |
| Response.Response.constructor | net/beanstalk/Response.php:40-46 | The message is parsed exactly when the configured `message` is truthy. |
| Response.Response.ParseResponse | net/beanstalk/Response.php:48-65 | The loop tries the table in order; the first entry that matches sets the five fields and gives the data; with no match nothing changes and the result is null. |
| Anchored.FirstAt | net/beanstalk/Response.php:49-50 | The first entry of the corrected table that matches at the very start of the message. |
| Anchored.AnchoredStatus | net/beanstalk/Response.php:49-61 | An anchored parse reads a status that the message starts with, and exactly the fields its entry names. |
| Anchored.AnchoredReserved | net/beanstalk/Response.php:28 | With anchored patterns, every `RESERVED <id> <bytes>` reply keeps its own status, id and bytes and gives the first line of its body as data, whatever keywords the body holds. |
| Anchored.AnchoredOverrideReply | net/beanstalk/Response.php:15-38 | The reply the unanchored table reads as `BAD_FORMAT` is read by the anchored one as `RESERVED` with id 1, bytes 10 and its body. |
| Anchored.AnchoredBuried | net/beanstalk/Response.php:21 | With the bare entry added, a bare `BURIED` is recognised with no id. |
| BeanstalkSocket.GetLine | extensions/adapter/net/socket/Beanstalk.php:62 | `stream_get_line` reads at most 16384 bytes, ends at a CRLF it consumes, and fails only on an empty stream. |
| BeanstalkSocket.Fread | extensions/adapter/net/socket/Beanstalk.php:53 | `fread` takes the first `n` bytes or all there are, and nothing for a length below 1. |
| BeanstalkSocket.ReadsLine | extensions/adapter/net/socket/Beanstalk.php:61-62 | A status line is read whole and its CRLF consumed. |
| BeanstalkSocket.CutsLongLine | extensions/adapter/net/socket/Beanstalk.php:62 | A line with no CRLF within the limit is cut after 16384 bytes. |
| BeanstalkSocket.ReadsEmptyBody | extensions/adapter/net/socket/Beanstalk.php:49 | A length of 0 is falsy, so an empty body is read as a line. |
| BeanstalkSocket.ReadsBody | extensions/adapter/net/socket/Beanstalk.php:49-60 | A body read by its length consumes the body and its CRLF, and comes back intact exactly when it does not end in CR or LF. |
| BeanstalkSocket.TimedOutRead | extensions/adapter/net/socket/Beanstalk.php:53-59 | A timed-out read is `false` and logs `Connection timed out.`. |
| BeanstalkSocket.NumberReply | extensions/adapter/net/socket/Beanstalk.php:270-273 | A numbered reply line splits into its word and its number. |
| BeanstalkSocket.UsingReply | extensions/adapter/net/socket/Beanstalk.php:125-129 | A `USING` reply gives the tube back as the second token when the name is one word. |
| BeanstalkSocket.SpacedTubeNeverEchoed | extensions/adapter/net/socket/Beanstalk.php:128-129 | A tube name holding a space never comes back as one token, so choosing it fails. |
| BeanstalkSocket.NonStringTubeNeverEchoed | extensions/adapter/net/socket/Beanstalk.php:129 | `strtok(' ') === $tube` holds for a tube that is not a string only when the tube is `false` and the line has no second token: an integer, `true` or null tube is never chosen. |
| BeanstalkSocket.EchoedIntegerNotChosen | extensions/adapter/net/socket/Beanstalk.php:124-129 | For the integer tube 5, `use 5` is answered `USING 5`, whose second token `"5"` is still not identical to the integer 5. |
| BeanstalkSocket.JobReply | extensions/adapter/net/socket/Beanstalk.php:157-164 | A job reply carries the word, the id and the length, and the body read by that length comes back. |
| BeanstalkSocket.ReceiveConsumes | extensions/adapter/net/socket/Beanstalk.php:41-65 | A read only consumes a prefix of the stream; only a timed-out length read on an open stream logs, and it answers `false`; a packet read by length never ends in CR or LF. |
| BeanstalkSocket.Beanstalk.constructor | extensions/adapter/net/socket/Beanstalk.php:41-44 | The class has no constructor of its own (it is Lithium's stream socket's); this one sets up the fake transport that the `is_resource` guard and the reads consult: open or closed, the timed-out flag and the server's bytes, with nothing written and no errors. |
| BeanstalkSocket.Beanstalk.Read | extensions/adapter/net/socket/Beanstalk.php:41-65 | `read` is the line or length read of the inbox; only a timeout adds an error. |
| BeanstalkSocket.Beanstalk.Write | extensions/adapter/net/socket/Beanstalk.php:73-79 | `write` sends exactly the data and a CRLF and answers the byte count; on a closed stream it is `false` and writes nothing. |
| BeanstalkSocket.Beanstalk.Exchange | extensions/adapter/net/socket/Beanstalk.php:124-125 | A command line is written, and the status line that answers it is read. |
| BeanstalkSocket.Beanstalk.Put | extensions/adapter/net/socket/Beanstalk.php:97-112 | `put` writes `put pri delay ttr bytes` and the data, each with CRLF; it is the id on `INSERTED` or `BURIED`, otherwise `false` with the status logged. |
| BeanstalkSocket.Beanstalk.Choose | extensions/adapter/net/socket/Beanstalk.php:123-133 | `choose` writes `use` and the tube as `%s` prints it, and is true only when the second token of a `USING` line is identical (`===`) to the tube, so a tube that is not a string fails even when echoed; `USING` anything else is `false` and logs nothing; other statuses are logged. |
| BeanstalkSocket.Beanstalk.UseTube | extensions/adapter/net/socket/Beanstalk.php:139-141 | `useTube` is `choose`. |
| BeanstalkSocket.Beanstalk.ReadJob | extensions/adapter/net/socket/Beanstalk.php:159-170 | On the expected word, the job's id and the body read by its declared length; otherwise `false` with the status logged. |
| BeanstalkSocket.Beanstalk.Reserve | extensions/adapter/net/socket/Beanstalk.php:151-171 | `reserve-with-timeout t` when a timeout is given, else `reserve`; the job on `RESERVED`. |
| BeanstalkSocket.Beanstalk.Confirm | extensions/adapter/net/socket/Beanstalk.php:179-190 | A command whose whole status line must be one of its success words, otherwise `false` with the status logged. |
| BeanstalkSocket.Beanstalk.Delete | extensions/adapter/net/socket/Beanstalk.php:179-191 | `delete id` succeeds on the status line `DELETED` only. |
| BeanstalkSocket.Beanstalk.Release | extensions/adapter/net/socket/Beanstalk.php:201-214 | `release id pri delay` succeeds on `RELEASED` or `BURIED`. |
| BeanstalkSocket.Beanstalk.Bury | extensions/adapter/net/socket/Beanstalk.php:226-238 | `bury id pri` succeeds on `BURIED` only. |
| BeanstalkSocket.Beanstalk.Touch | extensions/adapter/net/socket/Beanstalk.php:246-258 | `touch id` succeeds on `TOUCHED` only. |
| BeanstalkSocket.Beanstalk.Count | extensions/adapter/net/socket/Beanstalk.php:267-278 | A command answered by `<word> <n>` is the number on that word, otherwise `false` with the status logged. |
| BeanstalkSocket.Beanstalk.Watch | extensions/adapter/net/socket/Beanstalk.php:267-278 | `watch tube` is the count on `WATCHING`. |
| BeanstalkSocket.Beanstalk.Ignore | extensions/adapter/net/socket/Beanstalk.php:286-298 | `ignore tube` is the count on `WATCHING`. |
| BeanstalkSocket.Beanstalk.Kick | extensions/adapter/net/socket/Beanstalk.php:373-384 | `kick bound` is the count on `KICKED`. |
| BeanstalkSocket.Beanstalk.PeekWith | extensions/adapter/net/socket/Beanstalk.php:348-362 | A peek command's job on `FOUND`, otherwise `false` with the status logged. |
| BeanstalkSocket.Beanstalk.Peek | extensions/adapter/net/socket/Beanstalk.php:308-311 | `peek id`, then the `FOUND` job. |
| BeanstalkSocket.Beanstalk.PeekReady | extensions/adapter/net/socket/Beanstalk.php:318-321 | `peek-ready`, then the `FOUND` job. |
| BeanstalkSocket.Beanstalk.PeekDelayed | extensions/adapter/net/socket/Beanstalk.php:328-331 | `peek-delayed`, then the `FOUND` job. |
| BeanstalkSocket.Beanstalk.PeekBuried | extensions/adapter/net/socket/Beanstalk.php:338-341 | `peek-buried`, then the `FOUND` job. |
| BeanstalkSocket.Beanstalk.Stats | extensions/adapter/net/socket/Beanstalk.php:409-420 | `stats` is the body read by the `OK` byte count, otherwise `false` with the status logged. |
| QueueAdapter.Ask | extensions/adapter/queue/Beanstalk.php:190 | One command consumes at most one scripted answer. |
| QueueAdapter.WatchAll | extensions/adapter/queue/Beanstalk.php:219-226 | Watching never consumes more answers than there are. |
| QueueAdapter.ReserveRun | extensions/adapter/queue/Beanstalk.php:196-213 | A reserve consumes answers, and one that finds a job consumes at least one. |
| QueueAdapter.DefaultConfiguration | extensions/adapter/queue/Beanstalk.php:34-44 | With no configuration the adapter runs on autoConnect, persistent, `php`, kick bound 100, `127.0.0.1:11300` and timeout 60. |
| QueueAdapter.FormatChoice | extensions/adapter/queue/Beanstalk.php:358-376 | The format is PHP serialisation by default and JSON when `format` is `json` (or, by loose comparison, `true`). |
| QueueAdapter.WatchAllSucceeds | extensions/adapter/queue/Beanstalk.php:219-226 | `watch` is true exactly when every tube's answer is truthy, an empty list included, and then sends one watch per tube. |
| QueueAdapter.OnlyWatches | extensions/adapter/queue/Beanstalk.php:220-221 | `watch` sends nothing but watch commands. |
| QueueAdapter.PutUsesDefaults | extensions/adapter/queue/Beanstalk.php:172-187 | `put` with no options chooses `default`, then puts at priority 0, delay 0 and the configured timeout. |
| QueueAdapter.PutSends | extensions/adapter/queue/Beanstalk.php:172-187 | For any options: a given priority, delay, timeout or tube wins over its default; a truthy tube is chosen first and a failed choice is `false` with nothing put; otherwise the put with those numbers gets the next answer, which is the result. |
| QueueAdapter.DataOptionWins | extensions/adapter/queue/Beanstalk.php:179-180 | A `data` option replaces the payload, whatever data was passed; without one the passed data is put. |
| QueueAdapter.PutStopsWhenChooseFails | extensions/adapter/queue/Beanstalk.php:182-184 | When choosing the tube fails, `put` is false and no put command is sent. |
| QueueAdapter.ReserveFound | extensions/adapter/queue/Beanstalk.php:196-213 | A reserve that found a job sent watches, then the reserve answered by the job, and gives the decoded body with the server's id. |
| QueueAdapter.ReservedJobId | extensions/adapter/queue/Beanstalk.php:212 | The server's id overrides any `id` in the decoded body; every other key of the body is kept. |
| QueueAdapter.ReserveFailedLog | extensions/adapter/queue/Beanstalk.php:203-210 | A reserve that found no job sent watches and reserves none of which holds a job. |
| QueueAdapter.DrainStops | extensions/adapter/queue/Beanstalk.php:160 | The `reset` loop ends at the first reserve that finds no job. |
| QueueAdapter.DrainGoesOn | extensions/adapter/queue/Beanstalk.php:160-162 | A round that found a job deletes its id and goes on with the answers left, consuming at least one. |
| QueueAdapter.PairedStep | extensions/adapter/queue/Beanstalk.php:160-162 | A reserve with a job followed by that job's delete keeps a log of reserves and deletes paired. |
| QueueAdapter.PairedFailed | extensions/adapter/queue/Beanstalk.php:160 | Watches and job-less reserves hold nothing to pair. |
| QueueAdapter.DrainPairs | extensions/adapter/queue/Beanstalk.php:153-164 | In `reset`, every reserved job is deleted right after it is reserved, by its own id, and every delete follows such a reserve: each job is deleted exactly once. |
| QueueAdapter.NextSends | extensions/adapter/queue/Beanstalk.php:325-343 | For any type and options: a truthy tube is chosen first; then `peek` plus the type, or the `type` option when one is given, with its first letter upper-cased. The result is `false` exactly when the choice failed or the peek found no job, null exactly when the job's body does not decode to an array, and otherwise that array with the server's id. |
| QueueAdapter.TypeOptionWins | extensions/adapter/queue/Beanstalk.php:330-336 | `extract` lets a `type` option replace the `$type` argument, whatever was passed; without one the argument names the peek. |
| QueueAdapter.Ucfirst | extensions/adapter/queue/Beanstalk.php:336 | `ucfirst` upper-cases a lower-case ASCII first letter and keeps everything else. |
| QueueAdapter.ScalarBodies | extensions/adapter/queue/Beanstalk.php:196-343 | A body that decodes to a string comes back from `reserve`, through the `(array)` cast, as that string under key 0 with the id, and from `next` as null (PHP's `array_merge` of a non-array), not `false`. |
| QueueAdapter.NextNamesPeekMethod | extensions/adapter/queue/Beanstalk.php:336-337 | `next('ready')` calls `peekReady` on the connection. |
| QueueAdapter.NextTypeOption | extensions/adapter/queue/Beanstalk.php:330-337 | `next('ready', array('type' => 'delayed'))` calls `peekDelayed`. |
| QueueAdapter.ScalarIsId | extensions/adapter/queue/Beanstalk.php:231-292 | A scalar argument is the id of `release`, `touch` and `bury`, with priority and delay 0. |
| QueueAdapter.KickBound | extensions/adapter/queue/Beanstalk.php:300-310 | A scalar argument is `kick`'s bound; without one, the configured `kickBound`. |
| QueueAdapter.ArrayArguments | extensions/adapter/queue/Beanstalk.php:231-316 | An options array gives `release`, `touch` and `bury` their id, priority and delay (null, 0 and 0 when missing), and `kick` its bound (the configured one when missing) and tube. |
| QueueAdapter.DefaultSocketOptions | extensions/adapter/queue/Beanstalk.php:34-67 | With no configuration, `connect` opens a persistent socket to `127.0.0.1:11300` with a null port and timeout -1. |
| QueueAdapter.Connection.Send | extensions/adapter/queue/Beanstalk.php:190 | The connection answers with the next scripted answer and records the command with it. |
| QueueAdapter.Beanstalk.constructor | extensions/adapter/queue/Beanstalk.php:34-51 | The configuration is merged over the defaults and the base object's `init => true`; when `init` and `autoConnect` are truthy the socket is opened twice, once by the base adapter's `_init` and once by this one's, and the flag is the second open's success; otherwise nothing is sent. |
| QueueAdapter.Beanstalk.Connect | extensions/adapter/queue/Beanstalk.php:62-78 | The flag is cleared, the socket opened with the persistent, host and port settings and timeout -1, and the flag is the open's success. |
| QueueAdapter.Beanstalk.IsConnected | extensions/adapter/queue/Beanstalk.php:93-105 | A connection is attempted only when not connected and autoConnect (default false) is truthy; the flag is returned. |
| QueueAdapter.Beanstalk.Disconnect | extensions/adapter/queue/Beanstalk.php:112-121 | True at once when not connected; otherwise the close decides the flag, the connection is dropped, and the result is the negated flag. |
| QueueAdapter.Beanstalk.Choose | extensions/adapter/queue/Beanstalk.php:189-191 | The connection's `choose`. |
| QueueAdapter.Beanstalk.Put | extensions/adapter/queue/Beanstalk.php:172-187 | What `put` sends and answers is `PutRun` of the script: the tube chosen first when set, the put skipped when choosing fails. |
| QueueAdapter.Beanstalk.Write | extensions/adapter/queue/Beanstalk.php:125-127 | `write` is exactly `put`. |
| QueueAdapter.Beanstalk.Add | extensions/adapter/queue/Beanstalk.php:149-151 | `add` is exactly `put`. |
| QueueAdapter.Beanstalk.Watch | extensions/adapter/queue/Beanstalk.php:219-226 | The loop watches the tubes in order and stops at the first failure, as `WatchAll` says. |
| QueueAdapter.Beanstalk.Reserve | extensions/adapter/queue/Beanstalk.php:196-213 | What `reserve` sends and answers is `ReserveRun` of the script: the decoded body cast to an array, with the server's id. |
| QueueAdapter.Beanstalk.Run | extensions/adapter/queue/Beanstalk.php:166-168 | `run` is exactly `reserve`. |
| QueueAdapter.Beanstalk.Delete | extensions/adapter/queue/Beanstalk.php:252-254 | The connection's `delete`. |
| QueueAdapter.Beanstalk.DrainOnce | extensions/adapter/queue/Beanstalk.php:160-162 | One round of the drain loop keeps the loop's invariant, consuming an answer when it goes on. |
| QueueAdapter.Beanstalk.Reset | extensions/adapter/queue/Beanstalk.php:153-164 | `reset` reserves with timeout 1 from `default` and deletes each job until a reserve fails, as `Drain` says, and is always true. |
| QueueAdapter.Beanstalk.Release | extensions/adapter/queue/Beanstalk.php:231-245 | `release` of the normalised id, priority and delay. |
| QueueAdapter.Beanstalk.Touch | extensions/adapter/queue/Beanstalk.php:259-271 | `touch` of the normalised id. |
| QueueAdapter.Beanstalk.Bury | extensions/adapter/queue/Beanstalk.php:279-292 | `bury` of the normalised id and priority. |
| QueueAdapter.Beanstalk.Kick | extensions/adapter/queue/Beanstalk.php:300-316 | `kick` of the normalised bound when no tube is given. |
| QueueAdapter.Beanstalk.Peek | extensions/adapter/queue/Beanstalk.php:321-323 | The connection's `peek`. |
| QueueAdapter.Beanstalk.Next | extensions/adapter/queue/Beanstalk.php:325-343 | What `next` sends and answers is `NextRun` of the script: `false` for a failed choice or peek, a job whose body decodes to an array with its id, any other body as null. |
| QueueAdapter.Beanstalk.Statistics | extensions/adapter/queue/Beanstalk.php:348-356 | Job statistics for `job`, tube statistics for `tube` (of the chosen tube when no key is given), server statistics otherwise, by loose comparison. |
| QueueAdapter.Beanstalk.Stats | extensions/adapter/queue/Beanstalk.php:380-382 | The connection's `stats`. |
| QueueMessage.Message.constructor | storage/queue/Message.php:33-45 | Options over the defaults and the base object's `init => true`; when `init` is truthy each set option (and the bound queue) replaces its field's default, otherwise every field keeps its declared default and the generated id; timestamp and expiration stay null. |
| QueueMessage.Message.Id | storage/queue/Message.php:47-52 | The id changes only for a truthy argument, and the call returns the current id. |
| QueueMessage.Message.Data | storage/queue/Message.php:58-63 | The payload changes only for a truthy argument, and the call returns the current payload. |
| QueueMessage.Message.GetContentType | storage/queue/Message.php:54-56 | Always `text/plain`, whatever is passed. |
| QueueMessage.Message.Confirm | storage/queue/Message.php:81-88 | A bound message is handed to its queue's `confirm`; an unbound one fails with the error naming `confirm`. |
| QueueMessage.Message.Requeue | storage/queue/Message.php:90-97 | A bound message is handed to its queue's `requeue`; an unbound one fails with the error naming `requeue`. |
| QueueMessage.DefaultMessage | storage/queue/Message.php:9-45 | A message built with no options has an empty payload, priority 0, no redelivery, no queue, and null timestamp and expiration. |
| QueueMessage.UninitializedMessage | storage/queue/Message.php:33-45 | With `init => false`, whatever else the options say, the message keeps the generated id, an empty payload, priority 0, no redelivery and no queue. |
| QueueMessage.ConfiguredAccessors | storage/queue/Message.php:65-79 | `priority()` and `isRedelivery()` report what the constructor's options set, and 0 and `false` when an option is null. |
| MockQueue.Queue.constructor | tests/mocks/extensions/adapter/queue/MockQueue.php:6 | A new queue is empty. |
| MockQueue.Queue.Add | tests/mocks/extensions/adapter/queue/MockQueue.php:8-11 | The task and its options go to the back, and the result is true. |
| MockQueue.Queue.Run | tests/mocks/extensions/adapter/queue/MockQueue.php:13-20 | A non-empty queue loses its front entry and answers `Success`; an empty one answers false and stays empty. |
| MockQueue.Queue.Reset | tests/mocks/extensions/adapter/queue/MockQueue.php:22-24 | The queue becomes empty. |
| MockQueue.OneTaskScenario | tests/cases/storage/QueueTest.php:58-65 | One add, then a run that succeeds and a run that fails. |

## Left out

- Real transport: `fsockopen`, non-blocking stream setup, `feof` on a live stream and the server's blocking, timeouts and ttr. The socket reads from a fixed inbox; end of file is an empty inbox, and the timed-out flag is part of the socket's state.
- `stream_get_line` is modelled by its documented rule: the delimiter counts only when it lies within the first 16384 bytes.
- A read by length below 1 reads nothing (`fread` of zero bytes in PHP 7 fails, and `rtrim` turns the failure into the empty string).
- `net/beanstalk/Service.php`, the AMQP and Gearman adapters, the registry (`Queue.php`), the CLI command and the abstract bases are not part of this model.
- Serialisation (`serialize`, `unserialize`, `json_encode`, `json_decode`) and `yaml_parse` are parameters of the model; no round trip between them is assumed. `_parseYaml` returns its input, as it does without the YAML extension.
- The socket's `listTubeChosen` only returns what the empty `listTubeUsed` does; the adapter sends it as one command.
- The adapter's stubs `read`, `confirm`, `requeue`, `consume` and `purge`, and the socket's `statsJob`, `statsTube`, `listTubes`, `listTubeUsed` and `listTubesWatched`, are empty in the source. In the model the scripted connection answers their calls.
- QueueAdapter.Beanstalk.Kick: requires that no tube is given, because the tube branch passes the undefined `$Model` to `choose` in place of the tube.
- QueueAdapter.ReserveRun: an answer to `reserve` or to a peek of `next` that is not a job reads as `false`; the socket only ever answers a job or `false`.
- QueueAdapter.Beanstalk.Reserve: `array_merge` renumbers integer keys and keeps key order; option arrays are maps with string keys, so order is not modelled and the key `0` of a cast scalar is the string `"0"`.
- QueueAdapter.Beanstalk.Next: the warning PHP 7's `array_merge` raises for a body that does not decode to an array is left out; its null result is modelled (`NextNull`). Of the variables `extract($options)` can overwrite, only `type` is modelled (`NextKind`); an `options` key overwriting `$options`, and a peek method name the connection does not have, are not.
- QueueAdapter.Beanstalk.constructor: Lithium's base object is not part of this model; its `init` default of `true` is assumed, and each `connect` opens the one scripted connection the model is given, where PHP makes a new socket object each time.
- Strings are byte strings: a Dafny `char` stands for one byte, so `strlen` and `fread` count chars; multi-byte encodings are not modelled.
- LeadingIntFormat: the text after the integer must not start with a digit, `.`, `e` or `E`; a fraction is covered by LeadingIntFraction and an exponent by LeadingIntExponent, but such suffixes as `.x` or a lone `e`, which the cast also stops at, are not covered by a lemma.
- Decimal.LeadingInt: the cast is read on unbounded integers; PHP's capping of a number beyond 64 bits and the float rounding of a long fraction or large exponent are not modelled.
- QueueAdapter.Beanstalk.Choose: the scripted connection may answer any value; the socket's `choose` answers `false` for every tube that is not a string (`BeanstalkSocket.NonStringTubeNeverEchoed`), so `put` or `next` with an integer tube sends the `use` and stops there.
- QueueAdapter.Beanstalk.Put: of the variables `extract($options)` can overwrite, only `data` is modelled (`Payload`); an `options` key overwriting `$options` is not.
- QueueAdapter.Beanstalk.Connect: an exception thrown by `open` is left out; an open either succeeds or fails. The source does not wrap one in `NetworkException` either: the namespace imports no `Exception`, so `catch (Exception $e)` names the nonexistent `li3_queue\extensions\adapter\queue\Exception` and never matches, and the exception would propagate unchanged.
- QueueAdapter.Beanstalk.Disconnect: an exception thrown by `close` is left out; the source's `catch (Exception $e) {}` names the same nonexistent class, so it would not swallow one but let it propagate. Also left out is a second `disconnect` after a failed close, where the flag is still set but the connection is unset and PHP calls `close()` on null; the requires excludes that state.
- QueueMessage.Message.constructor: the random sha1 id is a parameter. The `init` gate and the copying of `_autoConfig` keys follow Lithium's `Object::__construct` and `Object::_init` (a set option replaces the field), and that class is not part of this model.
- QueueMessage.Message.constructor: the bound queue is a separate parameter rather than the `queue` key of the options.
- QueueMessage.Message.Confirm: the queue is handed a snapshot of the message's fields, not the object itself, so aliasing is not modelled.
- Exceptions other than `BadMethodCallException` are not modelled.

## Findings

| source | as written | input that shows it | evidently intended | confidence | as-written member | corrected member |
|---|---|---|---|---|---|---|
| net/beanstalk/Response.php:15-38 | The patterns are not anchored, so `preg_match` finds a keyword anywhere in the reply, and an earlier table entry wins even when it occurs only in a job body. | `"RESERVED 1 10\r\nBAD_FORMAT\r\n"` parses with status `BAD_FORMAT` and no id. | Each pattern matches at the start of the reply (`/^.../`), so the reply is `RESERVED` with id 1, bytes 10 and its body. | not executed | Response.BodyOverridesStatus | Anchored.AnchoredReserved |
| net/beanstalk/Response.php:21 | `BURIED` needs an id, but beanstalkd answers `release` and `bury` with a bare `BURIED`; no entry recognises it. | `"BURIED\r\n"` matches no entry, so the parse is null. | A bare `BURIED` entry after the numbered one, as the table has for `KICKED`. | not executed | Response.BuriedBare | Anchored.AnchoredBuried |
