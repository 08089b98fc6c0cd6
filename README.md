# ses-forwarder, modelled in Dafny

ses-forwarder is an AWS Lambda handler for Amazon SES receipt rules. SES stores
each incoming message in S3 and invokes the handler with one record per
message. For each record the handler:

1. bounces the message if DMARC failed under a `reject` policy, and stops
   there unless SES answers the bounce without a message id;
2. drops it if the SPF, DKIM, spam or virus verdict is `FAIL`;
3. otherwise fetches the stored original from S3;
4. rewrites its headers (`headerBuffer`): a new `From` naming the original
   sender in front of the relay's own sender address, a synthesized
   `Reply-To`, a fixed list of kept headers, and an
   `X-SES-Forwarder-Original` link back to the stored copy;
5. sends the result through SES to the forwarding address.

Its configuration comes from five required environment variables. A missing
one is reported together with every other missing one.

The model has five modules, one `.dfy` file each:

- `wrappers.dfy` holds `Option` and `Result`.
- `text.dfy` (module `Text`) holds the `strings` functions the handler uses: concatenation, `Join`, `Replace` with n = 1, and `ToUpper`.
- `headers.dfy` (module `Headers`) models `handler/header_buffer.go`. The buffer is the class `HeaderBuffer`, with a sticky error. Its methods are proved against the pure functions `Put`, `PutAll` and `Rewrite`.
- `config.dfy` (module `Config`) models `handler/options.go`. The `environment` is the class `Environment`. `Assign` and `LoadOptions` are proved against `Undefined`.
- `handler.dfy` (module `Forwarder`) models `handler/handler.go`. The class `Handler` keeps the log lines it printed and the requests it made to S3 and SES. Its methods are proved against the pure functions `DmarcBounce`, `Validation`, `Fetch`, `Updated`, `Forward`, `Outcome`, `BatchLog` and `BatchCalls`.

The outside world enters as function-typed parameters:

- S3 `GetObject` followed by reading the body;
- SES `SendBounce`;
- SESv2 `SendEmail`;
- `mail.ReadMessage` and `mail.ParseAddress`;
- the header buffer's `io.Writer`;
- `os.Getenv`.

The clock is passed in as a time in nanoseconds.

## Model

| member | source | states |
|---|---|---|
| Headers.PutAllSticky | handler/header_buffer.go:107-111 | once the buffer's error is set, no further write changes what was written or the error |
| Headers.PutAllAppend | handler/header_buffer.go:107-111 | writing `a` then `b` leaves the same state as writing `a + b` |
| Headers.PutAllAccepted | handler/header_buffer.go:107-111 | when the writer accepts every chunk, the chunks arrive whole and in order and no error is set |
| Headers.PutAllFirstFailure | handler/header_buffer.go:107-111 | on the first failing write, the chunks before it have arrived, nothing after it has, and the error is that writer's error |
| Headers.PutAllFailsIff | handler/header_buffer.go:107-111 | a run of writes ends with an error iff one was already set or some chunk's write fails |
| Headers.HeaderBuffer.constructor | handler/header_buffer.go:10-13 | a new buffer has written nothing and holds no error |
| Headers.HeaderBuffer.Write | handler/header_buffer.go:107-111 | `write` hands the chunk to the writer only while no error is set; with an error set, the state is unchanged |
| Headers.HeaderLines | handler/header_buffer.go:97-105 | one `Name: value` CRLF line per value, in order, with the name `Mime-Version` spelled `MIME-Version` |
| Headers.HeaderBuffer.WriteHeader | handler/header_buffer.go:97-105 | `writeHeader` leaves the state of writing exactly those lines, in order |
| Headers.KeptLinesAppend | handler/header_buffer.go:38-42 | each listed header adds its lines after those of the earlier ones, and an absent one adds nothing |
| Headers.KeptLinesAgree | handler/header_buffer.go:38-42 | two header sections that agree on the listed names keep the same lines |
| Headers.NewFromAddress | handler/header_buffer.go:67-88 | an unparseable From gives `couldn't parse From address <from>: <cause>`; otherwise the display name and " - " when there is a name, the address with only its first "@" replaced by " at ", and the sender in angle brackets |
| Text.ReplaceFirst | handler/header_buffer.go:84 | only the first occurrence of the character is replaced; a string without it is unchanged |
| Headers.FromLinesText | handler/header_buffer.go:52-65 | when From parses, `writeFromHeader` writes the new From line, followed by a `Reply-To` carrying the original From exactly when the original has no Reply-To |
| Headers.HeaderBuffer.WriteFromHeader | handler/header_buffer.go:52-65 | `writeFromHeader` assigns the error field from the From parse, which also clears an earlier error, and writes the From part only when the parse succeeds |
| Headers.UnparseableFromWritesNothing | handler/header_buffer.go:52-59 | an unparseable From aborts the whole rewrite: nothing is written and the error names the From value and the cause |
| Headers.LinkLinesText | handler/header_buffer.go:90-95 | the provenance header is `X-SES-Forwarder-Original: s3://<bucket>/<key>` and CRLF |
| Headers.HeaderBuffer.WriteFinalLinkHeader | handler/header_buffer.go:90-95 | the buffer ends up as if that one line had been written |
| Headers.OutputLinesText | handler/header_buffer.go:35-45 | the attempted lines spell the From part, the kept headers, the link and one blank line, in that order |
| Headers.RewriteWritesOutputLines | handler/header_buffer.go:35-50 | the rewrite either writes the attempted lines in order through the sticky buffer, or stops at the From parse error having written nothing |
| Headers.RewriteLayout | handler/header_buffer.go:35-50 | with a writer that never fails, the output is exactly the new From, the optional Reply-To, the kept headers in list order, the link and a blank line, and no error is set |
| Headers.RewriteStopsAtFailedWrite | handler/header_buffer.go:35-50 | when a write fails, the output holds exactly the lines before it, and the error is the writer's error |
| Headers.RewriteFailsIff | handler/header_buffer.go:46-49 | `WriteUpdatedHeaders` returns an error iff the From parse failed or some write failed |
| Headers.RewriteIgnoresOtherHeaders | handler/header_buffer.go:35-42 | headers other than From, Reply-To and the kept list have no effect on the output |
| Headers.HeaderBuffer.WriteUpdatedHeaders | handler/header_buffer.go:35-50 | the buffer ends in the rewrite's state, and the returned error is the prefixed buffer error, or none |
| Text.Upper | handler/handler.go:105-106 | `strings.ToUpper`, rune by rune, keeping the length |
| Text.UpperMatchesIgnoringCase | handler/handler.go:105-108 | comparing the upper-cased text with an upper-case ASCII word is the same as matching the word in any mixture of cases |
| Forwarder.IsSpam | handler/handler.go:146-152 | spam iff any of the SPF, DKIM, spam or virus verdicts spells FAIL in any case |
| Forwarder.ShouldBounce | handler/handler.go:105-110 | a bounce is due iff the DMARC verdict spells FAIL and the policy spells REJECT, in any case |
| Forwarder.TruncateToSecond | handler/handler.go:127 | the arrival date is a whole second, at most the current time and less than one second before it |
| Forwarder.BouncedRecipientList | handler/handler.go:112-118 | one entry per recipient, in order, each marked ContentRejected |
| Forwarder.Handler.BounceIfDmarcFails | handler/handler.go:102-143 | without a bounce due, nothing is sent and the id is empty; otherwise exactly one bounce request goes to SES (sender `mailer-daemon@<domain>`, reporting MTA `dns; <domain>`, the fixed explanation, every recipient), and its id or a `DMARC bounce failed: ` error is returned |
| Forwarder.ValidationVerdict | handler/handler.go:88-99 | a record passes iff it is not spam and no bounce was due or the bounce came back with an empty id; a bounce is requested iff one is due; a bounce failure comes before a bounce id, which comes before spam |
| Forwarder.Handler.ValidateMessage | handler/handler.go:88-99 | `validateMessage` returns no error exactly when validation passes, otherwise that verdict's error, and requests only the bounce |
| Forwarder.SpamIsDropped | handler/handler.go:95-96 | spam that passes DMARC is dropped with `marked as spam, ignoring`, and no request is made to S3 or SES |
| Forwarder.DmarcRejectionStopsRecord | handler/handler.go:91-94 | a DMARC rejection whose bounce failed or came back with a non-empty id ends the record with an error and only the bounce request |
| Forwarder.BounceWithoutIdStillForwards | handler/handler.go:91-98 | a bounce that SES accepts with an empty id does not stop the record: a record that is not spam passes validation with only the bounce requested, and its original is then fetched from S3 |
| Forwarder.Handler.GetOriginalMessage | handler/handler.go:154-170 | one GetObject request for the key in the configured bucket; its failure is reported as `failed to get original message: ` and the cause |
| Forwarder.UpdatedErrors | handler/handler.go:172-186 | `updateMessage` fails iff the message does not parse (`failed to parse message: `) or its From does not (the prefixed header-buffer error naming the From value) |
| Forwarder.UpdatedLayout | handler/handler.go:172-193 | the forwarded message is the new From, the optional Reply-To, the kept headers, the link to `s3://<bucket>/<key>`, a blank line and the original body |
| Forwarder.Handler.UpdateMessage | handler/handler.go:172-193 | `updateMessage` returns the rewrite of the message into a fresh buffer, as the two lemmas above describe |
| Forwarder.Handler.ForwardMessage | handler/handler.go:195-215 | one SendEmail request to the forwarding address alone, with the rewritten message; its failure is reported as `send failed: ` and the cause |
| Forwarder.ForwardedRecordTrail | handler/handler.go:75-85 | a forwarded record passed validation, and its last two requests are the fetch of its key from the configured bucket and the send of the rewrite to the forwarding address, whose id is reported |
| Forwarder.ForwardedIffAllStagesSucceed | handler/handler.go:75-85 | a record is forwarded iff validation, the fetch, the rewrite and the send all succeed |
| Forwarder.Handler.LogFailure | handler/handler.go:69-71 | `logErr` adds one `failed to forward message <key>: <err>` line and makes no request |
| Forwarder.Handler.ProcessMessage | handler/handler.go:65-86 | `processMessage` logs the announcement and then the record's outcome line, and makes exactly the requests of the stages it reaches, in order |
| Forwarder.OutcomeCallsPermitted | handler/handler.go:65-86 | a record's processing requests only the configured bucket, bounces only from the domain's mailer-daemon, and sends only to the forwarding address |
| Forwarder.BatchCallsPermitted | handler/handler.go:56-58 | the same holds for every request over a whole event |
| Forwarder.BatchLogShape | handler/handler.go:56-58 | an event's log has two lines per record, in record order: the announcement, then the outcome |
| Forwarder.BatchLogAppend | handler/handler.go:56-58 | records are processed independently: the log and the requests of `a + b` are those of `a` followed by those of `b` |
| Forwarder.Handler.constructor | handler/handler.go:41-47 | a new handler holds its options and services, has logged nothing and has made no request |
| Forwarder.Handler.HandleEvent | handler/handler.go:49-63 | an event without records is an error and changes nothing; otherwise every record is processed in order and the rule set stops |
| Config.UndefinedEnvVarsError.Error | handler/options.go:17-20 | the message starts with `undefined environment variables: `; an empty list gives only the prefix, one name gives the prefix and the name, and every listed name appears |
| Config.ErrorAppendsName | handler/options.go:17-20 | one more name adds `, ` and that name at the end of the message |
| Config.UndefinedIsExactlyTheEmpty | handler/options.go:46-49 | a name is reported iff it is one of the names read and its value is empty |
| Config.Environment.constructor | handler/options.go:27-30 | a fresh environment has recorded no undefined variable |
| Config.Environment.Assign | handler/options.go:46-52 | `assign` reads the variable once; an empty value is appended to the undefined list and leaves the field as it was, and any other value becomes the field |
| Config.Environment.LoadOptions | handler/options.go:32-44 | the five variables are read once each, in order; the error is returned iff some are empty, and it lists exactly those in order; otherwise each option is its variable's value |
| Config.GetOptions | handler/options.go:22-25 | the options when every variable is set, otherwise one error listing every unset variable in read order |
| Config.NothingSetReportsAll | handler/options.go:32-44 | with nothing set, all five names are reported and the message is the prefix followed by the five names joined with `, ` |

## Left out

- Headers.HeaderBuffer.Write: the writer either takes a chunk whole or fails and takes none of it. An `io.Writer` that accepts part of a chunk and then reports an error is not modelled. The writer's answer also depends on the chunk alone, so a stateful `io.Writer`, such as one that fails once a byte limit is reached, is not modelled either.
- The services answer as functions of the request alone, each AWS call giving an id or an error text. Two identical requests within one event get identical answers, so a record delivered twice is logged with the same outcome, and the same forwarded id, both times. The real clients may answer each call differently.
- Forwarder.DmarcRejectionStopsRecord: does not cover a bounce that SES accepts without a message id. `aws.ToString` turns a nil id into "" (handler/handler.go:140), and `validateMessage` then falls through to the spam test (handler/handler.go:93-95). A message that is not spam is then forwarded although a bounce was sent, as `Forwarder.BounceWithoutIdStillForwards` states.
- Strings are sequences of characters, not bytes. `[]byte(s)` conversions and the message body's byte stream are not modelled.
- Text.Upper: maps the ASCII letters, plus the two non-ASCII runes whose upper case is ASCII (U+0131 and U+017F). Every other rune is left unchanged. This decides equality with `FAIL` and `REJECT` exactly as Go's `strings.ToUpper` does, but it is not the full Unicode mapping.
- `mail.ReadMessage` and `mail.ParseAddress` are parameters of the model. Their parsing and error texts are not modelled.
- `Header.Get` looks the key up as given. The canonicalization of header keys inside `net/mail` is part of the `ReadMessage` parameter.
- S3 `GetObject`, reading the body with `io.ReadAll`, and closing it form a single service call.
- A nil `MessageId` in an SES response is the empty string, as `aws.ToString` returns it.
- `context.Context` is not modelled. Neither are the AWS option functions.
- Log lines are the formatted text alone. The logger's prefix, timestamps and line endings are not modelled.
- The `%+v` rendering of an empty event is the constant text `&{Records:[]}`.
- One clock reading per `HandleEvent` call stands for every `time.Now()` the event's bounces make.
- `forwardMessage` sets the `ConfigurationSetName` field of its request from `Options.ConfigurationSet`. `Options` (handler/options.go:5-11) declares no such field, so the model's request has no configuration set.
- `updateMessage` builds its header input from three positional values (handler/handler.go:180-182), but `updateHeadersInput` has four fields. The model passes the configured bucket as `bucketName` and the message key as `msgKey`, which gives the same `s3://<bucket>/<key>` link.
- The header-buffer error prefix is `error while updating email headers: `, as in handler/header_buffer.go:47. handler/header_buffer_test.go:209 and handler/handler_test.go:422 expect `error updating email headers: `; the model follows the code.
- lambda/main.go is not part of this model. It wires the AWS SDK clients, the logger and `os.Getenv` into the handler.
