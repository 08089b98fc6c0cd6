/**
 * The Lambda handler: for every record of an SES receipt event it bounces
 * mail whose DMARC check failed under a reject policy, drops spam, fetches
 * the stored original from S3, rewrites its headers and sends the result to
 * the forwarding address through SES.
 *
 * S3, SES and the MIME parser are parameters (`Services`); the handler
 * records every request it hands to them in `calls`, and its log lines in
 * `log`.
 */
module Forwarder {
  import opened Wrappers
  import opened Text
  import opened Headers
  import opened Config

  /** The verdicts SES attaches to a received message, and its recipients. */
  datatype Receipt = Receipt(
    recipients: seq<string>,
    spfVerdict: string,
    dkimVerdict: string,
    spamVerdict: string,
    virusVerdict: string,
    dmarcVerdict: string,
    dmarcPolicy: string)

  /** One record of the event: the SES message id and its receipt. */
  datatype SesInfo = SesInfo(messageId: string, receipt: Receipt)

  datatype BounceType = ContentRejected

  datatype BouncedRecipient = BouncedRecipient(recipient: string, bounceType: BounceType)

  /** The `SendBounce` request; `arrivalDate` is in nanoseconds. */
  datatype BounceRequest = BounceRequest(
    bounceSender: string,
    originalMessageId: string,
    reportingMta: string,
    arrivalDate: nat,
    explanation: string,
    recipientInfo: seq<BouncedRecipient>)

  /** The `SendEmail` request: raw message and destination. */
  datatype EmailRequest = EmailRequest(toAddresses: seq<string>, rawMessage: string)

  /** A message as `mail.ReadMessage` returns it. */
  datatype Message = Message(header: Header, body: string)

  /** A request handed to S3 or SES. */
  datatype Call =
    | GetObject(bucket: string, key: string)
    | SendBounce(bounce: BounceRequest)
    | SendEmail(email: EmailRequest)

  /**
   * The collaborators: S3 `GetObject` with the body read to the end, SES
   * `SendBounce`, SES v2 `SendEmail` (each answering a message id or the
   * cause of failure), `mail.ReadMessage` and `mail.ParseAddress`. Each
   * answers as a function of its request alone.
   */
  datatype Services = Services(
    getObject: (string, string) -> Result<string, string>,
    sendBounce: BounceRequest -> Result<string, string>,
    sendEmail: EmailRequest -> Result<string, string>,
    readMessage: string -> Result<Message, string>,
    parseAddress: AddressParser)

  datatype Disposition = StopRuleSet

  /** What a stage returns, with the requests it made. */
  datatype Step<T> = Step(result: Result<T, string>, calls: seq<Call>)

  const NanosPerSecond: nat := 1_000_000_000

  const DmarcExplanation: string :=
    "Unauthenticated email is not accepted due to the sending domain's DMARC policy."

  /** The error for an event without records, as `%+v` prints such an event. */
  const NoRecordsError: string := "SES event contained no records: &{Records:[]}"

  const SpamError: string := "marked as spam, ignoring"

  // ---------------------------------------------------------------------
  // Verdicts

  /** `isSpam`: any of the SPF, DKIM, spam or virus verdicts is FAIL, in any case. */
  function IsSpam(r: Receipt): (spam: bool)
    ensures spam <==> (SpellsIgnoringCase(r.spfVerdict, "FAIL") || SpellsIgnoringCase(r.dkimVerdict, "FAIL")
                       || SpellsIgnoringCase(r.spamVerdict, "FAIL") || SpellsIgnoringCase(r.virusVerdict, "FAIL"))
  {
    UpperMatchesIgnoringCase(r.spfVerdict, "FAIL");
    UpperMatchesIgnoringCase(r.dkimVerdict, "FAIL");
    UpperMatchesIgnoringCase(r.spamVerdict, "FAIL");
    UpperMatchesIgnoringCase(r.virusVerdict, "FAIL");
    Upper(r.spfVerdict) == "FAIL" || Upper(r.dkimVerdict) == "FAIL"
    || Upper(r.spamVerdict) == "FAIL" || Upper(r.virusVerdict) == "FAIL"
  }

  /** The test at the head of `bounceIfDmarcFails`: DMARC FAIL under a REJECT policy, in any case. */
  function ShouldBounce(r: Receipt): (bounce: bool)
    ensures bounce <==> SpellsIgnoringCase(r.dmarcVerdict, "FAIL") && SpellsIgnoringCase(r.dmarcPolicy, "REJECT")
  {
    UpperMatchesIgnoringCase(r.dmarcVerdict, "FAIL");
    UpperMatchesIgnoringCase(r.dmarcPolicy, "REJECT");
    Upper(r.dmarcVerdict) == "FAIL" && Upper(r.dmarcPolicy) == "REJECT"
  }

  /** `Time.Truncate(time.Second)` on a time in nanoseconds. */
  function TruncateToSecond(t: nat): (r: nat)
    ensures r % NanosPerSecond == 0
    ensures r <= t < r + NanosPerSecond
  {
    t - t % NanosPerSecond
  }

  // ---------------------------------------------------------------------
  // The stages, as functions of the options, the services and the clock

  /** The S3 key of a record's stored message. */
  function MessageKey(o: Options, info: SesInfo): string
  {
    o.incomingPrefix + "/" + info.messageId
  }

  /** The bounce sent for a record: every recipient rejected for content. */
  function BounceRequestFor(o: Options, info: SesInfo, now: nat): BounceRequest
  {
    var rs := info.receipt.recipients;
    BounceRequest(
      "mailer-daemon@" + o.emailDomainName,
      info.messageId,
      "dns; " + o.emailDomainName,
      TruncateToSecond(now),
      DmarcExplanation,
      seq(|rs|, i requires 0 <= i < |rs| => BouncedRecipient(rs[i], ContentRejected)))
  }

  /** `bounceIfDmarcFails`: the bounce's message id ("" when none is sent), or the failure. */
  function DmarcBounce(o: Options, svc: Services, now: nat, info: SesInfo): Step<string>
  {
    if !ShouldBounce(info.receipt) then Step(Ok(""), [])
    else
      var req := BounceRequestFor(o, info, now);
      match svc.sendBounce(req)
      case Err(e) => Step(Err("DMARC bounce failed: " + e), [SendBounce(req)])
      case Ok(id) => Step(Ok(id), [SendBounce(req)])
  }

  /** `validateMessage`: a failed bounce, then a sent bounce, then spam, each stops the record. */
  function Validation(o: Options, svc: Services, now: nat, info: SesInfo): Step<()>
  {
    var b := DmarcBounce(o, svc, now, info);
    var result :=
      if b.result.Err? then Err(b.result.error)
      else if b.result.value != "" then Err("DMARC bounced with bounce ID: " + b.result.value)
      else if IsSpam(info.receipt) then Err(SpamError)
      else Ok(());
    Step(result, b.calls)
  }

  /**
   * The record passes exactly when it is not spam and no bounce was due or
   * the bounce went out without an id; a bounce is sent exactly when DMARC
   * failed under a reject policy.
   */
  lemma ValidationVerdict(o: Options, svc: Services, now: nat, info: SesInfo)
    ensures Validation(o, svc, now, info).result.Ok? <==>
      !IsSpam(info.receipt)
      && (!ShouldBounce(info.receipt) || svc.sendBounce(BounceRequestFor(o, info, now)) == Ok(""))
    ensures Validation(o, svc, now, info).calls != [] <==> ShouldBounce(info.receipt)
    ensures forall c :: c in Validation(o, svc, now, info).calls ==> c == SendBounce(BounceRequestFor(o, info, now))
    // the precedence: a failed bounce, then a sent bounce, then spam
    ensures ShouldBounce(info.receipt) && svc.sendBounce(BounceRequestFor(o, info, now)).Err?
            ==> Validation(o, svc, now, info).result == Err("DMARC bounce failed: " + svc.sendBounce(BounceRequestFor(o, info, now)).error)
    ensures ShouldBounce(info.receipt) && svc.sendBounce(BounceRequestFor(o, info, now)).Ok?
            && svc.sendBounce(BounceRequestFor(o, info, now)).value != ""
            ==> Validation(o, svc, now, info).result == Err("DMARC bounced with bounce ID: " + svc.sendBounce(BounceRequestFor(o, info, now)).value)
    ensures ((!ShouldBounce(info.receipt) || svc.sendBounce(BounceRequestFor(o, info, now)) == Ok(""))
             && IsSpam(info.receipt)) ==> Validation(o, svc, now, info).result == Err(SpamError)
  {
  }

  /** `getOriginalMessage`: the stored message under `key` in the configured bucket. */
  function Fetch(o: Options, svc: Services, key: string): Step<string>
  {
    var call := GetObject(o.bucketName, key);
    match svc.getObject(o.bucketName, key)
    case Err(e) => Step(Err("failed to get original message: " + e), [call])
    case Ok(msg) => Step(Ok(msg), [call])
  }

  /** The writer behind a `bytes.Buffer`: it takes every chunk. */
  const AcceptAll: Writer := (chunk: string) => None

  /** The header-rewriting input `updateMessage` builds. */
  function RewriteInput(o: Options, m: Message, key: string): UpdateHeadersInput
  {
    UpdateHeadersInput(m.header, o.senderAddress, o.bucketName, key)
  }

  /** `updateMessage`: the rewritten header section followed by the untouched body. */
  function Updated(o: Options, svc: Services, orig: string, key: string): Result<string, string>
  {
    match svc.readMessage(orig)
    case Err(e) => Err("failed to parse message: " + e)
    case Ok(m) =>
      var s := Rewrite(BufferState("", None), RewriteInput(o, m, key), svc.parseAddress, AcceptAll);
      if s.err.Some? then Err(UpdateErrorPrefix + s.err.value) else Ok(s.written + m.body)
  }

  /** `forwardMessage`: the raw message sent to the forwarding address only. */
  function Forward(o: Options, svc: Services, msg: string): Step<string>
  {
    var req := EmailRequest([o.forwardingAddress], msg);
    match svc.sendEmail(req)
    case Err(e) => Step(Err("send failed: " + e), [SendEmail(req)])
    case Ok(id) => Step(Ok(id), [SendEmail(req)])
  }

  /**
   * `processMessage` without its log: the forwarded message's id, or the
   * error of the first stage that failed; no later stage runs after it.
   */
  function Outcome(o: Options, svc: Services, now: nat, info: SesInfo): Step<string>
  {
    var key := MessageKey(o, info);
    var v := Validation(o, svc, now, info);
    if v.result.Err? then Step(Err(v.result.error), v.calls)
    else
      var f := Fetch(o, svc, key);
      if f.result.Err? then Step(Err(f.result.error), v.calls + f.calls)
      else
        var u := Updated(o, svc, f.result.value, key);
        if u.Err? then Step(Err(u.error), v.calls + f.calls)
        else
          var s := Forward(o, svc, u.value);
          Step(s.result, v.calls + f.calls + s.calls)
  }

  /**
   * A DMARC rejection stops the record after the bounce when the bounce
   * failed or SES answered it with a message id.
   */
  lemma DmarcRejectionStopsRecord(o: Options, svc: Services, now: nat, info: SesInfo)
    requires ShouldBounce(info.receipt)
    requires svc.sendBounce(BounceRequestFor(o, info, now)) != Ok("")
    ensures Outcome(o, svc, now, info).result.Err?
    ensures Outcome(o, svc, now, info).calls == [SendBounce(BounceRequestFor(o, info, now))]
  {
  }

  /**
   * A bounce that SES accepts without a message id (`aws.ToString` of a nil
   * id is "") does not stop the record: a message that is not spam passes
   * validation with the bounce already sent, and is then fetched from S3 to
   * be forwarded.
   */
  lemma BounceWithoutIdStillForwards(o: Options, svc: Services, now: nat, info: SesInfo)
    requires ShouldBounce(info.receipt) && !IsSpam(info.receipt)
    requires svc.sendBounce(BounceRequestFor(o, info, now)) == Ok("")
    ensures Validation(o, svc, now, info) == Step(Ok(()), [SendBounce(BounceRequestFor(o, info, now))])
    ensures var calls := Outcome(o, svc, now, info).calls;
      && |calls| >= 2
      && calls[0] == SendBounce(BounceRequestFor(o, info, now))
      && calls[1] == GetObject(o.bucketName, MessageKey(o, info))
  {
  }

  /** Spam that passes DMARC is dropped without touching S3 or SES. */
  lemma SpamIsDropped(o: Options, svc: Services, now: nat, info: SesInfo)
    requires !ShouldBounce(info.receipt) && IsSpam(info.receipt)
    ensures Outcome(o, svc, now, info) == Step(Err(SpamError), [])
  {
  }

  /**
   * A forwarded record passed validation, was fetched from its key in the
   * configured bucket, rewritten, and sent to the forwarding address, and
   * SES accepted it under the id that is reported.
   */
  lemma ForwardedRecordTrail(o: Options, svc: Services, now: nat, info: SesInfo)
    requires Outcome(o, svc, now, info).result.Ok?
    ensures var out := Outcome(o, svc, now, info);
      var key := MessageKey(o, info);
      var orig := svc.getObject(o.bucketName, key);
      var n := |out.calls|;
      && Validation(o, svc, now, info).result.Ok?
      && orig.Ok?
      && Updated(o, svc, orig.value, key).Ok?
      && n >= 2
      && out.calls[n - 2] == GetObject(o.bucketName, key)
      && out.calls[n - 1] == SendEmail(EmailRequest([o.forwardingAddress], Updated(o, svc, orig.value, key).value))
      && svc.sendEmail(out.calls[n - 1].email) == Ok(out.result.value)
  {
  }

  /**
   * A record is forwarded exactly when validation, the fetch, the rewrite
   * and the send all succeed.
   */
  lemma ForwardedIffAllStagesSucceed(o: Options, svc: Services, now: nat, info: SesInfo)
    ensures var key := MessageKey(o, info);
      var orig := svc.getObject(o.bucketName, key);
      Outcome(o, svc, now, info).result.Ok? <==>
        && Validation(o, svc, now, info).result.Ok?
        && orig.Ok?
        && Updated(o, svc, orig.value, key).Ok?
        && svc.sendEmail(EmailRequest([o.forwardingAddress], Updated(o, svc, orig.value, key).value)).Ok?
  {
  }

  /** The line `processMessage` logs last for a record. */
  function TerminalLine(key: string, result: Result<string, string>): string
  {
    match result
    case Ok(id) => "successfully forwarded message " + key + " as " + id
    case Err(e) => "failed to forward message " + key + ": " + e
  }

  /** The two lines `processMessage` logs for a record. */
  function RecordLog(o: Options, svc: Services, now: nat, info: SesInfo): seq<string>
  {
    var key := MessageKey(o, info);
    ["forwarding message " + key, TerminalLine(key, Outcome(o, svc, now, info).result)]
  }

  /** The log of a batch of records, processed in order. */
  function BatchLog(o: Options, svc: Services, now: nat, records: seq<SesInfo>): seq<string>
    decreases |records|
  {
    if records == [] then []
    else BatchLog(o, svc, now, records[..|records| - 1]) + RecordLog(o, svc, now, records[|records| - 1])
  }

  /** The requests of a batch of records, in order. */
  function BatchCalls(o: Options, svc: Services, now: nat, records: seq<SesInfo>): seq<Call>
    decreases |records|
  {
    if records == [] then []
    else BatchCalls(o, svc, now, records[..|records| - 1]) + Outcome(o, svc, now, records[|records| - 1]).calls
  }

  // ---------------------------------------------------------------------
  // Properties of a batch

  /**
   * The log holds two lines per record, in record order: the announcement
   * and then the outcome.
   */
  lemma {:induction false} BatchLogShape(o: Options, svc: Services, now: nat, records: seq<SesInfo>)
    ensures |BatchLog(o, svc, now, records)| == 2 * |records|
    ensures forall i :: 0 <= i < |records| ==>
      BatchLog(o, svc, now, records)[2 * i] == "forwarding message " + MessageKey(o, records[i])
      && BatchLog(o, svc, now, records)[2 * i + 1]
         == TerminalLine(MessageKey(o, records[i]), Outcome(o, svc, now, records[i]).result)
    decreases |records|
  {
    if records != [] {
      var n := |records|;
      var front := records[..n - 1];
      var earlier := BatchLog(o, svc, now, front);
      var last := RecordLog(o, svc, now, records[n - 1]);
      BatchLogShape(o, svc, now, front);
      assert BatchLog(o, svc, now, records) == earlier + last;
      forall i | 0 <= i < n
        ensures BatchLog(o, svc, now, records)[2 * i] == "forwarding message " + MessageKey(o, records[i])
        ensures BatchLog(o, svc, now, records)[2 * i + 1]
                == TerminalLine(MessageKey(o, records[i]), Outcome(o, svc, now, records[i]).result)
      {
        if i < n - 1 {
          assert records[i] == front[i];
        }
        assert (earlier + last)[2 * i] == if 2 * i < |earlier| then earlier[2 * i] else last[2 * i - |earlier|];
        assert (earlier + last)[2 * i + 1]
               == if 2 * i + 1 < |earlier| then earlier[2 * i + 1] else last[2 * i + 1 - |earlier|];
      }
    }
  }

  /** One more record appends its two lines and its requests. */
  lemma BatchStep(o: Options, svc: Services, now: nat, records: seq<SesInfo>, i: nat)
    requires i < |records|
    ensures BatchLog(o, svc, now, records[..i + 1]) == BatchLog(o, svc, now, records[..i]) + RecordLog(o, svc, now, records[i])
    ensures BatchCalls(o, svc, now, records[..i + 1]) == BatchCalls(o, svc, now, records[..i]) + Outcome(o, svc, now, records[i]).calls
  {
    assert records[..i + 1][..i] == records[..i];
  }

  /**
   * `a + (b + c) == a + b + c`, as a lemma: asserted inline next to the
   * batch functions, the solver unfolds them and runs out of resource.
   */
  lemma AppendAssoc<T>(a: seq<T>, b: seq<T>, c: seq<T>)
    ensures a + (b + c) == (a + b) + c
  {
  }

  /** `s + [a] + [b] == s + [a, b]`, as a lemma for the same reason. */
  lemma AppendTwo<T>(s: seq<T>, a: T, b: T)
    ensures s + [a] + [b] == s + [a, b]
  {
  }

  /** Records are processed independently: a batch's log and requests are its parts' ones, in order. */
  lemma {:induction false} BatchLogAppend(o: Options, svc: Services, now: nat, a: seq<SesInfo>, b: seq<SesInfo>)
    ensures BatchLog(o, svc, now, a + b) == BatchLog(o, svc, now, a) + BatchLog(o, svc, now, b)
    ensures BatchCalls(o, svc, now, a + b) == BatchCalls(o, svc, now, a) + BatchCalls(o, svc, now, b)
    decreases |b|
  {
    if b != [] {
      var n := |b|;
      var front := b[..n - 1];
      assert (a + b)[..|a + b| - 1] == a + front;
      assert (a + b)[|a + b| - 1] == b[n - 1];
      BatchLogAppend(o, svc, now, a, front);
      AppendAssoc(BatchLog(o, svc, now, a), BatchLog(o, svc, now, front), RecordLog(o, svc, now, b[n - 1]));
      AppendAssoc(BatchCalls(o, svc, now, a), BatchCalls(o, svc, now, front), Outcome(o, svc, now, b[n - 1]).calls);
    } else {
      assert a + b == a;
    }
  }

  /** A request the handler may make: only the configured bucket, bounce sender and forwarding address. */
  predicate Permitted(o: Options, c: Call)
  {
    match c
    case GetObject(bucket, _) => bucket == o.bucketName
    case SendBounce(req) => req.bounceSender == "mailer-daemon@" + o.emailDomainName
    case SendEmail(req) => req.toAddresses == [o.forwardingAddress]
  }

  /** Whatever the event holds, the handler contacts only the configured places. */
  lemma {:induction false} BatchCallsPermitted(o: Options, svc: Services, now: nat, records: seq<SesInfo>)
    ensures forall c :: c in BatchCalls(o, svc, now, records) ==> Permitted(o, c)
    decreases |records|
  {
    if records != [] {
      var n := |records|;
      BatchCallsPermitted(o, svc, now, records[..n - 1]);
      OutcomeCallsPermitted(o, svc, now, records[n - 1]);
    }
  }

  lemma OutcomeCallsPermitted(o: Options, svc: Services, now: nat, info: SesInfo)
    ensures forall c :: c in Outcome(o, svc, now, info).calls ==> Permitted(o, c)
  {
    var key := MessageKey(o, info);
    var v := Validation(o, svc, now, info);
    var f := Fetch(o, svc, key);
    assert forall c :: c in v.calls ==> Permitted(o, c) by {
      assert v.calls == DmarcBounce(o, svc, now, info).calls;
    }
    assert forall c :: c in f.calls ==> Permitted(o, c);
    if v.result.Ok? && f.result.Ok? && Updated(o, svc, f.result.value, key).Ok? {
      var s := Forward(o, svc, Updated(o, svc, f.result.value, key).value);
      assert forall c :: c in s.calls ==> Permitted(o, c);
      assert Outcome(o, svc, now, info).calls == v.calls + f.calls + s.calls;
    }
  }

  // ---------------------------------------------------------------------
  // The forwarded message

  /**
   * `updateMessage` fails exactly when the message does not parse or its
   * From does not, and then says which.
   */
  lemma UpdatedErrors(o: Options, svc: Services, orig: string, key: string)
    ensures svc.readMessage(orig).Err? ==>
      Updated(o, svc, orig, key) == Err("failed to parse message: " + svc.readMessage(orig).error)
    ensures svc.readMessage(orig).Ok? ==>
      var from := Get(svc.readMessage(orig).value.header, "From");
      (Updated(o, svc, orig, key).Ok? <==> svc.parseAddress(from).Ok?)
      && (svc.parseAddress(from).Err? ==>
            Updated(o, svc, orig, key)
            == Err(UpdateErrorPrefix + ("couldn't parse From address " + from + ": " + svc.parseAddress(from).error)))
  {
    if svc.readMessage(orig).Ok? {
      var m := svc.readMessage(orig).value;
      var input := RewriteInput(o, m, key);
      if svc.parseAddress(Get(m.header, "From")).Err? {
        UnparseableFromWritesNothing(BufferState("", None), input, svc.parseAddress, AcceptAll);
      } else {
        RewriteLayout(BufferState("", None), input, svc.parseAddress, AcceptAll);
      }
    }
  }

  /**
   * The message sent on: the new From, a Reply-To carrying the original
   * From when there was none, the kept headers, the link to the stored
   * original, a blank line and the original body.
   */
  lemma UpdatedLayout(o: Options, svc: Services, orig: string, key: string)
    requires svc.readMessage(orig).Ok?
    requires svc.parseAddress(Get(svc.readMessage(orig).value.header, "From")).Ok?
    ensures var m := svc.readMessage(orig).value;
      var h := m.header;
      var from := Get(h, "From");
      Updated(o, svc, orig, key) == Ok(
        "From: " + NewFromAddress(from, o.senderAddress, svc.parseAddress).value + CRLF
        + (if Get(h, "Reply-To") == "" then "Reply-To: " + from + CRLF else "")
        + Concat(KeptLines(h, KeepHeaders))
        + ("X-SES-Forwarder-Original: s3://" + o.bucketName + "/" + key + CRLF)
        + CRLF
        + m.body)
  {
    var m := svc.readMessage(orig).value;
    var input := RewriteInput(o, m, key);
    RewriteLayout(BufferState("", None), input, svc.parseAddress, AcceptAll);
    var s := Rewrite(BufferState("", None), input, svc.parseAddress, AcceptAll);
    assert Updated(o, svc, orig, key) == Ok(s.written + m.body);
    var h := m.header;
    var from := Get(h, "From");
    var text :=
      "From: " + NewFromAddress(from, o.senderAddress, svc.parseAddress).value + CRLF
      + (if Get(h, "Reply-To") == "" then "Reply-To: " + from + CRLF else "")
      + Concat(KeptLines(h, KeepHeaders))
      + ("X-SES-Forwarder-Original: s3://" + o.bucketName + "/" + key + CRLF)
      + CRLF;
    assert input.headers == h && input.senderAddress == o.senderAddress;
    assert input.bucketName == o.bucketName && input.msgKey == key;
    assert s.written == "" + text;
    assert "" + text == text;
  }

  // ---------------------------------------------------------------------
  // The handler

  /** `Handler`: the options, the services, and what it has logged and requested so far. */
  class Handler {
    const options: Options
    const services: Services
    var log: seq<string>
    var calls: seq<Call>

    constructor (options: Options, services: Services)
      ensures this.options == options && this.services == services
      ensures log == [] && calls == []
    {
      this.options := options;
      this.services := services;
      log := [];
      calls := [];
    }

    /**
     * `HandleEvent`: an event without records is an error; otherwise every
     * record is processed in order and the rule set stops.
     */
    method HandleEvent(records: seq<SesInfo>, now: nat) returns (r: Result<Disposition, string>)
      modifies this
      ensures records == [] ==> r == Err(NoRecordsError) && log == old(log) && calls == old(calls)
      ensures records != [] ==>
        && r == Ok(StopRuleSet)
        && log == old(log) + BatchLog(options, services, now, records)
        && calls == old(calls) + BatchCalls(options, services, now, records)
    {
      if |records| == 0 {
        return Err(NoRecordsError);
      }
      for i := 0 to |records|
        invariant log == old(log) + BatchLog(options, services, now, records[..i])
        invariant calls == old(calls) + BatchCalls(options, services, now, records[..i])
      {
        ProcessMessage(records[i], now);
        BatchStep(options, services, now, records, i);
        AppendAssoc(old(log), BatchLog(options, services, now, records[..i]), RecordLog(options, services, now, records[i]));
        AppendAssoc(old(calls), BatchCalls(options, services, now, records[..i]), Outcome(options, services, now, records[i]).calls);
      }
      assert records[..|records|] == records;
      return Ok(StopRuleSet);
    }

    /** `processMessage`: announce, run the stages until one fails, log the outcome. */
    method ProcessMessage(info: SesInfo, now: nat)
      modifies this
      ensures log == old(log) + RecordLog(options, services, now, info)
      ensures calls == old(calls) + Outcome(options, services, now, info).calls
    {
      var key := MessageKey(options, info);
      ghost var start, out := log, Outcome(options, services, now, info);
      var announce := "forwarding message " + key;
      log := log + [announce];
      var err := ValidateMessage(info, now);
      ghost var v := Validation(options, services, now, info);
      if err.Some? {
        assert out == Step(Err(err.value), v.calls);
        LogFailure(key, err.value);
        AppendTwo(start, announce, TerminalLine(key, out.result));
        return;
      }
      var orig := GetOriginalMessage(key);
      ghost var f := Fetch(options, services, key);
      if orig.Err? {
        assert out == Step(Err(orig.error), v.calls + f.calls);
        LogFailure(key, orig.error);
        AppendTwo(start, announce, TerminalLine(key, out.result));
        AppendAssoc(old(calls), v.calls, f.calls);
        return;
      }
      var updated := UpdateMessage(orig.value, key);
      if updated.Err? {
        assert out == Step(Err(updated.error), v.calls + f.calls);
        LogFailure(key, updated.error);
        AppendTwo(start, announce, TerminalLine(key, out.result));
        AppendAssoc(old(calls), v.calls, f.calls);
        return;
      }
      var fwdId := ForwardMessage(updated.value);
      ghost var s := Forward(options, services, updated.value);
      assert out == Step(s.result, v.calls + f.calls + s.calls);
      if fwdId.Err? {
        LogFailure(key, fwdId.error);
      } else {
        log := log + ["successfully forwarded message " + key + " as " + fwdId.value];
      }
      AppendTwo(start, announce, TerminalLine(key, out.result));
      AppendAssoc(old(calls), v.calls, f.calls);
      AppendAssoc(old(calls), v.calls + f.calls, s.calls);
    }

    /** The `logErr` closure of `processMessage`. */
    method LogFailure(key: string, err: string)
      modifies this
      ensures log == old(log) + [TerminalLine(key, Err(err))]
      ensures calls == old(calls)
    {
      log := log + ["failed to forward message " + key + ": " + err];
    }

    /** `validateMessage`: the error that stops the record, if any. */
    method ValidateMessage(info: SesInfo, now: nat) returns (err: Option<string>)
      modifies this
      ensures err.None? <==> Validation(options, services, now, info).result.Ok?
      ensures err.Some? ==> err.value == Validation(options, services, now, info).result.error
      ensures log == old(log)
      ensures calls == old(calls) + Validation(options, services, now, info).calls
    {
      var bounced := BounceIfDmarcFails(info, now);
      if bounced.Err? {
        return Some(bounced.error);
      } else if bounced.value != "" {
        return Some("DMARC bounced with bounce ID: " + bounced.value);
      } else if IsSpam(info.receipt) {
        return Some(SpamError);
      }
      return None;
    }

    /** `bounceIfDmarcFails`: sends the bounce when DMARC fails under a reject policy. */
    method BounceIfDmarcFails(info: SesInfo, now: nat) returns (r: Result<string, string>)
      modifies this
      ensures r == DmarcBounce(options, services, now, info).result
      ensures log == old(log)
      ensures calls == old(calls) + DmarcBounce(options, services, now, info).calls
    {
      var verdict := Upper(info.receipt.dmarcVerdict);
      var policy := Upper(info.receipt.dmarcPolicy);
      if verdict != "FAIL" || policy != "REJECT" {
        return Ok("");
      }
      var recipientInfo := BouncedRecipientList(info.receipt.recipients);
      var input := BounceRequest(
        "mailer-daemon@" + options.emailDomainName,
        info.messageId,
        "dns; " + options.emailDomainName,
        TruncateToSecond(now),
        DmarcExplanation,
        recipientInfo);
      assert input == BounceRequestFor(options, info, now);
      calls := calls + [SendBounce(input)];
      var output := services.sendBounce(input);
      if output.Err? {
        r := Err("DMARC bounce failed: " + output.error);
      } else {
        r := Ok(output.value);
      }
    }

    /** `getOriginalMessage`: reads the stored message under `key`. */
    method GetOriginalMessage(key: string) returns (r: Result<string, string>)
      modifies this
      ensures r == Fetch(options, services, key).result
      ensures log == old(log)
      ensures calls == old(calls) + Fetch(options, services, key).calls
    {
      calls := calls + [GetObject(options.bucketName, key)];
      var output := services.getObject(options.bucketName, key);
      if output.Err? {
        r := Err("failed to get original message: " + output.error);
      } else {
        r := Ok(output.value);
      }
    }

    /** `updateMessage`: parses the original, rewrites its headers into a fresh buffer, appends the body. */
    method UpdateMessage(msg: string, key: string) returns (r: Result<string, string>)
      ensures r == Updated(options, services, msg, key)
    {
      var m := services.readMessage(msg);
      if m.Err? {
        return Err("failed to parse message: " + m.error);
      }
      var hb := new HeaderBuffer(AcceptAll);
      var input := RewriteInput(options, m.value, key);
      var err := hb.WriteUpdatedHeaders(input, services.parseAddress);
      if err.Some? {
        return Err(err.value);
      }
      return Ok(hb.written + m.value.body);
    }

    /** `forwardMessage`: sends the raw message to the forwarding address. */
    method ForwardMessage(msg: string) returns (r: Result<string, string>)
      modifies this
      ensures r == Forward(options, services, msg).result
      ensures log == old(log)
      ensures calls == old(calls) + Forward(options, services, msg).calls
    {
      var input := EmailRequest([options.forwardingAddress], msg);
      calls := calls + [SendEmail(input)];
      var output := services.sendEmail(input);
      if output.Err? {
        r := Err("send failed: " + output.error);
      } else {
        r := Ok(output.value);
      }
    }
  }

  /** The recipient list of a bounce, filled in place like the slice `make` allocates. */
  method BouncedRecipientList(recipients: seq<string>) returns (list: seq<BouncedRecipient>)
    ensures |list| == |recipients|
    ensures forall i :: 0 <= i < |recipients| ==> list[i] == BouncedRecipient(recipients[i], ContentRejected)
  {
    var info := new BouncedRecipient[|recipients|](_ => BouncedRecipient("", ContentRejected));
    for i := 0 to |recipients|
      invariant forall j :: 0 <= j < i ==> info[j] == BouncedRecipient(recipients[j], ContentRejected)
    {
      info[i] := BouncedRecipient(recipients[i], ContentRejected);
    }
    list := info[..];
  }
}
