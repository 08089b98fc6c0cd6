/**
 * The header rewriter: a buffer with a sticky error that writes the new
 * From line, an optional synthesized Reply-To, the allow-listed original
 * headers in a fixed order, a provenance header and the blank line that ends
 * the header section (sections 2.1 and 2.2 of RFC 5322).
 */
module Headers {
  import opened Wrappers
  import opened Text

  /** A parsed header section: each field name with its values, in order. */
  type Header = map<string, seq<string>>

  /** A mailbox as `mail.ParseAddress` returns it: display name and address. */
  datatype Address = Address(name: string, address: string)

  /** `mail.ParseAddress`, left abstract: the mailbox, or the cause of failure. */
  type AddressParser = string -> Result<Address, string>

  /**
   * The `io.Writer` behind a buffer: `None` when it accepts the whole chunk,
   * `Some(cause)` when it fails and keeps nothing of it.
   */
  type Writer = string -> Option<string>

  datatype UpdateHeadersInput = UpdateHeadersInput(
    headers: Header,
    senderAddress: string,
    bucketName: string,
    msgKey: string)

  /** What the writer has accepted so far, and the sticky error. */
  datatype BufferState = BufferState(written: string, err: Option<string>)

  /** The original headers that survive the rewrite, in the order they are emitted. */
  const KeepHeaders: seq<string> :=
    ["Reply-To", "To", "Cc", "Bcc", "Subject", "MIME-Version", "Mime-Version", "Content-Type"]

  const OrigLinkHeader: string := "X-SES-Forwarder-Original"

  const UpdateErrorPrefix: string := "error while updating email headers: "

  /** `Header.Get`: the first value of a field, or "" when there is none. */
  function Get(h: Header, name: string): string
  {
    if name in h && h[name] != [] then h[name][0] else ""
  }

  // ---------------------------------------------------------------------
  // The sticky-error writer, as a function of its state

  /** One `write`: nothing happens once an error is set. */
  function Put(s: BufferState, chunk: string, w: Writer): BufferState
  {
    if s.err.Some? then s
    else match w(chunk)
      case None => BufferState(s.written + chunk, None)
      case Some(e) => BufferState(s.written, Some(e))
  }

  /** Several `write`s in order. */
  function PutAll(s: BufferState, chunks: seq<string>, w: Writer): BufferState
    decreases |chunks|
  {
    if chunks == [] then s else PutAll(Put(s, chunks[0], w), chunks[1..], w)
  }

  /** Once the error is set, no later write changes anything. */
  lemma {:induction false} PutAllSticky(s: BufferState, chunks: seq<string>, w: Writer)
    requires s.err.Some?
    ensures PutAll(s, chunks, w) == s
    decreases |chunks|
  {
    if chunks != [] {
      PutAllSticky(Put(s, chunks[0], w), chunks[1..], w);
    }
  }

  lemma {:induction false} PutAllAppend(s: BufferState, a: seq<string>, b: seq<string>, w: Writer)
    ensures PutAll(s, a + b, w) == PutAll(PutAll(s, a, w), b, w)
    decreases |a|
  {
    if a == [] {
      assert a + b == b;
    } else {
      assert (a + b)[0] == a[0] && (a + b)[1..] == a[1..] + b;
      PutAllAppend(Put(s, a[0], w), a[1..], b, w);
    }
  }

  /** When the writer accepts every chunk, the chunks arrive whole and in order. */
  lemma {:induction false} PutAllAccepted(s: BufferState, chunks: seq<string>, w: Writer)
    requires s.err == None
    requires forall i :: 0 <= i < |chunks| ==> w(chunks[i]) == None
    ensures PutAll(s, chunks, w) == BufferState(s.written + Concat(chunks), None)
    decreases |chunks|
  {
    if chunks != [] {
      PutAllAccepted(Put(s, chunks[0], w), chunks[1..], w);
      assert s.written + chunks[0] + Concat(chunks[1..]) == s.written + Concat(chunks);
    }
  }

  /** On the first failing write, the chunks before it have arrived and nothing after. */
  lemma {:induction false} PutAllFirstFailure(s: BufferState, chunks: seq<string>, w: Writer, k: nat)
    requires s.err == None
    requires k < |chunks| && w(chunks[k]).Some?
    requires forall i :: 0 <= i < k ==> w(chunks[i]) == None
    ensures PutAll(s, chunks, w) == BufferState(s.written + Concat(chunks[..k]), w(chunks[k]))
  {
    assert chunks == chunks[..k] + [chunks[k]] + chunks[k + 1..];
    PutAllAppend(s, chunks[..k] + [chunks[k]], chunks[k + 1..], w);
    PutAllAppend(s, chunks[..k], [chunks[k]], w);
    PutAllAccepted(s, chunks[..k], w);
    PutAllSticky(BufferState(s.written + Concat(chunks[..k]), w(chunks[k])), chunks[k + 1..], w);
  }

  /** A run of writes ends with an error exactly when one was already set or some write failed. */
  lemma {:induction false} PutAllFailsIff(s: BufferState, chunks: seq<string>, w: Writer)
    ensures PutAll(s, chunks, w).err.Some?
        <==> s.err.Some? || exists i :: 0 <= i < |chunks| && w(chunks[i]).Some?
    decreases |chunks|
  {
    if chunks == [] {
    } else if s.err.Some? {
      PutAllSticky(s, chunks, w);
    } else {
      PutAllFailsIff(Put(s, chunks[0], w), chunks[1..], w);
      if exists i :: 0 <= i < |chunks| && w(chunks[i]).Some? {
        var i :| 0 <= i < |chunks| && w(chunks[i]).Some?;
        if i > 0 { assert w(chunks[1..][i - 1]).Some?; }
      }
      if exists i :: 0 <= i < |chunks| - 1 && w(chunks[1..][i]).Some? {
        var i :| 0 <= i < |chunks| - 1 && w(chunks[1..][i]).Some?;
        assert w(chunks[i + 1]).Some?;
      }
    }
  }

  // ---------------------------------------------------------------------
  // The lines the rewrite emits

  /** `writeHeader` renames the key net/mail canonicalizes as "Mime-Version". */
  function CanonicalName(name: string): string
  {
    if name == "Mime-Version" then "MIME-Version" else name
  }

  function HeaderLine(name: string, value: string): string
  {
    CanonicalName(name) + ": " + value + CRLF
  }

  /** One line per value, in order. */
  function HeaderLines(name: string, values: seq<string>): (lines: seq<string>)
    ensures |lines| == |values|
    ensures forall i :: 0 <= i < |values| ==> lines[i] == HeaderLine(name, values[i])
  {
    if values == [] then [] else [HeaderLine(name, values[0])] + HeaderLines(name, values[1..])
  }

  /** The lines of every listed header present in `h`, following the list's order. */
  function KeptLines(h: Header, names: seq<string>): seq<string>
  {
    if names == [] then []
    else (if names[0] in h then HeaderLines(names[0], h[names[0]]) else []) + KeptLines(h, names[1..])
  }

  lemma {:induction false} KeptLinesAppend(h: Header, names: seq<string>, n: string)
    ensures KeptLines(h, names + [n])
         == KeptLines(h, names) + (if n in h then HeaderLines(n, h[n]) else [])
  {
    if names == [] {
      assert names + [n] == [n];
    } else {
      assert (names + [n])[1..] == names[1..] + [n];
      KeptLinesAppend(h, names[1..], n);
    }
  }

  /** Headers outside the list have no say in the lines kept. */
  lemma {:induction false} KeptLinesAgree(h1: Header, h2: Header, names: seq<string>)
    requires forall n :: n in names ==> (n in h1 <==> n in h2) && (n in h1 ==> h1[n] == h2[n])
    ensures KeptLines(h1, names) == KeptLines(h2, names)
  {
    if names != [] {
      assert names[0] in names;
      KeptLinesAgree(h1, h2, names[1..]);
    }
  }

  /**
   * `newFromAddress`: the display name and " - " when there is a name, the
   * original address with its first "@" spelled " at ", then the relay
   * sender in angle brackets.
   */
  function NewFromAddress(origFrom: string, sender: string, parse: AddressParser): (r: Result<string, string>)
    ensures parse(origFrom).Err? ==>
      r == Err("couldn't parse From address " + origFrom + ": " + parse(origFrom).error)
    ensures parse(origFrom).Ok? ==> r.Ok?
    ensures parse(origFrom).Ok? && '@' in parse(origFrom).value.address ==>
      var a := parse(origFrom).value;
      var at := FirstIndex(a.address, '@');
      r.value == (if a.name == "" then "" else a.name + " - ")
                 + (a.address[..at] + " at " + a.address[at + 1..]) + " <" + sender + ">"
    ensures parse(origFrom).Ok? && '@' !in parse(origFrom).value.address ==>
      var a := parse(origFrom).value;
      r.value == (if a.name == "" then "" else a.name + " - ") + a.address + " <" + sender + ">"
  {
    match parse(origFrom)
    case Err(cause) => Err("couldn't parse From address " + origFrom + ": " + cause)
    case Ok(addr) =>
      var name := if addr.name != "" then addr.name + " - " else "";
      Ok(name + ReplaceFirst(addr.address, '@', " at ") + " <" + sender + ">")
  }

  /** What `writeFromHeader` writes, or the error it sets instead of writing. */
  function FromLines(h: Header, sender: string, parse: AddressParser): Result<seq<string>, string>
  {
    var origFrom := Get(h, "From");
    match NewFromAddress(origFrom, sender, parse)
    case Err(e) => Err(e)
    case Ok(newFrom) =>
      Ok(HeaderLines("From", [newFrom])
         + (if Get(h, "Reply-To") == "" then HeaderLines("Reply-To", [origFrom]) else []))
  }

  function LinkLines(bucketName: string, msgKey: string): seq<string>
  {
    HeaderLines(OrigLinkHeader, ["s3://" + bucketName + "/" + msgKey])
  }

  /** Everything `WriteUpdatedHeaders` writes after the From part. */
  function TailLines(input: UpdateHeadersInput): seq<string>
  {
    KeptLines(input.headers, KeepHeaders) + LinkLines(input.bucketName, input.msgKey) + [CRLF]
  }

  /** Every line `WriteUpdatedHeaders` attempts, or the From parse error. */
  function OutputLines(input: UpdateHeadersInput, parse: AddressParser): Result<seq<string>, string>
  {
    match FromLines(input.headers, input.senderAddress, parse)
    case Err(e) => Err(e)
    case Ok(lines) => Ok(lines + TailLines(input))
  }

  /** The state `writeFromHeader` leaves: it assigns the error field, then writes. */
  function AfterFrom(s: BufferState, h: Header, sender: string, parse: AddressParser, w: Writer): BufferState
  {
    match FromLines(h, sender, parse)
    case Err(e) => BufferState(s.written, Some(e))
    case Ok(lines) => PutAll(BufferState(s.written, None), lines, w)
  }

  /** The state `WriteUpdatedHeaders` leaves. */
  function Rewrite(s: BufferState, input: UpdateHeadersInput, parse: AddressParser, w: Writer): BufferState
  {
    PutAll(AfterFrom(s, input.headers, input.senderAddress, parse, w), TailLines(input), w)
  }

  /** The error `WriteUpdatedHeaders` returns for a final state. */
  function UpdateError(s: BufferState): Option<string>
  {
    if s.err.Some? then Some(UpdateErrorPrefix + s.err.value) else None
  }

  // ---------------------------------------------------------------------
  // Properties of the rewrite

  /** The rewrite is the attempted lines written in order, or the parse error with nothing written. */
  lemma RewriteWritesOutputLines(s: BufferState, input: UpdateHeadersInput, parse: AddressParser, w: Writer)
    ensures OutputLines(input, parse).Err? ==>
      Rewrite(s, input, parse, w) == BufferState(s.written, Some(OutputLines(input, parse).error))
    ensures OutputLines(input, parse).Ok? ==>
      Rewrite(s, input, parse, w) == PutAll(BufferState(s.written, None), OutputLines(input, parse).value, w)
  {
    var h, sender := input.headers, input.senderAddress;
    match FromLines(h, sender, parse)
    case Err(e) =>
      PutAllSticky(BufferState(s.written, Some(e)), TailLines(input), w);
    case Ok(lines) =>
      PutAllAppend(BufferState(s.written, None), lines, TailLines(input), w);
  }

  /** An unparseable From aborts the rewrite: the error names the value and nothing is written. */
  lemma UnparseableFromWritesNothing(s: BufferState, input: UpdateHeadersInput, parse: AddressParser, w: Writer)
    requires parse(Get(input.headers, "From")).Err?
    ensures var from := Get(input.headers, "From");
      Rewrite(s, input, parse, w)
      == BufferState(s.written, Some("couldn't parse From address " + from + ": " + parse(from).error))
  {
    RewriteWritesOutputLines(s, input, parse, w);
  }

  /** The text `writeFromHeader` writes, when From parses. */
  lemma FromLinesText(h: Header, sender: string, parse: AddressParser)
    requires parse(Get(h, "From")).Ok?
    ensures FromLines(h, sender, parse).Ok?
    ensures var from := Get(h, "From");
      Concat(FromLines(h, sender, parse).value)
      == "From: " + NewFromAddress(from, sender, parse).value + CRLF
         + (if Get(h, "Reply-To") == "" then "Reply-To: " + from + CRLF else "")
  {
    var from := Get(h, "From");
    var newFrom := NewFromAddress(from, sender, parse).value;
    var fromLine := HeaderLine("From", newFrom);
    assert fromLine == "From: " + newFrom + CRLF by {
      assert CanonicalName("From") + ": " == "From: ";
    }
    assert HeaderLines("From", [newFrom]) == [fromLine];
    if Get(h, "Reply-To") == "" {
      var replyLine := HeaderLine("Reply-To", from);
      assert replyLine == "Reply-To: " + from + CRLF by {
        assert CanonicalName("Reply-To") + ": " == "Reply-To: ";
      }
      assert HeaderLines("Reply-To", [from]) == [replyLine];
      assert FromLines(h, sender, parse).value == [fromLine, replyLine];
      assert [fromLine, replyLine][1..] == [replyLine];
      assert Concat([replyLine]) == replyLine;
      assert Concat([fromLine, replyLine]) == fromLine + replyLine;
    } else {
      assert FromLines(h, sender, parse).value == [fromLine];
      assert Concat([fromLine]) == fromLine;
    }
  }

  /** The text of the attempted lines, when From parses. */
  lemma OutputLinesText(input: UpdateHeadersInput, parse: AddressParser)
    requires parse(Get(input.headers, "From")).Ok?
    ensures var h := input.headers;
      var from := Get(h, "From");
      Concat(OutputLines(input, parse).value)
      == "From: " + NewFromAddress(from, input.senderAddress, parse).value + CRLF
         + (if Get(h, "Reply-To") == "" then "Reply-To: " + from + CRLF else "")
         + Concat(KeptLines(h, KeepHeaders))
         + ("X-SES-Forwarder-Original: s3://" + input.bucketName + "/" + input.msgKey + CRLF)
         + CRLF
  {
    var h := input.headers;
    var from := Get(h, "From");
    var fromLines := FromLines(h, input.senderAddress, parse).value;
    var kept := KeptLines(h, KeepHeaders);
    var link := LinkLines(input.bucketName, input.msgKey);
    var fromText := "From: " + NewFromAddress(from, input.senderAddress, parse).value + CRLF
                    + (if Get(h, "Reply-To") == "" then "Reply-To: " + from + CRLF else "");
    var linkText := "X-SES-Forwarder-Original: s3://" + input.bucketName + "/" + input.msgKey + CRLF;
    assert OutputLines(input, parse) == Ok(fromLines + TailLines(input));
    assert TailLines(input) == kept + link + [CRLF];
    calc {
      Concat(OutputLines(input, parse).value);
      { assert fromLines + TailLines(input) == fromLines + kept + link + [CRLF]; }
      Concat(fromLines + kept + link + [CRLF]);
      { ConcatAppend4(fromLines, kept, link, [CRLF]); }
      Concat(fromLines) + Concat(kept) + Concat(link) + Concat([CRLF]);
      { assert Concat(fromLines) == fromText by { FromLinesText(h, input.senderAddress, parse); }
        assert Concat(link) == linkText by { LinkLinesText(input.bucketName, input.msgKey); }
        assert Concat([CRLF]) == CRLF; }
      fromText + Concat(kept) + linkText + CRLF;
    }
  }

  /** The provenance header's text. */
  lemma LinkLinesText(bucketName: string, msgKey: string)
    ensures Concat(LinkLines(bucketName, msgKey))
         == "X-SES-Forwarder-Original: s3://" + bucketName + "/" + msgKey + CRLF
  {
    var line := HeaderLine(OrigLinkHeader, "s3://" + bucketName + "/" + msgKey);
    assert LinkLines(bucketName, msgKey) == [line];
    assert CanonicalName(OrigLinkHeader) + ": " == "X-SES-Forwarder-Original: ";
  }

  lemma ConcatAppend4(a: seq<string>, b: seq<string>, c: seq<string>, d: seq<string>)
    ensures Concat(a + b + c + d) == Concat(a) + Concat(b) + Concat(c) + Concat(d)
  {
    ConcatAppend(a + b + c, d);
    ConcatAppend(a + b, c);
    ConcatAppend(a, b);
  }

  /**
   * With a writer that never fails, the output is the new From line, the
   * synthesized Reply-To when the original has none, the kept headers in
   * list order, the provenance header and one blank line.
   */
  lemma RewriteLayout(s: BufferState, input: UpdateHeadersInput, parse: AddressParser, w: Writer)
    requires parse(Get(input.headers, "From")).Ok?
    requires forall chunk :: w(chunk) == None
    ensures var h := input.headers;
      var from := Get(h, "From");
      Rewrite(s, input, parse, w) == BufferState(
        s.written
        + ("From: " + NewFromAddress(from, input.senderAddress, parse).value + CRLF
           + (if Get(h, "Reply-To") == "" then "Reply-To: " + from + CRLF else "")
           + Concat(KeptLines(h, KeepHeaders))
           + ("X-SES-Forwarder-Original: s3://" + input.bucketName + "/" + input.msgKey + CRLF)
           + CRLF),
        None)
  {
    var lines := OutputLines(input, parse).value;
    RewriteWritesOutputLines(s, input, parse, w);
    assert forall i :: 0 <= i < |lines| ==> w(lines[i]) == None;
    PutAllAccepted(BufferState(s.written, None), lines, w);
    OutputLinesText(input, parse);
  }

  /**
   * When a write fails, the error is the writer's and the output holds
   * exactly the lines before the failing one.
   */
  lemma RewriteStopsAtFailedWrite(s: BufferState, input: UpdateHeadersInput, parse: AddressParser, w: Writer, k: nat)
    requires OutputLines(input, parse).Ok?
    requires k < |OutputLines(input, parse).value|
    requires w(OutputLines(input, parse).value[k]).Some?
    requires forall i :: 0 <= i < k ==> w(OutputLines(input, parse).value[i]) == None
    ensures var lines := OutputLines(input, parse).value;
      Rewrite(s, input, parse, w) == BufferState(s.written + Concat(lines[..k]), w(lines[k]))
  {
    RewriteWritesOutputLines(s, input, parse, w);
    PutAllFirstFailure(BufferState(s.written, None), OutputLines(input, parse).value, w, k);
  }

  /** `WriteUpdatedHeaders` reports an error exactly when the From parse or some write failed. */
  lemma RewriteFailsIff(s: BufferState, input: UpdateHeadersInput, parse: AddressParser, w: Writer)
    ensures UpdateError(Rewrite(s, input, parse, w)).Some?
        <==> OutputLines(input, parse).Err?
             || exists i :: 0 <= i < |OutputLines(input, parse).value| && w(OutputLines(input, parse).value[i]).Some?
  {
    RewriteWritesOutputLines(s, input, parse, w);
    if OutputLines(input, parse).Ok? {
      PutAllFailsIff(BufferState(s.written, None), OutputLines(input, parse).value, w);
    }
  }

  /**
   * Only From, Reply-To and the listed headers matter: two header sections
   * that agree on those give the same output, whatever else they hold.
   */
  lemma RewriteIgnoresOtherHeaders(s: BufferState, input: UpdateHeadersInput, other: Header, parse: AddressParser, w: Writer)
    requires Get(other, "From") == Get(input.headers, "From")
    requires Get(other, "Reply-To") == Get(input.headers, "Reply-To")
    requires forall n :: n in KeepHeaders ==>
      (n in other <==> n in input.headers) && (n in other ==> other[n] == input.headers[n])
    ensures Rewrite(s, input.(headers := other), parse, w) == Rewrite(s, input, parse, w)
  {
    KeptLinesAgree(other, input.headers, KeepHeaders);
  }

  // ---------------------------------------------------------------------
  // The buffer itself

  /** `headerBuffer`: the writer's accepted output and the sticky error. */
  class HeaderBuffer {
    const writer: Writer
    var written: string
    var err: Option<string>

    function State(): BufferState
      reads this
    {
      BufferState(written, err)
    }

    constructor (writer: Writer)
      ensures this.writer == writer
      ensures State() == BufferState("", None)
    {
      this.writer := writer;
      written := "";
      err := None;
    }

    /** `write`: hands `s` to the writer only while no error is set. */
    method Write(s: string)
      modifies this
      ensures State() == Put(old(State()), s, writer)
      ensures old(err).Some? ==> State() == old(State())
    {
      if err == None {
        var e := writer(s);
        if e == None {
          written := written + s;
        }
        err := e;
      }
    }

    /** `writeHeader`: one `Name: value` line per value. */
    method WriteHeader(name: string, values: seq<string>)
      modifies this
      ensures State() == PutAll(old(State()), HeaderLines(name, values), writer)
    {
      var n := name;
      if n == "Mime-Version" {
        n := "MIME-Version";
      }
      for i := 0 to |values|
        invariant State() == PutAll(old(State()), HeaderLines(name, values[..i]), writer)
      {
        Write(n + ": " + values[i] + CRLF);
        assert HeaderLines(name, values[..i + 1]) == HeaderLines(name, values[..i]) + [HeaderLine(name, values[i])];
        PutAllAppend(old(State()), HeaderLines(name, values[..i]), [HeaderLine(name, values[i])], writer);
      }
      assert values[..|values|] == values;
    }

    /** `writeFromHeader`: the rewritten From and, without an original Reply-To, one carrying the original From. */
    method WriteFromHeader(headers: Header, sender: string, parse: AddressParser)
      modifies this
      ensures State() == AfterFrom(old(State()), headers, sender, parse, writer)
    {
      var origFrom := Get(headers, "From");
      var newFrom := NewFromAddress(origFrom, sender, parse);
      err := if newFrom.Err? then Some(newFrom.error) else None;
      if err != None {
        return;
      }
      ghost var start := State();
      WriteHeader("From", [newFrom.value]);
      if Get(headers, "Reply-To") == "" {
        WriteHeader("Reply-To", [origFrom]);
        PutAllAppend(start, HeaderLines("From", [newFrom.value]), HeaderLines("Reply-To", [origFrom]), writer);
      } else {
        assert HeaderLines("From", [newFrom.value]) + [] == HeaderLines("From", [newFrom.value]);
      }
    }

    /** `writeFinalSesForwarderOrigLinkHeader`: the provenance header pointing at the stored original. */
    method WriteFinalLinkHeader(bucketName: string, msgKey: string)
      modifies this
      ensures State() == PutAll(old(State()), LinkLines(bucketName, msgKey), writer)
    {
      var origLink := "s3://" + bucketName + "/" + msgKey;
      WriteHeader(OrigLinkHeader, [origLink]);
    }

    /** `WriteUpdatedHeaders`: the whole new header section, and the error if any step failed. */
    method WriteUpdatedHeaders(input: UpdateHeadersInput, parse: AddressParser) returns (r: Option<string>)
      modifies this
      ensures State() == Rewrite(old(State()), input, parse, writer)
      ensures r == UpdateError(State())
    {
      WriteFromHeader(input.headers, input.senderAddress, parse);
      ghost var afterFrom := State();
      for j := 0 to |KeepHeaders|
        invariant State() == PutAll(afterFrom, KeptLines(input.headers, KeepHeaders[..j]), writer)
      {
        var header := KeepHeaders[j];
        assert KeepHeaders[..j + 1] == KeepHeaders[..j] + [header];
        KeptLinesAppend(input.headers, KeepHeaders[..j], header);
        if header in input.headers {
          WriteHeader(header, input.headers[header]);
          PutAllAppend(afterFrom, KeptLines(input.headers, KeepHeaders[..j]), HeaderLines(header, input.headers[header]), writer);
        } else {
          assert KeptLines(input.headers, KeepHeaders[..j + 1]) == KeptLines(input.headers, KeepHeaders[..j]);
        }
      }
      assert KeepHeaders[..|KeepHeaders|] == KeepHeaders;
      ghost var afterKept := State();
      WriteFinalLinkHeader(input.bucketName, input.msgKey);
      Write(CRLF);
      PutAllAppend(afterFrom, KeptLines(input.headers, KeepHeaders), LinkLines(input.bucketName, input.msgKey), writer);
      PutAllAppend(afterFrom, KeptLines(input.headers, KeepHeaders) + LinkLines(input.bucketName, input.msgKey), [CRLF], writer);
      if err != None {
        r := Some(UpdateErrorPrefix + err.value);
      } else {
        r := None;
      }
    }
  }
}
