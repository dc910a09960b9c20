/**
 The M-SEARCH discovery request of section 1.3.2 of the UPnP Device
 Architecture 1.1, built from a configuration.
 */
module Message {
  import opened Wrappers
  import opened Text
  import opened Ssdp

  /** One header line: its text followed by CRLF, as every line of the request must end. */
  function Line(text: string): string
  {
    text + CRLF
  }

  /** The request text, exactly as both sessions build it. */
  function MSearchMessage(c: Configuration): string
  {
    Line("M-SEARCH * HTTP/1.1") +
    Line("HOST: " + c.host + ":" + NatToDecimal(c.port)) +
    Line("MAN: \"ssdp:discover\"") +
    Line("ST: " + c.searchTarget) +
    Line("MX: " + IntToDecimal(TruncateToInt(c.maximumWaitResponseTime))) +
    Line("")
  }

  /** The six lines of the request, without their line endings. */
  function RequestLines(c: Configuration): seq<string>
  {
    [ "M-SEARCH * HTTP/1.1",
      "HOST: " + c.host + ":" + NatToDecimal(c.port),
      "MAN: \"ssdp:discover\"",
      "ST: " + c.searchTarget,
      "MX: " + IntToDecimal(TruncateToInt(c.maximumWaitResponseTime)),
      "" ]
  }

  /** One step of `Terminated`: the first line, its CRLF, then the rest. */
  lemma TerminatedStep(lines: seq<string>)
    requires |lines| > 0
    ensures Terminated(lines) == Line(lines[0]) + Terminated(lines[1..])
  {
  }

  /** Six lines, each followed by CRLF, in order. */
  lemma {:induction false} TerminatedSix(a: string, b: string, c: string, d: string, e: string, f: string)
    ensures Terminated([a, b, c, d, e, f]) == Line(a) + Line(b) + Line(c) + Line(d) + Line(e) + Line(f)
  {
    var lines := [a, b, c, d, e, f];
    TerminatedStep(lines[5..]);
    assert lines[5..][1..] == [];
    TerminatedStep(lines[4..]);
    assert lines[4..][1..] == lines[5..];
    TerminatedStep(lines[3..]);
    assert lines[3..][1..] == lines[4..];
    TerminatedStep(lines[2..]);
    assert lines[2..][1..] == lines[3..];
    TerminatedStep(lines[1..]);
    assert lines[1..][1..] == lines[2..];
    TerminatedStep(lines);
  }

  /** The request text is its six lines, each followed by CRLF. */
  lemma RequestIsTerminated(c: Configuration)
    ensures MSearchMessage(c) == Terminated(RequestLines(c))
  {
    var lines := RequestLines(c);
    TerminatedSix(lines[0], lines[1], lines[2], lines[3], lines[4], lines[5]);
  }

  /** No line of the request holds a carriage return when the host and target hold none. */
  lemma RequestLinesHaveNoCarriageReturn(c: Configuration)
    requires '\r' !in c.host && '\r' !in c.searchTarget
    ensures forall i :: 0 <= i < |RequestLines(c)| ==> '\r' !in RequestLines(c)[i]
  {
    var port := NatToDecimal(c.port);
    assert forall k :: 0 <= k < |port| ==> port[k] != '\r';
    IntToDecimalHasNoCarriageReturn(TruncateToInt(c.maximumWaitResponseTime));
  }

  /**
   When neither the host nor the search target holds a carriage return, the
   request reads back as exactly six CRLF-terminated lines: the request line,
   HOST, MAN, ST, MX with the wait time truncated to whole seconds, and the
   empty line that ends the header.
   */
  lemma MSearchMessageLines(c: Configuration)
    requires '\r' !in c.host && '\r' !in c.searchTarget
    ensures
      var mx := IntToDecimal(TruncateToInt(c.maximumWaitResponseTime));
      && SplitLines(MSearchMessage(c)) == Some([
           "M-SEARCH * HTTP/1.1",
           "HOST: " + c.host + ":" + NatToDecimal(c.port),
           "MAN: \"ssdp:discover\"",
           "ST: " + c.searchTarget,
           "MX: " + mx,
           ""])
      && ParseInt(mx) == Some(TruncateToInt(c.maximumWaitResponseTime))
  {
    RequestIsTerminated(c);
    RequestLinesHaveNoCarriageReturn(c);
    SplitTerminated(RequestLines(c));
    IntRoundTrip(TruncateToInt(c.maximumWaitResponseTime));
  }
}
