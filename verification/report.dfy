/** The success summary of a setup run, as the lines it prints: a header
    naming the cluster and the completed setup actions, then one indented line
    per token in the order the token service returned them, then a blank
    line. Writing to standard output is replaced by returning the lines. */
module SetupReport {
  import Setup

  const Indent: string := "    "

  /** The lines printed before the tokens. */
  function Header(clusterID: string): (h: seq<string>)
    ensures |h| == HeaderLength
    ensures |h[0]| >= |"Set up cluster for ID '"| + |"':"| && ClusterOfHeaderLine(h[0]) == clusterID
  {
    [ "Set up cluster for ID '" + clusterID + "':",
      "",
      Indent + "- PKI backend mounted",
      Indent + "- Root CA generated",
      Indent + "- PKI role created",
      Indent + "- PKI policy created",
      "",
      "The following tokens have been generated for this cluster:",
      "" ]
  }

  const HeaderLength: nat := 9

  /** The cluster ID named by a header line, when the line has the header's shape. */
  function ClusterOfHeaderLine(line: string): (id: string)
    requires |line| >= |"Set up cluster for ID '"| + |"':"|
  {
    line[|"Set up cluster for ID '"|..|line| - |"':"|]
  }

  ghost predicate IsTokenLine(line: string)
  {
    |line| >= |Indent| && line[..|Indent|] == Indent
  }

  /** A summary's shape: the header, indented token lines, a final blank line. */
  ghost predicate WellFormed(lines: seq<string>)
  {
    && |lines| >= HeaderLength + 1
    && |lines[0]| >= |"Set up cluster for ID '"| + |"':"|
    && lines[|lines| - 1] == ""
    && forall k :: HeaderLength <= k < |lines| - 1 ==> IsTokenLine(lines[k])
  }

  /** Reads the tokens back from a printed summary, in printed order. */
  function ReadTokens(lines: seq<string>): (tokens: seq<string>)
    requires WellFormed(lines)
    ensures |tokens| == |lines| - HeaderLength - 1
  {
    seq(|lines| - HeaderLength - 1, k requires 0 <= k < |lines| - HeaderLength - 1 =>
      lines[HeaderLength + k][|Indent|..])
  }

  /** Builds the summary for a successful run. The printed lines name the
      cluster, and reading them back recovers every token in order. */
  method Report(clusterID: string, tokens: seq<string>) returns (lines: seq<string>)
    ensures WellFormed(lines)
    ensures lines[..HeaderLength] == Header(clusterID)
    ensures ClusterOfHeaderLine(lines[0]) == clusterID
    ensures ReadTokens(lines) == tokens
  {
    lines := Header(clusterID);
    var i := 0;
    while i < |tokens|
      invariant 0 <= i <= |tokens|
      invariant |lines| == HeaderLength + i
      invariant lines[..HeaderLength] == Header(clusterID)
      invariant forall k :: 0 <= k < i ==> lines[HeaderLength + k] == Indent + tokens[k]
    {
      lines := lines + [Indent + tokens[i]];
      i := i + 1;
    }
    lines := lines + [""];
    assert lines[0] == Header(clusterID)[0];
    forall k | HeaderLength <= k < |lines| - 1
      ensures IsTokenLine(lines[k]) && lines[k][|Indent|..] == tokens[k - HeaderLength]
    {
      assert lines[k] == Indent + tokens[k - HeaderLength];
    }
  }

  /** The summary printed at the end of a successful run: it names the flags'
      cluster ID, and its token lines are the tokens the token service
      returned, in that order. */
  method ReportRun(f: Setup.Flags, env: Setup.Collaborators) returns (lines: seq<string>)
    requires Setup.SetupRun(f, env).outcome.Succeeded?
    ensures WellFormed(lines)
    ensures ClusterOfHeaderLine(lines[0]) == f.clusterID
    ensures ReadTokens(lines) == env.tokenCreate.value
  {
    var outcome := Setup.SetupRun(f, env).outcome;
    lines := Report(outcome.clusterID, outcome.tokens);
  }
}
