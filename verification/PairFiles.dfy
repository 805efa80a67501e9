/**
 The two files a running process leaves for others, each a process id and one quoted value: the
 selected provider's id, and the base of the client API. Written as two lines, read line by line.
 */
module PairFiles {
  import opened Basics
  import opened TextForms
  import Loopback

  const PID_MAX: nat := 0xFFFF_FFFF

  datatype Kind = SelectedProvider | ClientApi {
    function Key(): string {
      if SelectedProvider? then "provider_id:" else "client_api_base:"
    }

    /** The bytes a reader is willing to read. */
    function Limit(): nat {
      if SelectedProvider? then 256 else 512
    }

    predicate Accepts(value: string) {
      if SelectedProvider? then value != [] else Loopback.ParseEndpoint(value).Some?
    }
  }

  datatype Pair = Pair(pid: nat, value: string)

  // ── writing ────────────────────────────────────────────────────────────────────────────────

  function PidLine(pid: nat): string {
    "pid: " + Printed(pid)
  }

  function ValueLine(kind: Kind, value: string): string {
    kind.Key() + " " + "\"" + value + "\""
  }

  function Body(kind: Kind, pid: nat, value: string): string {
    PidLine(pid) + "\n" + ValueLine(kind, value) + "\n"
  }

  function Write(kind: Kind, pid: nat, value: string): Option<string> {
    if IsToken(value) then Some(Body(kind, pid, value)) else None
  }

  // ── reading ────────────────────────────────────────────────────────────────────────────────

  function PidIn(line: string): Option<nat>
    requires StartsWith(line, "pid:")
  {
    ParseUint(Trim(line[4..], IsWhitespace), PID_MAX)
  }

  function ValueIn(kind: Kind, line: string): string
    requires StartsWith(line, kind.Key())
  {
    Trim(Trim(line[|kind.Key()|..], IsWhitespace), IsQuote)
  }

  /** The last process id line decides, even when it does not parse. */
  function LastPid(lines: seq<string>): Option<nat> {
    if lines == [] then None
    else
      var line := lines[|lines| - 1];
      if StartsWith(line, "pid:") then PidIn(line) else LastPid(lines[..|lines| - 1])
  }

  /** The last value that is accepted decides. */
  function LastValue(kind: Kind, lines: seq<string>): Option<string> {
    if lines == [] then None
    else
      var line := lines[|lines| - 1];
      if StartsWith(line, kind.Key()) && kind.Accepts(ValueIn(kind, line)) then Some(ValueIn(kind, line))
      else LastValue(kind, lines[..|lines| - 1])
  }

  function Paired(pid: Option<nat>, value: Option<string>): Option<Pair> {
    if pid.Some? && value.Some? then Some(Pair(pid.value, value.value)) else None
  }

  function Read(kind: Kind, raw: string): Option<Pair> {
    if Size(raw) > kind.Limit() then None else Paired(LastPid(Lines(raw)), LastValue(kind, Lines(raw)))
  }

  lemma KeysDiffer(kind: Kind, line: string)
    requires StartsWith(line, "pid:")
    ensures !StartsWith(line, kind.Key())
  {
    assert line[1] == line[..4][1] == 'i';
  }

  /** Of several process id lines the last one decides, whatever the ones before it held. */
  lemma {:induction false} LastPidIs(lines: seq<string>, k: nat)
    requires k < |lines| && StartsWith(lines[k], "pid:")
    requires forall j :: k < j < |lines| ==> !StartsWith(lines[j], "pid:")
    ensures LastPid(lines) == ParseUint(Trim(lines[k][4..], IsWhitespace), PID_MAX)
  {
    if k < |lines| - 1 {
      LastPidIs(lines[..|lines| - 1], k);
    }
  }

  /** The line offers a value the reader takes. */
  predicate Offers(kind: Kind, line: string) {
    StartsWith(line, kind.Key()) && kind.Accepts(Trim(Trim(line[|kind.Key()|..], IsWhitespace), IsQuote))
  }

  /** Of several values the last acceptable one decides; lines that offer none do not disturb it. */
  lemma {:induction false} LastValueIs(kind: Kind, lines: seq<string>, k: nat)
    requires k < |lines| && Offers(kind, lines[k])
    requires forall j :: k < j < |lines| ==> !Offers(kind, lines[j])
    ensures LastValue(kind, lines) == Some(Trim(Trim(lines[k][|kind.Key()|..], IsWhitespace), IsQuote))
  {
    if k < |lines| - 1 {
      LastValueIs(kind, lines[..|lines| - 1], k);
    }
  }

  /** Without a process id line or an acceptable value there is no pair. */
  lemma {:induction false} NothingOffered(kind: Kind, lines: seq<string>)
    ensures (forall j :: 0 <= j < |lines| ==> !StartsWith(lines[j], "pid:")) ==> LastPid(lines).None?
    ensures (forall j :: 0 <= j < |lines| ==> !Offers(kind, lines[j])) ==> LastValue(kind, lines).None?
  {
    if lines != [] {
      NothingOffered(kind, lines[..|lines| - 1]);
    }
  }

  /** The readers' loop over the lines. */
  method ReadPair(kind: Kind, raw: string) returns (pair: Option<Pair>)
    ensures pair == Read(kind, raw)
  {
    if Size(raw) > kind.Limit() {
      return None;
    }
    var pid, value := None, None;
    var lines := Lines(raw);
    for i := 0 to |lines|
      invariant pid == LastPid(lines[..i]) && value == LastValue(kind, lines[..i])
    {
      var line := lines[i];
      assert lines[..i + 1][..i] == lines[..i];
      if StartsWith(line, "pid:") {
        KeysDiffer(kind, line);
        pid := PidIn(line);
      } else if StartsWith(line, kind.Key()) {
        var v := ValueIn(kind, line);
        if kind.Accepts(v) {
          value := Some(v);
        }
      }
    }
    assert lines[..|lines|] == lines;
    return Paired(pid, value);
  }

  // ── print then parse ───────────────────────────────────────────────────────────────────────

  lemma PidLineReads(pid: nat)
    requires pid <= PID_MAX
    ensures StartsWith(PidLine(pid), "pid:") && PidIn(PidLine(pid)) == Some(pid)
  {
    var line := PidLine(pid);
    assert line[..4] == "pid:" && line[4..] == [' '] + Printed(pid);
    TrimWrapped(Printed(pid), IsWhitespace, ' ');
    ParsePrinted(pid, PID_MAX);
  }

  lemma ValueLineReads(kind: Kind, value: string)
    requires IsToken(value)
    ensures StartsWith(ValueLine(kind, value), kind.Key()) && ValueIn(kind, ValueLine(kind, value)) == value
  {
    var line, key := ValueLine(kind, value), kind.Key();
    var quoted := ['"'] + value + ['"'];
    assert line == key + ([' '] + quoted);
    assert line[..|key|] == key && line[|key|..] == [' '] + quoted;
    TrimBefore(quoted, IsWhitespace, ' ');
    TrimWrapped(value, IsQuote, '"');
  }

  predicate Flat(line: string) {
    forall k :: 0 <= k < |line| ==> ' ' <= line[k] <= '\U{007E}'
  }

  lemma PidLineIsFlat(pid: nat)
    ensures Flat(PidLine(pid))
  {
    var printed := Printed(pid);
    assert forall k :: 0 <= k < |printed| ==> printed[k] in printed;
  }

  lemma ValueLineIsFlat(kind: Kind, value: string)
    requires IsToken(value)
    ensures Flat(ValueLine(kind, value))
  {
    assert forall k :: 0 <= k < |value| ==> value[k] in value;
    assert Flat(kind.Key());
  }

  lemma BodyLines(kind: Kind, pid: nat, value: string)
    requires IsToken(value)
    ensures Lines(Body(kind, pid, value)) == [PidLine(pid), ValueLine(kind, value)]
    ensures Size(Body(kind, pid, value)) == |Body(kind, pid, value)|
  {
    PidLineIsFlat(pid);
    ValueLineIsFlat(kind, value);
    FlatLines(PidLine(pid), ValueLine(kind, value));
    AsciiSize(Body(kind, pid, value));
  }

  lemma FlatLines(first: string, second: string)
    requires Flat(first) && Flat(second)
    ensures Lines(first + "\n" + second + "\n") == [first, second]
  {
    assert first + "\n" + second + "\n" == first + ['\n'] + (second + ['\n'] + []);
    LinesOf(first, second + ['\n'] + []);
    LinesOf(second, []);
  }

  lemma TwoLinesRead(kind: Kind, first: string, second: string)
    requires StartsWith(first, "pid:") && StartsWith(second, kind.Key())
    ensures LastPid([first, second]) == PidIn(first)
    ensures LastValue(kind, [first, second])
            == if kind.Accepts(ValueIn(kind, second)) then Some(ValueIn(kind, second)) else None
  {
    KeysDiffer(kind, first);
    assert !StartsWith(second, "pid:") by {
      if StartsWith(second, "pid:") {
        KeysDiffer(kind, second);
      }
    }
    assert [first, second][..1] == [first] && [first][..0] == [];
    assert LastPid([first]) == PidIn(first) && LastValue(kind, [first]) == None;
  }

  /** The room a pair takes, as a caller can reckon it. */
  function Room(kind: Kind, pid: nat, value: string): nat {
    |Printed(pid)| + |value| + |kind.Key()| + 10
  }

  /**
   Print then parse: for every 32-bit process id and every value the writer takes, reading gives back
   exactly that pair when the value is acceptable and its text fits the bound, and nothing otherwise:
   never another pair.
   */
  lemma ReadsWhatWasWritten(kind: Kind, pid: nat, value: string)
    requires pid <= PID_MAX && Write(kind, pid, value).Some?
    ensures Read(kind, Write(kind, pid, value).value)
            == if kind.Accepts(value) && Room(kind, pid, value) <= kind.Limit() then Some(Pair(pid, value)) else None
  {
    BodyLines(kind, pid, value);
    PidLineReads(pid);
    ValueLineReads(kind, value);
    TwoLinesRead(kind, PidLine(pid), ValueLine(kind, value));
  }

  function LocalBase(host: string, port: nat): string {
    "http://" + (Loopback.Written(host) + [':'] + Printed(port)) + []
  }

  lemma LocalBaseIsToken(host: string, port: nat)
    requires Loopback.IsLoopbackHost(host)
    ensures IsToken(LocalBase(host, port)) && '/' !in Loopback.Written(host) + [':'] + Printed(port)
  {
    assert IsToken("http://") && IsToken(Loopback.Written(host)) && IsToken(Printed(port));
  }

  lemma LocalBaseIsAccepted(host: string, port: nat)
    requires Loopback.IsLoopbackHost(host) && port <= Loopback.PORT_MAX
    ensures IsToken(LocalBase(host, port)) && |LocalBase(host, port)| <= 22
    ensures Loopback.ParseEndpoint(LocalBase(host, port)) == Some(Loopback.Endpoint(host, port))
  {
    var authority := Loopback.Written(host) + [':'] + Printed(port);
    PrintedIsShort(port, 5);
    LocalBaseIsToken(host, port);
    Loopback.PrintedAuthority(host, port);
    Loopback.AuthorityIff(authority, host, port);
    Loopback.BaseIff("http://", authority, [], host, port);
  }

  /** The base of any local listener, written by any process, is read back. */
  lemma LocalBaseReadsBack(host: string, port: nat, pid: nat)
    requires Loopback.IsLoopbackHost(host) && port <= Loopback.PORT_MAX && pid <= PID_MAX
    ensures var base := LocalBase(host, port);
            && Write(ClientApi, pid, base).Some?
            && Read(ClientApi, Write(ClientApi, pid, base).value) == Some(Pair(pid, base))
  {
    LocalBaseIsAccepted(host, port);
    PrintedIsShort(pid, 10);
    ReadsWhatWasWritten(ClientApi, pid, LocalBase(host, port));
  }
}
