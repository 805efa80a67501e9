/** The endpoint check of the attach file: which bases are loopback, and the host and port they name. */
module Loopback {
  import opened Basics
  import opened TextForms

  const PORT_MAX: nat := 0xFFFF

  datatype Endpoint = Endpoint(host: string, port: nat)

  predicate IsLoopbackHost(host: string) {
    host == "127.0.0.1" || host == "localhost" || host == "::1"
  }

  /** Where the last such character is, or the length. */
  function LastIndexOf(s: string, c: char): (i: nat)
    ensures i <= |s| && (i < |s| ==> s[i] == c && c !in s[i + 1..]) && (i == |s| ==> c !in s)
  {
    if s == [] then 0
    else
      var i := LastIndexOf(s[1..], c);
      if i < |s| - 1 then i + 1 else if s[0] == c then 0 else |s|
  }

  function ParseAuthority(authority: string): Option<Endpoint> {
    if authority == [] || '@' in authority then None
    else if StartsWith(authority, "[::1]") then
      var rest := authority[5..];
      if rest == [] then Some(Endpoint("::1", 80))
      else if rest[0] != ':' then None
      else
        var port := ParseUint(rest[1..], PORT_MAX);
        if port.Some? then Some(Endpoint("::1", port.value)) else None
    else
      var i := LastIndexOf(authority, ':');
      if i == |authority| then
        if IsLoopbackHost(authority) then Some(Endpoint(authority, 80)) else None
      else
        var port := ParseUint(authority[i + 1..], PORT_MAX);
        if port.Some? && IsLoopbackHost(authority[..i]) then Some(Endpoint(authority[..i], port.value)) else None
  }

  function SchemeLength(v: string): (n: nat)
    ensures n <= |v|
  {
    if StartsWith(v, "http://") then 7 else if StartsWith(v, "https://") then 8 else 0
  }

  function ParseEndpoint(raw: string): Option<Endpoint> {
    var v := Trim(Trim(raw, IsWhitespace), IsQuote);
    if exists c :: c in v && !Plain(c) then None
    else if SchemeLength(v) == 0 then None
    else
      var rest := v[SchemeLength(v)..];
      ParseAuthority(rest[..IndexOf(rest, '/')])
  }

  // ── what an accepted authority looks like ──────────────────────────────────────────────────

  /** Text that parses as a port: digits, perhaps behind a plus sign. */
  predicate IsPort(text: string, port: nat) {
    ParseUint(text, PORT_MAX) == Some(port)
  }

  /** The host as it is written: the bare IPv6 form is taken too, but only before a port. */
  predicate Spells(authority: string, host: string, port: nat) {
    || (port == 80 && ((host == "::1" && authority == "[::1]") || (host != "::1" && authority == host)))
    || (host == "::1" && |authority| > 6 && authority[..6] == "[::1]:" && IsPort(authority[6..], port))
    || (|authority| > |host| && authority[..|host|] == host && authority[|host|] == ':'
        && IsPort(authority[|host| + 1..], port))
  }

  lemma PortHasOnlyDigits(text: string, port: nat, c: char)
    requires IsPort(text, port) && c in text
    ensures IsDigit(c) || c == '+'
  {
    assert |text| > 1 && text[0] == '+' ==> text == ['+'] + text[1..];
  }

  lemma LastIndexIs(s: string, c: char, i: nat)
    requires i < |s| && s[i] == c && c !in s[i + 1..]
    ensures LastIndexOf(s, c) == i
  {
    var k := LastIndexOf(s, c);
  }

  lemma PortHasNoMark(text: string, port: nat)
    requires IsPort(text, port)
    ensures ':' !in text && '@' !in text
  {
    forall c | c in text ensures c != '@' && c != ':' {
      PortHasOnlyDigits(text, port, c);
    }
  }

  /** The text from `i` on is a colon and a port. */
  lemma SplitAtPort(authority: string, i: nat, port: nat)
    requires i < |authority| && authority[i] == ':' && IsPort(authority[i + 1..], port)
    requires '@' !in authority[..i]
    ensures '@' !in authority && LastIndexOf(authority, ':') == i
  {
    PortHasNoMark(authority[i + 1..], port);
    assert authority == authority[..i] + [':'] + authority[i + 1..];
    LastIndexIs(authority, ':', i);
  }

  lemma HostHasNoAt(host: string)
    requires IsLoopbackHost(host)
    ensures '@' !in host && host != [] && host[0] != '['
  {
  }

  /** A host before a port is split off whole, and is not the bracketed form. */
  lemma HostAndPort(authority: string, host: string, port: nat)
    requires IsLoopbackHost(host) && |authority| > |host| && authority[..|host|] == host && authority[|host|] == ':'
    requires IsPort(authority[|host| + 1..], port)
    ensures ParseAuthority(authority) == Some(Endpoint(host, port))
  {
    HostHasNoAt(host);
    SplitAtPort(authority, |host|, port);
    assert authority[0] == host[0];
  }

  lemma BracketsAndPort(authority: string, port: nat)
    requires |authority| > 6 && authority[..6] == "[::1]:" && IsPort(authority[6..], port)
    ensures ParseAuthority(authority) == Some(Endpoint("::1", port))
  {
    assert authority[5] == authority[..6][5] == ':';
    assert authority[..5] == authority[..6][..5] == "[::1]";
    SplitAtPort(authority, 5, port);
    assert authority[5..][1..] == authority[6..];
  }

  lemma NameHasNoMark(host: string, c: char)
    requires (host == "127.0.0.1" || host == "localhost") && (c == ':' || c == '@')
    ensures c !in host
  {
  }

  lemma BareHost(host: string)
    requires IsLoopbackHost(host) && host != "::1"
    ensures ParseAuthority(host) == Some(Endpoint(host, 80))
  {
    assert host[0] != '[';
    NameHasNoMark(host, ':');
    NameHasNoMark(host, '@');
  }

  /** An authority names a loopback endpoint exactly when it spells one. */
  lemma AuthorityIff(authority: string, host: string, port: nat)
    ensures ParseAuthority(authority) == Some(Endpoint(host, port))
            <==> IsLoopbackHost(host) && Spells(authority, host, port)
  {
    if IsLoopbackHost(host) && Spells(authority, host, port) {
      if host == "::1" && |authority| > 6 && authority[..6] == "[::1]:" && IsPort(authority[6..], port) {
        BracketsAndPort(authority, port);
      } else if port == 80 && host != "::1" && authority == host {
        BareHost(host);
      } else if authority != "[::1]" {
        HostAndPort(authority, host, port);
      }
    }
  }

  /** A base is judged by its authority alone: what follows the first slash does not matter. */
  lemma BaseIff(scheme: string, authority: string, path: string, host: string, port: nat)
    requires scheme == "http://" || scheme == "https://"
    requires '/' !in authority && (path != [] ==> path[0] == '/') && IsToken(scheme + authority + path)
    ensures ParseEndpoint(scheme + authority + path) == Some(Endpoint(host, port))
            <==> IsLoopbackHost(host) && Spells(authority, host, port)
  {
    var v := scheme + authority + path;
    TokenIsItself(v);
    assert v[..|scheme|] == scheme && v[|scheme|..] == authority + path;
    assert SchemeLength(v) == |scheme| by {
      assert scheme == "https://" ==> v[..7] == scheme[..7] && scheme[4] != "http://"[4];
    }
    assert (authority + path)[..|authority|] == authority;
    IndexIs(authority + path, '/', |authority|);
    AuthorityIff(authority, host, port);
  }

  function Written(host: string): string {
    if host == "::1" then "[::1]" else host
  }

  /** Printing a loopback host and a 16-bit port and parsing the authority gives them back. */
  lemma PrintedAuthority(host: string, port: nat)
    requires IsLoopbackHost(host) && port <= PORT_MAX
    ensures ParseAuthority(Written(host) + [':'] + Printed(port)) == Some(Endpoint(host, port))
  {
    var authority := Written(host) + [':'] + Printed(port);
    ParsePrinted(port, PORT_MAX);
    assert authority[|Written(host)| + 1..] == Printed(port);
    if host == "::1" {
      assert authority[..6] == "[::1]:";
      BracketsAndPort(authority, port);
    } else {
      assert authority[..|host|] == host;
      HostAndPort(authority, host, port);
    }
  }

  /** No other scheme is taken, and nothing with a character outside visible ASCII. */
  lemma AcceptedIsHttp(raw: string)
    requires ParseEndpoint(raw).Some?
    ensures var v := Trim(Trim(raw, IsWhitespace), IsQuote);
            && (StartsWith(v, "http://") || StartsWith(v, "https://")) && forall c :: c in v ==> Plain(c)
  {
  }
}
