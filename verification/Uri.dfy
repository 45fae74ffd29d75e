/** Parsing and printing URIs, and what survives both: printing and parsing
    again returns a valid parse exactly if its host is plain. The parser of the
    code reads scheme, host, port and resource one after the other. */
module Uri {

  import opened Messages
  import opened Numbers

  datatype Uri = Uri(scheme: string, host: string, resource: string, port: nat, secure: bool, valid: bool)

  /** Parsing builds an object, or std::stoul throws. */
  datatype Outcome = Thrown | Built(uri: Uri)

  const BLANK := Uri("", "", "", 0, false, false)

  const ULONG_MAX := 0xFFFF_FFFF_FFFF_FFFF

  function DefaultPort(secure: bool): nat {
    if secure then 443 else 80
  }

  // ---------------------------------------------------------------- numbers

  /** std::stoul: leading blanks and a sign are accepted, and so is anything after the digits. */
  function Stoul(s: string): Option<nat> {
    var t := SkipSpace(s);
    var signed := t != "" && (t[0] == '+' || t[0] == '-');
    var digits := if signed then t[1..] else t;
    var k := LeadingDigits(digits);
    var n := Number(digits, k);
    if k == 0 || n > ULONG_MAX then None
    else if signed && t[0] == '-' && n > 0 then Some(ULONG_MAX + 1 - n)
    else Some(n)
  }

  lemma StoulOfDecimal(n: nat)
    requires n <= ULONG_MAX
    ensures Stoul(Decimal(n)) == Some(n)
  {
    var s := Decimal(n);
    assert IsDigit(s[0]);
    DigitsLead(s);
    NumberOfDecimal(n);
  }

  // ---------------------------------------------------------------- parsing

  /** The position of the first character that ends a host, or the length. */
  function HostEnd(s: string): (k: nat)
    ensures k <= |s| && forall i :: 0 <= i < k ==> s[i] != '/' && s[i] != ':'
    ensures k < |s| ==> s[k] == '/' || s[k] == ':'
  {
    if s == "" || s[0] == '/' || s[0] == ':' then 0
    else
      assert forall i :: 0 < i < |s| ==> s[i] == s[1..][i - 1];
      1 + HostEnd(s[1..])
  }

  function IndexOf(s: string, c: char): (k: nat)
    ensures k <= |s| && (forall i :: 0 <= i < k ==> s[i] != c) && (k < |s| ==> s[k] == c)
  {
    if s == "" || s[0] == c then 0
    else
      assert forall i :: 0 < i < |s| ==> s[i] == s[1..][i - 1];
      1 + IndexOf(s[1..], c)
  }

  /** Where the scheme and its two slashes end; nothing when the string is too short or has another scheme. */
  function SchemeEnd(s: string): nat {
    if |s| >= 7 && s[..6] == "wss://" then 6
    else if |s| >= 6 && s[..5] == "ws://" then 5
    else if |s| >= 8 && s[..7] == "http://" then 7
    else if |s| >= 9 && s[..8] == "https://" then 8
    else 0
  }

  predicate IsSecure(scheme: string) {
    scheme == "wss" || scheme == "https"
  }

  function PortFrom(port: string, secure: bool): Option<nat> {
    if port == "" then Some(DefaultPort(secure)) else Stoul(port)
  }

  /** The port is stored in sixteen bits. */
  function Finish(scheme: string, host: string, port: string, path: string): Outcome {
    match PortFrom(port, IsSecure(scheme))
    case None => Thrown
    case Some(n) => Built(Uri(scheme, host, "/" + path, n % 0x1_0000, IsSecure(scheme), 0 < n <= 65535))
  }

  function ParsePort(scheme: string, host: string, s: string): Outcome {
    var k := IndexOf(s, '/');
    Finish(scheme, host, s[..k], if k < |s| then s[k + 1..] else "")
  }

  /** What follows the host: nothing, a path, or a port. */
  function ParseTail(scheme: string, host: string, s: string): Outcome {
    if s == "" then Finish(scheme, host, "", "")
    else if s[0] == '/' then Finish(scheme, host, "", s[1..])
    else if s[0] == ':' then ParsePort(scheme, host, s[1..])
    else Built(BLANK.(scheme := scheme, host := host, secure := IsSecure(scheme)))
  }

  function ParseAuthority(scheme: string, s: string): Outcome
    requires s != ""
  {
    if s[0] == '[' then
      var t := s[1..];
      var k := IndexOf(t, ']');
      if k == |t| then Built(BLANK.(scheme := scheme, secure := IsSecure(scheme)))
      else ParseTail(scheme, t[..k], t[k + 1..])
    else
      var k := HostEnd(s);
      ParseTail(scheme, s[..k], s[k..])
  }

  function Parse(s: string): Outcome {
    var n := SchemeEnd(s);
    if n == 0 then Built(BLANK) else ParseAuthority(s[..n - 3], s[n..])
  }

  // ---------------------------------------------------------------- printing

  function PortText(u: Uri): string {
    if u.port == DefaultPort(u.secure) then "" else ":" + Decimal(u.port)
  }

  function Str(u: Uri): string {
    u.scheme + "://" + u.host + PortText(u) + u.resource
  }

  // ---------------------------------------------------------------- printing and parsing again

  predicate KnownScheme(scheme: string) {
    scheme == "ws" || scheme == "wss" || scheme == "http" || scheme == "https"
  }

  /** A host that was not, or need not have been, written in brackets. */
  predicate PlainHost(host: string) {
    HostEnd(host) == |host| && (host == "" || host[0] != '[')
  }

  predicate WellFormed(u: Uri) {
    && u.valid && KnownScheme(u.scheme) && u.secure == IsSecure(u.scheme)
    && 1 <= u.port <= 65535 && u.resource != "" && u.resource[0] == '/'
  }

  lemma SchemeOf(scheme: string, s: string)
    requires KnownScheme(scheme) && s != ""
    ensures var t := scheme + "://" + s;
      SchemeEnd(t) == |scheme| + 3 && t[..|scheme|] == scheme && t[|scheme| + 3..] == s
  {
    var t := scheme + "://" + s;
    Beginning(scheme + "://", s);
    if scheme == "ws" {
      assert t[2] == "ws://"[2] == ':';
      NotBeginning(t, "wss://", 2);
    } else if scheme == "http" {
      assert t[0] == "http://"[0] == 'h';
      NotBeginning(t, "wss://", 0);
      NotBeginning(t, "ws://", 0);
    } else if scheme == "https" {
      assert t[0] == "https://"[0] == 'h' && t[4] == "https://"[4] == 's';
      NotBeginning(t, "wss://", 0);
      NotBeginning(t, "ws://", 0);
      NotBeginning(t, "http://", 4);
    }
  }

  lemma Beginning(p: string, s: string)
    ensures (p + s)[..|p|] == p && (p + s)[|p|..] == s && forall i :: 0 <= i < |p| ==> (p + s)[i] == p[i]
  {
  }

  lemma NotBeginning(t: string, p: string, i: nat)
    requires i < |p| && i < |t| && t[i] != p[i]
    ensures |t| >= |p| ==> t[..|p|] != p
  {
    if |t| >= |p| {
      assert t[..|p|][i] == t[i];
    }
  }

  lemma HostEndOf(host: string, s: string)
    requires s != "" && (s[0] == '/' || s[0] == ':')
    ensures HostEnd(host + s) <= |host|
    ensures HostEnd(host + s) == |host| <==> HostEnd(host) == |host|
  {
    Beginning(host, s);
    assert (host + s)[|host|] == s[0];
  }

  lemma IndexOfSlash(port: string, path: string)
    requires AllDigits(port)
    ensures IndexOf(port + "/" + path, '/') == |port|
  {
    var s := port + "/" + path;
    assert s[|port|] == '/';
    assert forall i :: 0 <= i < |port| ==> s[i] == port[i];
  }

  /** What follows the host when a URI is printed. */
  function Tail(u: Uri): string {
    PortText(u) + u.resource
  }

  lemma TailStarts(u: Uri)
    requires WellFormed(u)
    ensures Tail(u) != "" && (Tail(u)[0] == '/' || Tail(u)[0] == ':')
  {
    hide Decimal;
  }

  lemma TailReturns(u: Uri)
    requires WellFormed(u)
    ensures ParseTail(u.scheme, u.host, Tail(u)) == Built(u)
  {
    hide Decimal, Stoul;
    var path := u.resource[1..];
    assert u.resource == "/" + path;
    if u.port == DefaultPort(u.secure) {
      assert Tail(u) == u.resource;
    } else {
      PortReturns(u, path);
    }
  }

  lemma PortReturns(u: Uri, path: string)
    requires WellFormed(u) && u.port != DefaultPort(u.secure) && u.resource == "/" + path
    ensures ParseTail(u.scheme, u.host, Tail(u)) == Built(u)
  {
    hide Decimal, Stoul;
    var d := Decimal(u.port);
    var s := d + "/" + path;
    assert Tail(u) == ":" + s;
    assert Tail(u)[0] == ':' && Tail(u)[1..] == s;
    hide Tail;
    IndexOfSlash(d, path);
    hide IndexOf;
    assert s[..|d|] == d && s[|d| + 1..] == path;
    StoulOfDecimal(u.port);
    FinishPort(u, path);
  }

  lemma FinishPort(u: Uri, path: string)
    requires WellFormed(u) && u.resource == "/" + path && Stoul(Decimal(u.port)) == Some(u.port)
    ensures Finish(u.scheme, u.host, Decimal(u.port), path) == Built(u)
  {
    hide Decimal, Stoul;
  }

  /** Printing and parsing again comes down to parsing what follows the scheme. */
  lemma ParseStr(u: Uri)
    requires WellFormed(u)
    ensures u.host + Tail(u) != "" && Parse(Str(u)) == ParseAuthority(u.scheme, u.host + Tail(u))
  {
    TailStarts(u);
    hide SchemeEnd, ParseAuthority;
    var rest := u.host + Tail(u);
    assert Str(u) == u.scheme + "://" + rest;
    SchemeOf(u.scheme, rest);
  }

  /** Parsing what was printed returns every field, for every plain host. */
  lemma ParseOfStr(u: Uri)
    requires WellFormed(u) && PlainHost(u.host)
    ensures Parse(Str(u)) == Built(u)
  {
    hide Parse, Str, ParseTail, Tail, HostEnd;
    ParseStr(u);
    TailStarts(u);
    var rest := u.host + Tail(u);
    HostEndOf(u.host, Tail(u));
    Beginning(u.host, Tail(u));
    assert rest[0] == if u.host == "" then Tail(u)[0] else u.host[0];
    TailReturns(u);
  }

  lemma TailKeepsHost(scheme: string, host: string, s: string)
    ensures ParseTail(scheme, host, s).Built? ==> ParseTail(scheme, host, s).uri.host == host
  {
    hide PortFrom, IndexOf;
  }

  /** A host that is not plain is not found again. */
  lemma OnlyPlainHosts(u: Uri)
    requires WellFormed(u) && Parse(Str(u)) == Built(u)
    ensures PlainHost(u.host)
  {
    hide Parse, Str, ParseTail, Tail, HostEnd, IndexOf;
    ParseStr(u);
    TailStarts(u);
    var rest := u.host + Tail(u);
    Beginning(u.host, Tail(u));
    if rest[0] == '[' {
      var k := IndexOf(rest[1..], ']');
      if k < |rest[1..]| {
        TailKeepsHost(u.scheme, rest[1..][..k], rest[1..][k + 1..]);
        assert rest[|u.host|] == Tail(u)[0];
        Shifted(u.host, rest, |u.host|);
      }
    } else {
      TailKeepsHost(u.scheme, rest[..HostEnd(rest)], rest[HostEnd(rest)..]);
      HostEndOf(u.host, Tail(u));
      assert u.host != "" ==> rest[0] == u.host[0];
    }
  }

  /** A text that repeats itself one place further on consists of one character. */
  lemma {:induction false} Shifted(host: string, rest: string, n: nat)
    requires n <= |host| < |rest| && rest[0] == '[' && rest[..|host|] == host && rest[1..][..|host|] == host
    ensures rest[n] == '['
  {
    if n > 0 {
      Shifted(host, rest, n - 1);
      assert rest[1..][..|host|][n - 1] == rest[n] && rest[..|host|][n - 1] == rest[n - 1];
    }
  }

  lemma FinishIsWellFormed(scheme: string, host: string, port: string, path: string)
    requires KnownScheme(scheme)
    ensures var o := Finish(scheme, host, port, path);
      o.Built? && o.uri.valid ==> WellFormed(o.uri) && o.uri.host == host
  {
    hide Stoul;
  }

  lemma TailIsWellFormed(scheme: string, host: string, s: string)
    requires KnownScheme(scheme)
    ensures var o := ParseTail(scheme, host, s);
      o.Built? && o.uri.valid ==> WellFormed(o.uri) && o.uri.host == host
  {
    hide Finish, WellFormed, IndexOf;
    if s == "" {
      FinishIsWellFormed(scheme, host, "", "");
    } else if s[0] == '/' {
      FinishIsWellFormed(scheme, host, "", s[1..]);
    } else if s[0] == ':' {
      var t := s[1..];
      var k := IndexOf(t, '/');
      FinishIsWellFormed(scheme, host, t[..k], if k < |t| then t[k + 1..] else "");
    }
  }

  lemma SchemeIsKnown(s: string)
    requires SchemeEnd(s) > 0
    ensures 5 <= SchemeEnd(s) < |s| && KnownScheme(s[..SchemeEnd(s) - 3])
  {
    var n := SchemeEnd(s);
    assert s[..n][..n - 3] == s[..n - 3];
    assert "ws://"[..2] == "ws" && "wss://"[..3] == "wss" && "http://"[..4] == "http" && "https://"[..5] == "https";
  }

  lemma ParsedIsWellFormed(s: string)
    requires Parse(s).Built? && Parse(s).uri.valid
    ensures SchemeEnd(s) < |s| && WellFormed(Parse(s).uri)
    ensures s[SchemeEnd(s)] != '[' ==> PlainHost(Parse(s).uri.host)
  {
    hide SchemeEnd, KnownScheme, ParseTail, WellFormed, HostEnd, IndexOf;
    SchemeIsKnown(s);
    var n := SchemeEnd(s);
    var scheme, rest := s[..n - 3], s[n..];
    if rest[0] == '[' {
      var t := rest[1..];
      var k := IndexOf(t, ']');
      if k < |t| {
        TailIsWellFormed(scheme, t[..k], t[k + 1..]);
      }
    } else {
      var k := HostEnd(rest);
      TailIsWellFormed(scheme, rest[..k], rest[k..]);
      PlainPrefix(rest);
    }
  }

  lemma PlainPrefix(s: string)
    requires s != "" && s[0] != '['
    ensures PlainHost(s[..HostEnd(s)])
  {
    var h := s[..HostEnd(s)];
    assert forall i :: 0 <= i < |h| ==> h[i] == s[i];
  }

  /**
   * A valid URI is returned by printing and parsing it exactly when its host is plain; the printer drops the brackets
   * of an IPv6 address. A host that was not written in brackets is always plain.
   */
  lemma StrIsStable(s: string)
    requires Parse(s).Built? && Parse(s).uri.valid
    ensures Parse(Str(Parse(s).uri)) == Parse(s) <==> PlainHost(Parse(s).uri.host)
    ensures SchemeEnd(s) < |s| && (s[SchemeEnd(s)] != '[' ==> PlainHost(Parse(s).uri.host))
  {
    hide Parse, Str, PlainHost, WellFormed, SchemeEnd;
    var u := Parse(s).uri;
    ParsedIsWellFormed(s);
    if PlainHost(u.host) {
      ParseOfStr(u);
    } else if Parse(Str(u)) == Built(u) {
      OnlyPlainHosts(u);
    }
  }

  // ---------------------------------------------------------------- the loops of the source

  method GetPortFromString(port: string, secure: bool) returns (parsed: Option<nat>, valid: bool)
    ensures parsed == match PortFrom(port, secure) { case None => None case Some(n) => Some(n % 0x1_0000) }
    ensures PortFrom(port, secure).Some? ==> (valid <==> 0 < PortFrom(port, secure).value <= 65535)
  {
    valid := true;
    if port == "" {
      return Some(DefaultPort(secure)), true;
    }
    var number := Stoul(port);
    if number == None {
      return None, true;
    }
    if number.value > 65535 {
      valid := false;
    }
    if number.value == 0 {
      valid := false;
    }
    parsed := Some(number.value % 0x1_0000);
  }

  /** The host that ends at the first ':' or '/', the position after that character, and the state. */
  method ReadHost(s: string, start: nat) returns (host: string, it: nat, state: int)
    requires start < |s|
    ensures var k := HostEnd(s[start..]);
      host == s[start..][..k] && it == (if start + k < |s| then start + k + 1 else |s|) &&
      state == if start + k < |s| && s[start + k] == ':' then 1 else 2
  {
    host, it, state := "", start, 0;
    while state == 0
      invariant start <= it <= |s| && 0 <= state <= 2
      invariant state == 0 ==> host == s[start..it] && forall i :: start <= i < it ==> s[i] != '/' && s[i] != ':'
      invariant state != 0 ==> HostRead(s, start, host, it, state)
      decreases |s| - it, if state == 0 then 1 else 0
    {
      if it == |s| {
        state := 2;
        HostReadToEnd(s, start);
        break;
      }
      if s[it] == '/' {
        state := 2;
      } else if s[it] == ':' {
        state := 1;
      } else {
        host := host + [s[it]];
      }
      it := it + 1;
      if state != 0 {
        HostReadTo(s, start, it - 1);
      }
    }
  }

  predicate HostRead(s: string, start: nat, host: string, it: nat, state: int)
    requires start <= |s|
  {
    var k := HostEnd(s[start..]);
    host == s[start..][..k] && it == (if start + k < |s| then start + k + 1 else |s|) &&
    state == if start + k < |s| && s[start + k] == ':' then 1 else 2
  }

  lemma HostReadTo(s: string, start: nat, end: nat)
    requires start <= end < |s| && (s[end] == '/' || s[end] == ':')
    requires forall i :: start <= i < end ==> s[i] != '/' && s[i] != ':'
    ensures HostEnd(s[start..]) == end - start && s[start..][..end - start] == s[start..end]
  {
    assert s[start..][end - start] == s[end];
    assert forall i :: 0 <= i < end - start ==> s[start..][i] == s[start + i];
  }

  lemma HostReadToEnd(s: string, start: nat)
    requires start <= |s| && forall i :: start <= i < |s| ==> s[i] != '/' && s[i] != ':'
    ensures HostEnd(s[start..]) == |s| - start
  {
    assert forall i :: 0 <= i < |s| - start ==> s[start..][i] == s[start + i];
  }

  /** The port up to the next '/' or the end, and the position after it. */
  method ReadPort(s: string, start: nat) returns (port: string, it: nat)
    requires start <= |s|
    ensures var k := IndexOf(s[start..], '/');
      port == s[start..][..k] && it == if start + k < |s| then start + k + 1 else |s|
  {
    hide IndexOf;
    port, it := "", start;
    var state := 1;
    ghost var end := start;
    while state == 1
      invariant start <= end <= |s| && it == (if state == 1 then end else end + 1)
      invariant state != 1 ==> end < |s| && s[end] == '/'
      invariant port == s[start..end] && forall i :: start <= i < end ==> s[i] != '/'
      decreases |s| - it, if state == 1 then 1 else 0
    {
      if it == |s| {
        break;
      }
      if s[it] == '/' {
        state := 3;
      } else {
        port := port + [s[it]];
        end := end + 1;
      }
      it := it + 1;
    }
    PortRead(s, start, end);
  }

  lemma PortRead(s: string, start: nat, end: nat)
    requires start <= end <= |s| && (end < |s| ==> s[end] == '/')
    requires forall i :: start <= i < end ==> s[i] != '/'
    ensures IndexOf(s[start..], '/') == end - start && s[start..][..end - start] == s[start..end]
  {
    assert end < |s| ==> s[start..][end - start] == s[end];
    assert forall i :: 0 <= i < end - start ==> s[start..][i] == s[start + i];
  }

  method FindBracket(s: string, start: nat) returns (temp: nat)
    requires start <= |s|
    ensures temp == start + IndexOf(s[start..], ']') && temp <= |s|
  {
    temp := start;
    while temp < |s|
      invariant start <= temp <= |s| && forall i :: start <= i < temp ==> s[i] != ']'
    {
      if s[temp] == ']' {
        break;
      }
      temp := temp + 1;
    }
    assert temp < |s| ==> s[start..][temp - start] == s[temp];
    assert forall i :: 0 <= i < temp - start ==> s[start..][i] == s[start + i];
  }

  method ReadScheme(s: string) returns (scheme: string, secure: bool, it: nat)
    ensures it == SchemeEnd(s) && (it > 0 ==> 5 <= it < |s| && scheme == s[..it - 3] && secure == IsSecure(scheme))
  {
    scheme, secure, it := "", false, 0;
    if |s| >= 7 && s[..6] == "wss://" {
      scheme, secure, it := "wss", true, 6;
      assert s[..3] == s[..6][..3] == "wss";
    } else if |s| >= 6 && s[..5] == "ws://" {
      scheme, secure, it := "ws", false, 5;
      assert s[..2] == s[..5][..2] == "ws";
    } else if |s| >= 8 && s[..7] == "http://" {
      scheme, secure, it := "http", false, 7;
      assert s[..4] == s[..7][..4] == "http";
    } else if |s| >= 9 && s[..8] == "https://" {
      scheme, secure, it := "https", true, 8;
      assert s[..5] == s[..8][..5] == "https";
    }
  }

  /** The text from `it` on, in the given state, as what follows the host. */
  function TailAt(s: string, it: nat, state: int): string
    requires it <= |s|
  {
    if state == 1 then ":" + s[it..] else "/" + s[it..]
  }

  lemma SameTail(scheme: string, host: string)
    ensures ParseTail(scheme, host, "") == ParseTail(scheme, host, "/")
  {
  }

  lemma HostSplits(scheme: string, s: string, start: nat, host: string, it: nat, state: int)
    requires start < |s| && s[start] != '[' && HostRead(s, start, host, it, state)
    ensures it <= |s| && ParseAuthority(scheme, s[start..]) == ParseTail(scheme, host, TailAt(s, it, state))
  {
    var t := s[start..];
    var k := HostEnd(t);
    hide ParseTail, HostEnd;
    if k == |t| {
      assert t[k..] == "" && s[it..] == "";
      SameTail(scheme, host);
    } else {
      assert t[k..] == [t[k]] + s[it..];
    }
  }

  method ReadRest(s: string, start: nat, scheme: string, host: string, state: int) returns (o: Outcome)
    requires start <= |s|
    ensures o == ParseTail(scheme, host, TailAt(s, start, state))
  {
    hide Stoul, IndexOf;
    var port, it := "", start;
    if state == 1 {
      port, it := ReadPort(s, start);
      PathAfter(s, start);
    }
    assert TailAt(s, start, state)[1..] == s[start..];
    var number, valid := GetPortFromString(port, IsSecure(scheme));
    if number == None {
      return Thrown;
    }
    o := Built(Uri(scheme, host, "/" + s[it..], number.value, IsSecure(scheme), valid));
  }

  lemma PathAfter(s: string, start: nat)
    requires start <= |s|
    ensures var k, t := IndexOf(s[start..], '/'), s[start..];
      (if k < |t| then t[k + 1..] else "") == if start + k < |s| then s[start + k + 1..] else s[|s|..]
  {
  }

  method ParseUri(s: string) returns (o: Outcome)
    ensures o == Parse(s)
  {
    hide SchemeEnd, ParseTail, HostEnd, IndexOf, TailAt;
    var scheme, secure, start := ReadScheme(s);
    if start == 0 {
      return Built(BLANK);
    }
    if s[start] == '[' {
      o := ParseBracketed(s, start, scheme, secure);
    } else {
      var host, it, state := ReadHost(s, start);
      HostSplits(scheme, s, start, host, it, state);
      o := ReadRest(s, it, scheme, host, state);
    }
  }

  method ParseBracketed(s: string, start: nat, scheme: string, secure: bool) returns (o: Outcome)
    requires start < |s| && s[start] == '[' && secure == IsSecure(scheme)
    ensures o == ParseAuthority(scheme, s[start..])
  {
    hide ParseTail, IndexOf;
    var it := start + 1;
    var temp := FindBracket(s, it);
    assert s[start..][1..] == s[it..];
    if temp == |s| {
      return Built(BLANK.(scheme := scheme, secure := secure));
    }
    var host := s[it..temp];
    assert s[it..][..temp - it] == host && s[it..][temp - it + 1..] == s[temp + 1..];
    o := ReadAfterBracket(s, temp + 1, scheme, secure, host);
  }

  method ReadAfterBracket(s: string, start: nat, scheme: string, secure: bool, host: string) returns (o: Outcome)
    requires start <= |s| && secure == IsSecure(scheme)
    ensures o == ParseTail(scheme, host, s[start..])
  {
    hide Finish, ParsePort;
    var it, state := start, 2;
    if it == |s| {
      state := 2;
      SameTail(scheme, host);
    } else if s[it] == '/' {
      state := 2;
      it := it + 1;
    } else if s[it] == ':' {
      state := 1;
      it := it + 1;
    } else {
      return Built(BLANK.(scheme := scheme, host := host, secure := secure));
    }
    assert TailAt(s, it, state) == if start == |s| then "/" else s[start..];
    hide ParseTail;
    o := ReadRest(s, it, scheme, host, state);
  }
}
