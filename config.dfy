/**
  The configuration section of the SignalR connection: the hub's socket address
  and mount path, and the two strings the client derives from them, the URL it
  connects to and the name of the hub proxy it binds.
 */
module Config {

  const Slash: char := '/'

  datatype SignalRConfig = SignalRConfig(serverSocket: string, serverHub: string, useSystemProxy: bool)

  /** The declared defaults: both strings empty and no system proxy. */
  function Defaults(): (c: SignalRConfig)
    ensures c.serverSocket == "" && c.serverHub == ""
    ensures HubUrl(c) == [Slash]
    ensures ProxyName(c) == ""
    ensures !c.useSystemProxy
  {
    var c := SignalRConfig("", "", false);
    assert TrimEnd(c.serverSocket, Slash) == [] && TrimStart(c.serverHub, Slash) == [];
    c
  }

  /** `s` made of `n` copies of the character `c`. */
  function Repeat(c: char, n: nat): (s: string)
    ensures |s| == n
    ensures forall i :: 0 <= i < n ==> s[i] == c
  {
    if n == 0 then [] else Repeat(c, n - 1) + [c]
  }

  /** String.TrimEnd(c): drops every trailing occurrence of `c`. */
  function TrimEnd(s: string, c: char): (r: string)
    ensures r <= s
    ensures |r| > 0 ==> r[|r| - 1] != c
    ensures forall i :: |r| <= i < |s| ==> s[i] == c
  {
    if |s| > 0 && s[|s| - 1] == c then TrimEnd(s[..|s| - 1], c) else s
  }

  /** `a` is a suffix of `b`. */
  predicate IsSuffix(a: string, b: string)
  {
    |a| <= |b| && a == b[|b| - |a|..]
  }

  /** String.TrimStart(c): drops every leading occurrence of `c`. */
  function TrimStart(s: string, c: char): (r: string)
    ensures IsSuffix(r, s)
    ensures |r| > 0 ==> r[0] != c
    ensures forall i :: 0 <= i < |s| - |r| ==> s[i] == c
  {
    if |s| > 0 && s[0] == c then TrimStart(s[1..], c) else s
  }

  /**
    The connect URL: the socket address without trailing slashes, one slash,
    and the hub path without leading slashes.
   */
  function HubUrl(c: SignalRConfig): (url: string)
    ensures |url| > 0
  {
    TrimEnd(c.serverSocket, Slash) + [Slash] + TrimStart(c.serverHub, Slash)
  }

  /** The separators of .NET Framework paths: directory, alternative directory and volume. */
  predicate IsSeparator(ch: char)
  {
    ch == '\\' || ch == '/' || ch == ':'
  }

  /** Index of the last separator in `s`, or -1 when there is none. */
  function LastSeparator(s: string): (i: int)
    ensures -1 <= i < |s|
    ensures i >= 0 ==> IsSeparator(s[i])
    ensures forall j :: i < j < |s| ==> !IsSeparator(s[j])
  {
    if |s| == 0 then -1
    else if IsSeparator(s[|s| - 1]) then |s| - 1
    else LastSeparator(s[..|s| - 1])
  }

  /** The character of `path` just before its suffix `tail` is a separator. */
  predicate SeparatorBefore(tail: string, path: string)
    requires |tail| < |path|
  {
    IsSeparator(path[|path| - |tail| - 1])
  }

  /** Path.GetFileName of the hub path: everything after its last separator. */
  function ProxyName(c: SignalRConfig): (name: string)
    ensures IsSuffix(name, c.serverHub)
    ensures forall i :: 0 <= i < |name| ==> !IsSeparator(name[i])
    ensures |name| < |c.serverHub| ==> SeparatorBefore(name, c.serverHub)
  {
    c.serverHub[LastSeparator(c.serverHub) + 1..]
  }

  /** A hub path without separators is its own proxy name. */
  lemma ProxyNameOfPlainName(c: SignalRConfig)
    requires forall i :: 0 <= i < |c.serverHub| ==> !IsSeparator(c.serverHub[i])
    ensures ProxyName(c) == c.serverHub
  {
  }

  /** Trailing copies of `c` make no difference to TrimEnd. */
  lemma {:induction false} TrimEndAbsorbs(s: string, c: char, n: nat)
    ensures TrimEnd(s + Repeat(c, n), c) == TrimEnd(s, c)
  {
    if n == 0 {
      assert s + Repeat(c, n) == s;
    } else {
      var t := s + Repeat(c, n);
      var u := s + Repeat(c, n - 1);
      assert t == u + [c];
      assert t[..|t| - 1] == u;
      assert TrimEnd(t, c) == TrimEnd(u, c);
      TrimEndAbsorbs(s, c, n - 1);
    }
  }

  /** Leading copies of `c` make no difference to TrimStart. */
  lemma {:induction false} TrimStartAbsorbs(s: string, c: char, n: nat)
    ensures TrimStart(Repeat(c, n) + s, c) == TrimStart(s, c)
  {
    if n == 0 {
      assert Repeat(c, 0) + s == s;
    } else {
      RepeatShifts(c, n);
      TrimStartDropsLead(c, Repeat(c, n - 1), s);
      TrimStartAbsorbs(s, c, n - 1);
    }
  }

  lemma TrimStartDropsLead(c: char, r: string, s: string)
    ensures TrimStart(([c] + r) + s, c) == TrimStart(r + s, c)
  {
    assert ([c] + r) + s == [c] + (r + s);
    TrimStartSkipsOne(c, r + s);
  }

  lemma TrimStartSkipsOne(c: char, u: string)
    ensures TrimStart([c] + u, c) == TrimStart(u, c)
  {
    assert ([c] + u)[1..] == u;
  }

  lemma RepeatShifts(c: char, n: nat)
    requires n > 0
    ensures Repeat(c, n) == [c] + Repeat(c, n - 1)
  {
    var a := Repeat(c, n);
    var b := [c] + Repeat(c, n - 1);
    assert |a| == |b|;
    assert forall i :: 0 <= i < |a| ==> a[i] == b[i];
  }

  /** Extra trailing slashes on the socket and extra leading slashes on the hub path do not change the URL. */
  lemma HubUrlIgnoresExtraSlashes(c: SignalRConfig, m: nat, n: nat)
    ensures HubUrl(SignalRConfig(c.serverSocket + Repeat(Slash, m), Repeat(Slash, n) + c.serverHub, c.useSystemProxy))
         == HubUrl(c)
  {
    TrimEndAbsorbs(c.serverSocket, Slash, m);
    TrimStartAbsorbs(c.serverHub, Slash, n);
  }

  /**
    The URL splits at one slash: before it a prefix of the socket that does not
    end in a slash and that lost only slashes, after it a suffix of the hub path
    that does not start with a slash and that lost only slashes.
   */
  lemma HubUrlJoinsWithOneSlash(c: SignalRConfig)
    ensures var url, j := HubUrl(c), |TrimEnd(c.serverSocket, Slash)|;
      && j < |url| && url[j] == Slash
      && url[..j] <= c.serverSocket
      && (forall i :: j <= i < |c.serverSocket| ==> c.serverSocket[i] == Slash)
      && (j > 0 ==> url[j - 1] != Slash)
      && (j + 1 < |url| ==> url[j + 1] != Slash)
      && |url| - j - 1 <= |c.serverHub|
      && url[j + 1..] == c.serverHub[|c.serverHub| - (|url| - j - 1)..]
      && (forall i :: 0 <= i < |c.serverHub| - (|url| - j - 1) ==> c.serverHub[i] == Slash)
  {
    var a, b := TrimEnd(c.serverSocket, Slash), TrimStart(c.serverHub, Slash);
    assert HubUrl(c) == a + [Slash] + b;
    SplitAtJoin(a, Slash, b);
  }

  lemma SplitAtJoin(a: string, x: char, b: string)
    ensures var u := a + [x] + b;
      && |u| == |a| + 1 + |b| && u[|a|] == x && u[..|a|] == a && u[|a| + 1..] == b
      && (|a| > 0 ==> u[|a| - 1] == a[|a| - 1])
      && (|b| > 0 ==> u[|a| + 1] == b[0])
  {
  }

  /** Trimming twice is trimming once. */
  lemma TrimIdempotent(s: string, c: char)
    ensures TrimEnd(TrimEnd(s, c), c) == TrimEnd(s, c)
    ensures TrimStart(TrimStart(s, c), c) == TrimStart(s, c)
  {
  }
}
