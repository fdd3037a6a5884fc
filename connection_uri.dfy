// The libvirt connection URI of the vendored terraform-provider-libvirt
// `uri` package: a URI `driver[+transport]://[user@][host]/path[?query]`
// names the hypervisor driver, the transport used to reach libvirtd, and
// the name passed on to the remote `virConnectOpen`.  The URI arrives parsed
// into its components (as `url.Parse` leaves them, percent-encoding aside).

module ConnectionUri {
  import opened Wrappers
  import opened Strs

  /** The fields of a parsed `url.URL` the package reads or prints. */
  datatype URL = URL(scheme: string, user: Option<string>, host: string, path: string, rawQuery: string,
                     fragment: string)

  // ----- the query -----

  /** A query's `key=value` pieces (a piece without `=` has the empty value), in order. */
  function QueryPairs(rawQuery: string): (pairs: seq<(string, string)>)
  {
    var pieces := Split(rawQuery, "&");
    seq(|pieces|, i requires 0 <= i < |pieces| => PairOf(pieces[i]))
  }

  /** One `key=value` piece split at its first `=`. */
  function PairOf(piece: string): (kv: (string, string))
    ensures '=' !in kv.0
    ensures '=' in piece ==> piece == kv.0 + "=" + kv.1
    ensures '=' !in piece ==> kv == (piece, "")
  {
    match Index(piece, "=")
    case None => NotContained(piece, '='); (piece, "")
    case Some(i) =>
      assert piece[i..i + 1] == "=";
      assert piece == piece[..i] + "=" + piece[i + 1..];
      NoOccurrenceInPrefix(piece, "=", i);
      NotContained(piece[..i], '=');
      (piece[..i], piece[i + 1..])
  }

  /** A character that does not occur as a one-character substring is not in `s`. */
  lemma NotContained(s: string, c: char)
    requires !Contains(s, [c])
    ensures c !in s
  {
    forall j | 0 <= j < |s|
      ensures s[j] != c
    {
      assert s[j..j + 1] == [s[j]];
      assert !OccursAt(s, [c], j);
    }
  }

  /** `url.Values.Get(key)`: the value of the first pair with this key, or "" when there is none. */
  function Lookup(pairs: seq<(string, string)>, key: string): (v: string)
    ensures v != "" ==> exists i :: 0 <= i < |pairs| && pairs[i] == (key, v)
    ensures (forall i :: 0 <= i < |pairs| ==> pairs[i].0 != key) ==> v == ""
  {
    if |pairs| == 0 then ""
    else if pairs[0].0 == key then pairs[0].1
    else
      var v := Lookup(pairs[1..], key);
      assert v != "" ==> exists i :: 0 <= i < |pairs| && pairs[i] == (key, v) by {
        if v != "" {
          var i :| 0 <= i < |pairs[1..]| && pairs[1..][i] == (key, v);
          assert pairs[i + 1] == (key, v);
        }
      }
      v
  }

  /** The first piece of the query names `key`: its value is what `Get` answers. */
  lemma LookupFirst(key: string, value: string, rest: seq<(string, string)>)
    ensures Lookup([(key, value)] + rest, key) == value
  {
  }

  /** `u.Query().Get(key)`. */
  function QueryGet(u: URL, key: string): string {
    Lookup(QueryPairs(u.rawQuery), key)
  }

  // ----- driver and transport -----

  /** The first piece of a split joins back as the text's prefix, followed by `+` when there are more. */
  lemma JoinHead(parts: seq<string>)
    requires |parts| >= 1
    ensures HasPrefix(Join(parts, "+"), parts[0])
    ensures |parts| > 1 ==> HasPrefix(Join(parts, "+"), parts[0] + "+" + parts[1])
    ensures |parts| > 1 ==> Join(parts, "+")[|parts[0]|] == '+'
  {
    if |parts| > 1 {
      var rest := Join(parts[1..], "+");
      assert Join(parts, "+") == parts[0] + "+" + rest;
      JoinHead(parts[1..]);
      assert HasPrefix(rest, parts[1]);
      assert (parts[0] + "+" + rest)[..|parts[0] + "+" + parts[1]|] == parts[0] + "+" + rest[..|parts[1]|];
    }
  }

  /** `driver()`: the scheme up to its first `+`, the whole scheme when there is none. */
  function Driver(u: URL): (r: string)
    ensures HasPrefix(u.scheme, r) && '+' !in r
    ensures '+' !in u.scheme ==> r == u.scheme
    ensures '+' in u.scheme ==> |r| < |u.scheme| && u.scheme[|r|] == '+'
  {
    var parts := Split(u.scheme, "+");
    JoinHead(parts);
    NotContained(parts[0], '+');
    if '+' !in u.scheme then
      AbsentChar(u.scheme, '+');
      parts[0]
    else
      assert |parts| > 1 by {
        if |parts| == 1 { NotContained(u.scheme, '+'); }
      }
      parts[0]
  }

  /**
   * `transport()`: the second `+`-separated piece of the scheme; without a
   * `+`, TLS to a named host and the local UNIX socket otherwise.
   */
  function Transport(u: URL): (r: string)
    ensures '+' in u.scheme ==> HasPrefix(u.scheme, Driver(u) + "+" + r) && '+' !in r
    ensures '+' !in u.scheme ==> r == (if u.host != "" then "tls" else "unix")
  {
    var parts := Split(u.scheme, "+");
    if |parts| > 1 then
      JoinHead(parts);
      NotContained(parts[1], '+');
      parts[1]
    else
      assert '+' !in u.scheme by { NotContained(u.scheme, '+'); }
      if u.host != "" then "tls" else "unix"
  }

  /** `driver+transport` reads back as that driver and that transport. */
  lemma SchemeRoundTrip(u: URL, driver: string, transport: string)
    requires '+' !in driver && '+' !in transport
    ensures Driver(u.(scheme := driver + "+" + transport)) == driver
    ensures Transport(u.(scheme := driver + "+" + transport)) == transport
  {
    SplitAtOnly(driver, transport, '+');
  }

  /** The example of the package's own documentation: `qemu+ssh` is the QEMU driver over SSH. */
  lemma QemuOverSsh(u: URL)
    requires u.scheme == "qemu+ssh"
    ensures Driver(u) == "qemu" && Transport(u) == "ssh"
  {
    assert u.scheme == "qemu" + "+" + "ssh";
    SchemeRoundTrip(u, "qemu", "ssh");
  }

  // ----- dialing -----

  /** The transports the package can dial. */
  datatype Dialer = Tcp | Tls | Unix | Ssh

  /** The transport name each dialer answers to. */
  function DialerName(d: Dialer): string {
    match d
    case Tcp => "tcp"
    case Tls => "tls"
    case Unix => "unix"
    case Ssh => "ssh"
  }

  /** The dialer for a transport name: one of the four the package implements, or an error. */
  function DialerFor(t: string): (r: Result<Dialer>)
    ensures r.Ok? ==> DialerName(r.value) == t
    ensures r.Err? ==> (forall d: Dialer :: DialerName(d) != t) && r.error == Fail("transport '" + t + "' not implemented")
  {
    if t == "tcp" then Ok(Tcp)
    else if t == "tls" then Ok(Tls)
    else if t == "unix" then Ok(Unix)
    else if t == "ssh" then Ok(Ssh)
    else Err(Fail("transport '" + t + "' not implemented"))
  }

  /**
   * `DialTransport()` dispatch: the dialer for the URI's transport, or
   * "transport '<t>' not implemented" for any other transport.
   */
  function DialTransport(u: URL): (r: Result<Dialer>)
    ensures r.Ok? ==> DialerName(r.value) == Transport(u)
    ensures r.Err? ==> (forall d: Dialer :: DialerName(d) != Transport(u)) &&
                       r.error == Fail("transport '" + Transport(u) + "' not implemented")
  {
    DialerFor(Transport(u))
  }

  /** A scheme without an explicit transport can always be dialed: TLS to a host, else the UNIX socket. */
  lemma ImplicitTransportDials(u: URL)
    requires '+' !in u.scheme
    ensures DialTransport(u) == if u.host != "" then Ok(Tls) else Ok(Unix)
  {
    assert Transport(u) == if u.host != "" then "tls" else "unix";
  }

  // ----- the remote name -----

  /** `url.URL.String()` for the modelled fields, components printed as they are. */
  function Format(u: URL): (s: string)
    ensures u.scheme != "" ==> HasPrefix(s, u.scheme + ":")
  {
    var head := if u.scheme != "" then u.scheme + ":" else "";
    var authority :=
      if u.scheme != "" || u.host != "" || u.user.Some? then
        (if u.host != "" || u.path != "" || u.user.Some? then "//" else "") +
        (if u.user.Some? then u.user.value + "@" else "") + u.host
      else "";
    var slash := if u.path != "" && u.path[0] != '/' && u.host != "" then "/" else "";
    var dot := if head + authority == "" && ':' in FirstSegment(u.path) then "./" else "";
    var query := if u.rawQuery != "" then "?" + u.rawQuery else "";
    var fragment := if u.fragment != "" then "#" + u.fragment else "";
    assert (head + authority + slash + dot + u.path + query + fragment)[..|head|] == head;
    head + authority + slash + dot + u.path + query + fragment
  }

  /** A path's text up to its first `/`. */
  function FirstSegment(path: string): string {
    match Index(path, "/")
    case None => path
    case Some(i) => path[..i]
  }

  /** The URI a remote name is printed from: the driver alone as scheme, no host, no query. */
  function RemoteURL(u: URL): URL {
    u.(scheme := Driver(u), host := "", rawQuery := "")
  }

  /**
   * `RemoteName()`: a non-empty `name` query parameter as it is, otherwise
   * the URI without transport, host and query.
   */
  function RemoteName(u: URL): (r: string)
    ensures QueryGet(u, "name") != "" ==> r == QueryGet(u, "name")
    ensures QueryGet(u, "name") == "" ==> r == Format(RemoteURL(u))
  {
    var name := QueryGet(u, "name");
    if name != "" then name else Format(RemoteURL(u))
  }

  /**
   * The URI the remote name is printed from keeps the driver and, read
   * again, reaches libvirtd over the local UNIX socket with no `name`.
   */
  lemma RemoteURLIsLocal(u: URL)
    ensures Driver(RemoteURL(u)) == Driver(u)
    ensures Transport(RemoteURL(u)) == "unix"
    ensures QueryGet(RemoteURL(u), "name") == ""
  {
    NoQueryNoParameter(RemoteURL(u), "name");
  }

  /**
   * `RemoteName` writes its changes through the shared `*url.URL` into the
   * URI it was called on.  Called again on the rewritten URI, as the error
   * message of `NewClient` does, it gives the same name.
   */
  lemma RemoteNameAgain(u: URL)
    requires QueryGet(u, "name") == ""
    ensures RemoteName(RemoteURL(u)) == RemoteName(u)
  {
    RemoteURLIsLocal(u);
    assert RemoteURL(RemoteURL(u)) == RemoteURL(u);
  }

  /** Neither the transport nor the host reaches the remote name. */
  lemma RemoteNameIgnoresTransportAndHost(u: URL, transport: string, host: string)
    requires '+' !in u.scheme && '+' !in transport
    ensures RemoteName(u.(scheme := u.scheme + "+" + transport, host := host)) == RemoteName(u)
  {
    SchemeRoundTrip(u, u.scheme, transport);
    var v := u.(scheme := u.scheme + "+" + transport, host := host);
    assert RemoteURL(v) == RemoteURL(u);
  }

  /** A URI without a query has no parameters. */
  lemma NoQueryNoParameter(u: URL, key: string)
    requires u.rawQuery == ""
    ensures QueryGet(u, key) == ""
  {
    assert Split("", "&") == [""];
  }

  /** A URI with a scheme and an absolute path only prints as `scheme://path`. */
  lemma FormatLocal(u: URL)
    requires u.scheme != "" && u.user.None? && u.host == "" && u.rawQuery == "" && u.fragment == ""
    requires u.path != "" && u.path[0] == '/'
    ensures Format(u) == u.scheme + "://" + u.path
  {
  }

  /** `qemu+ssh://<any host>/system` is opened remotely as `qemu:///system`. */
  lemma SshSystemName(u: URL)
    requires u.scheme == "qemu+ssh" && u.user.None? && u.path == "/system" && u.rawQuery == "" && u.fragment == ""
    ensures RemoteName(u) == "qemu:///system"
  {
    QemuOverSsh(u);
    NoQueryNoParameter(u, "name");
    FormatLocal(RemoteURL(u));
    assert "qemu" + "://" + "/system" == "qemu:///system";
  }

  // ----- the user -----

  /**
   * As written, the copy printed by `RemoteName` keeps the user, although
   * the comment on the Go method says the username is removed: without a
   * `name` parameter the remote name starts `driver://user@`.
   */
  lemma RemoteNameKeepsUser(u: URL, user: string)
    requires u.user == Some(user) && QueryGet(u, "name") == "" && Driver(u) != ""
    ensures HasPrefix(RemoteName(u), Driver(u) + "://" + user + "@")
  {
    var v := RemoteURL(u);
    var p := Driver(u) + "://" + user + "@";
    assert Format(v) == p + v.path + (if v.fragment != "" then "#" + v.fragment else "") by {
      assert v.scheme + ":" + ("//" + (user + "@") + "") == p;
    }
    assert Format(v)[..|p|] == p;
  }

  /** `qemu+ssh://<user>@<any host>/system`, as written, is opened remotely as `qemu://<user>@/system`. */
  lemma SshUserSystemName(u: URL, user: string)
    requires u.scheme == "qemu+ssh" && u.user == Some(user) && u.path == "/system" && u.rawQuery == "" && u.fragment == ""
    ensures RemoteName(u) == "qemu://" + user + "@/system"
  {
    QemuOverSsh(u);
    NoQueryNoParameter(u, "name");
    var v := RemoteURL(u);
    assert v.scheme + ":" + ("//" + (user + "@") + "") + "" + "" + v.path + "" + "" == "qemu://" + user + "@/system";
  }

  /** The URI a remote name is meant to be printed from: `RemoteURL` without the user either. */
  function IntendedRemoteURL(u: URL): URL {
    RemoteURL(u).(user := None)
  }

  /**
   * `RemoteName()` as its comment describes it: the user goes with the
   * transport, host and query.  It differs from `RemoteName` only on a URI
   * with a user and no `name` parameter.
   */
  function IntendedRemoteName(u: URL): (r: string)
    ensures QueryGet(u, "name") != "" ==> r == QueryGet(u, "name")
    ensures QueryGet(u, "name") == "" ==> r == Format(IntendedRemoteURL(u))
    ensures u.user.None? ==> r == RemoteName(u)
  {
    var name := QueryGet(u, "name");
    if name != "" then name else Format(IntendedRemoteURL(u))
  }

  /**
   * Corrected, no user reaches the remote name: any URI with an absolute path
   * and no query or fragment is named `driver://path`, whoever its user is,
   * so `qemu+ssh://<user>@<host>/system` opens `qemu:///system`.
   */
  lemma IntendedRemoteNameHasNoUser(u: URL)
    requires u.rawQuery == "" && u.fragment == "" && Driver(u) != ""
    requires u.path != "" && u.path[0] == '/'
    ensures IntendedRemoteName(u) == Driver(u) + "://" + u.path
    ensures u.scheme == "qemu+ssh" && u.path == "/system" ==> IntendedRemoteName(u) == "qemu:///system"
  {
    NoQueryNoParameter(u, "name");
    FormatLocal(IntendedRemoteURL(u));
    if u.scheme == "qemu+ssh" && u.path == "/system" {
      QemuOverSsh(u);
      assert "qemu" + "://" + "/system" == "qemu:///system";
    }
  }
}
