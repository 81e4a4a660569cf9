/** The text the planner writes, byte for byte: the optional clauses that are
    computed once per run and the format strings filled in for each host.
    Go's `%s` is concatenation here and `%d` is `Decimal.NatToString`. Each
    format string is written as the concatenation of its pieces, split where a
    flag starts or a line continuation stands; the bytes are the same. */
module Templates {
  import opened Decimal
  import opened Settings
  import opened Roles

  lemma Assoc(a: string, b: string, c: string)
    ensures a + (b + c) == a + b + c
  {
  }

  /** The first line and the blank line every plan starts with. */
  const Header: string := "#!/bin/sh\n\n"

  /** A shell line continuation: a space, a backslash and a line break. */
  const Continuation: string := " \\\n"

  /** The TLS SAN clause: empty unless a SAN is given. */
  function TlsSanClause(tlsSan: string): string {
    if |tlsSan| > 0 then Continuation + "--tls-san " + tlsSan else ""
  }

  /** The extra-arguments clause for servers or agents: empty unless
      arguments are given, quoted otherwise. */
  function ExtraArgsClause(extraArgs: string): string {
    if |extraArgs| > 0 then Continuation + "--k3s-extra-args \"" + extraArgs + "\"" else ""
  }

  /** The suffix that sends a join to the background. */
  function BackgroundSuffix(background: bool): string {
    if background then " &" else ""
  }

  const PrimaryAnnouncement: string := "echo \"Setting up primary server 1\"\n"

  function InstallText(ip: string, user: string, localPath: string, context: string,
                       tlsSanClause: string, serverExtraArgsClause: string): string
  {
    "k3sup install " + "--host " + ip + Continuation
    + "--user " + user + Continuation
    + "--cluster" + Continuation
    + "--local-path " + localPath + Continuation
    + "--context " + context + tlsSanClause + serverExtraArgsClause + "\n"
  }

  /** Reads the join token from the freshly installed primary into `NODE_TOKEN`. */
  function TokenCaptureText(ip: string, user: string): string {
    "\necho \"Fetching the server's node-token into memory\"\n"
    + "\n"
    + "export NODE_TOKEN=$(k3sup node-token --host " + ip + " --user " + user + ")\n"
  }

  function ServerAnnouncement(ordinal: nat): string {
    "\necho \"Setting up additional server: " + NatToString(ordinal) + "\"\n"
  }

  function ServerJoinText(ip: string, primaryIp: string, user: string, tlsSanClause: string,
                          serverExtraArgsClause: string, backgroundSuffix: string): string
  {
    "k3sup join" + Continuation
    + "--host " + ip + Continuation
    + "--server-host " + primaryIp + Continuation
    + "--server" + Continuation
    + "--node-token \"$NODE_TOKEN\"" + Continuation
    + "--user " + user + tlsSanClause + serverExtraArgsClause + backgroundSuffix + "\n"
  }

  function WorkerAnnouncement(ordinal: nat): string {
    "\necho \"Setting up worker: " + NatToString(ordinal) + "\"\n"
  }

  function WorkerJoinText(ip: string, primaryIp: string, user: string,
                          agentExtraArgsClause: string, backgroundSuffix: string): string
  {
    "k3sup join" + Continuation
    + "--host " + ip + Continuation
    + "--server-host " + primaryIp + Continuation
    + "--node-token \"$NODE_TOKEN\"" + Continuation
    + "--user " + user + agentExtraArgsClause + backgroundSuffix + "\n"
  }

  /** The `echo` line that opens the block of a host of the given role. */
  function Announcement(role: Role): string {
    match role
    case Primary => PrimaryAnnouncement
    case AdditionalServer(ordinal) => ServerAnnouncement(ordinal)
    case Worker(ordinal) => WorkerAnnouncement(ordinal)
  }

  lemma MiddleInjective(p: string, q: string, a: string, b: string)
    requires p + a + q == p + b + q
    ensures a == b
  {
    assert |a| == |b|;
    assert a == (p + a + q)[|p|..|p| + |a|];
    assert b == (p + b + q)[|p|..|p| + |b|];
  }

  /** Different roles are announced with different lines, so no two hosts
      of a plan are announced alike. */
  lemma AnnouncementInjective(r1: Role, r2: Role)
    requires Announcement(r1) == Announcement(r2)
    ensures r1 == r2
  {
    var server, worker := "\necho \"Setting up additional server: ", "\necho \"Setting up worker: ";
    match r1
    case Primary =>
      assert Announcement(r1)[0] == 'e';
    case AdditionalServer(a) =>
      assert Announcement(r1)[0] == '\n' && Announcement(r1)[18] == 'a';
      if r2.AdditionalServer? {
        MiddleInjective(server, "\"\n", NatToString(a), NatToString(r2.ordinal));
        NatToStringInjective(a, r2.ordinal);
      }
    case Worker(w) =>
      assert Announcement(r1)[0] == '\n' && Announcement(r1)[18] == 'w';
      if r2.Worker? {
        MiddleInjective(worker, "\"\n", NatToString(w), NatToString(r2.ordinal));
        NatToStringInjective(w, r2.ordinal);
      }
  }

  /** The text the planner appends for a host of the given role, `primary`
      being the host whose address the joins point at. */
  function BlockText(host: Host, primary: Host, role: Role, cfg: Config): string {
    match role
    case Primary =>
      PrimaryAnnouncement
      + InstallText(host.ip, cfg.user, cfg.localPath, cfg.context,
                    TlsSanClause(cfg.tlsSan), ExtraArgsClause(cfg.serverExtraArgs))
      + TokenCaptureText(host.ip, cfg.user)
    case AdditionalServer(ordinal) =>
      ServerAnnouncement(ordinal)
      + ServerJoinText(host.ip, primary.ip, cfg.user, TlsSanClause(cfg.tlsSan),
                       ExtraArgsClause(cfg.serverExtraArgs), BackgroundSuffix(cfg.background))
    case Worker(ordinal) =>
      WorkerAnnouncement(ordinal)
      + WorkerJoinText(host.ip, primary.ip, cfg.user,
                       ExtraArgsClause(cfg.agentExtraArgs), BackgroundSuffix(cfg.background))
  }
}
