/** A structured view of the `k3sup` command each block runs: its verb, the
    flags it passes in order, and whether it is sent to the background. The
    clause rules of the planner are stated on this view; the agreement lemmas
    show that rendering it gives exactly the planner's text. */
module Invocation {
  import opened Settings
  import opened Roles
  import opened Templates

  /** The flags a generated command can pass. */
  datatype Flag =
    | HostFlag(ip: string)             // --host <ip>
    | ServerHostFlag(ip: string)       // --server-host <ip of the primary>
    | UserFlag(user: string)           // --user <user>
    | ClusterFlag                      // --cluster
    | ServerFlag                       // --server
    | LocalPathFlag(path: string)      // --local-path <kubeconfig>
    | ContextFlag(name: string)        // --context <context>
    | NodeTokenFlag                    // --node-token "$NODE_TOKEN"
    | TlsSanFlag(san: string)          // --tls-san <san>
    | ExtraArgsFlag(args: string)      // --k3s-extra-args "<args>"

  datatype Verb = Install | Join

  datatype Command = Command(verb: Verb, flags: seq<Flag>, background: bool)

  /** `text` followed by the text of flag `f` (`FlagText`, see
      `AppendFlagText`). It is written as one left-nested concatenation so
      that it lines up term by term with the format strings in `Templates`:
      the verifier does not regroup sequence concatenations by itself. */
  function AppendFlag(text: string, f: Flag): string {
    match f
    case HostFlag(ip) => text + "--host " + ip
    case ServerHostFlag(ip) => text + "--server-host " + ip
    case UserFlag(user) => text + "--user " + user
    case ClusterFlag => text + "--cluster"
    case ServerFlag => text + "--server"
    case LocalPathFlag(path) => text + "--local-path " + path
    case ContextFlag(name) => text + "--context " + name
    case NodeTokenFlag => text + "--node-token \"$NODE_TOKEN\""
    case TlsSanFlag(san) => text + "--tls-san " + san
    case ExtraArgsFlag(args) => text + "--k3s-extra-args \"" + args + "\""
  }

  /** `lead` followed by the flags, one per line, separated by line
      continuations. */
  function RenderFlags(lead: string, fs: seq<Flag>): string {
    if |fs| == 0 then lead
    else if |fs| == 1 then AppendFlag(lead, fs[0])
    else AppendFlag(RenderFlags(lead, fs[..|fs| - 1]) + Continuation, fs[|fs| - 1])
  }

  function VerbText(v: Verb): string {
    match v
    case Install => "k3sup install "
    case Join => "k3sup join" + Continuation
  }

  function RenderCommand(c: Command): string {
    RenderFlags(VerbText(c.verb), c.flags) + BackgroundSuffix(c.background) + "\n"
  }

  function TlsSanFlags(tlsSan: string): seq<Flag> {
    if |tlsSan| > 0 then [TlsSanFlag(tlsSan)] else []
  }

  function ExtraArgsFlags(extraArgs: string): seq<Flag> {
    if |extraArgs| > 0 then [ExtraArgsFlag(extraArgs)] else []
  }

  /** The flags every install of the primary passes. */
  function InstallFlags(host: Host, cfg: Config): seq<Flag> {
    [HostFlag(host.ip), UserFlag(cfg.user), ClusterFlag, LocalPathFlag(cfg.localPath), ContextFlag(cfg.context)]
  }

  /** The flags every join of an additional server passes. */
  function ServerJoinFlags(host: Host, primary: Host, cfg: Config): seq<Flag> {
    [HostFlag(host.ip), ServerHostFlag(primary.ip), ServerFlag, NodeTokenFlag, UserFlag(cfg.user)]
  }

  /** The flags every join of a worker passes. */
  function WorkerJoinFlags(host: Host, primary: Host, cfg: Config): seq<Flag> {
    [HostFlag(host.ip), ServerHostFlag(primary.ip), NodeTokenFlag, UserFlag(cfg.user)]
  }

  /** The command a host of the given role runs. */
  function CommandFor(host: Host, primary: Host, role: Role, cfg: Config): Command {
    match role
    case Primary =>
      Command(Install, InstallFlags(host, cfg) + TlsSanFlags(cfg.tlsSan) + ExtraArgsFlags(cfg.serverExtraArgs), false)
    case AdditionalServer(_) =>
      Command(Join, ServerJoinFlags(host, primary, cfg) + TlsSanFlags(cfg.tlsSan) + ExtraArgsFlags(cfg.serverExtraArgs),
              cfg.background)
    case Worker(_) =>
      Command(Join, WorkerJoinFlags(host, primary, cfg) + ExtraArgsFlags(cfg.agentExtraArgs), cfg.background)
  }

  // ---------------------------------------------------------------------------
  // Rendering the structured command gives the planner's text

  /** Rendering the flags followed by at most one optional flag adds exactly
      that flag's clause. */
  lemma RenderFlagsOptional(lead: string, fs: seq<Flag>, opt: seq<Flag>, clause: string)
    requires |fs| > 0 && |opt| <= 1
    requires opt == [] ==> clause == ""
    requires |opt| == 1 ==> AppendFlag(RenderFlags(lead, fs) + Continuation, opt[0]) == RenderFlags(lead, fs) + clause
    ensures RenderFlags(lead, fs + opt) == RenderFlags(lead, fs) + clause
  {
    if opt == [] {
      assert fs + opt == fs;
    } else {
      assert (fs + opt)[..|fs|] == fs;
    }
  }

  lemma TlsSanClauseIsFlag(text: string, tlsSan: string)
    ensures |TlsSanFlags(tlsSan)| <= 1
    ensures TlsSanFlags(tlsSan) == [] ==> TlsSanClause(tlsSan) == ""
    ensures |TlsSanFlags(tlsSan)| == 1 ==>
              AppendFlag(text + Continuation, TlsSanFlags(tlsSan)[0]) == text + TlsSanClause(tlsSan)
  {
    if |tlsSan| > 0 {
      Assoc(text, Continuation + "--tls-san ", tlsSan);
      Assoc(text, Continuation, "--tls-san ");
    }
  }

  lemma ExtraArgsClauseIsFlag(text: string, extraArgs: string)
    ensures |ExtraArgsFlags(extraArgs)| <= 1
    ensures ExtraArgsFlags(extraArgs) == [] ==> ExtraArgsClause(extraArgs) == ""
    ensures |ExtraArgsFlags(extraArgs)| == 1 ==>
              AppendFlag(text + Continuation, ExtraArgsFlags(extraArgs)[0]) == text + ExtraArgsClause(extraArgs)
  {
    if |extraArgs| > 0 {
      var k := "--k3s-extra-args \"";
      Assoc(text, Continuation + k + extraArgs, "\"");
      Assoc(text, Continuation + k, extraArgs);
      Assoc(text, Continuation, k);
    }
  }

  /** One more flag of the list: the text so far, a continuation, the flag. */
  lemma RenderFlagsStep(lead: string, fs: seq<Flag>, k: nat)
    requires 1 < k <= |fs|
    ensures RenderFlags(lead, fs[..k]) == AppendFlag(RenderFlags(lead, fs[..k - 1]) + Continuation, fs[k - 1])
  {
    assert fs[..k][..k - 1] == fs[..k - 1];
  }

  lemma InstallFlagsRender(host: Host, cfg: Config)
    ensures RenderFlags("k3sup install ", InstallFlags(host, cfg))
            == "k3sup install " + "--host " + host.ip + Continuation
               + "--user " + cfg.user + Continuation
               + "--cluster" + Continuation
               + "--local-path " + cfg.localPath + Continuation
               + "--context " + cfg.context
  {
    var lead, fs := "k3sup install ", InstallFlags(host, cfg);
    assert RenderFlags(lead, fs[..1]) == lead + "--host " + host.ip;
    RenderFlagsStep(lead, fs, 2);
    RenderFlagsStep(lead, fs, 3);
    RenderFlagsStep(lead, fs, 4);
    RenderFlagsStep(lead, fs, 5);
    assert fs[..5] == fs;
  }

  lemma ServerJoinFlagsRender(host: Host, primary: Host, cfg: Config)
    ensures RenderFlags("k3sup join" + Continuation, ServerJoinFlags(host, primary, cfg))
            == "k3sup join" + Continuation
               + "--host " + host.ip + Continuation
               + "--server-host " + primary.ip + Continuation
               + "--server" + Continuation
               + "--node-token \"$NODE_TOKEN\"" + Continuation
               + "--user " + cfg.user
  {
    var lead, fs := "k3sup join" + Continuation, ServerJoinFlags(host, primary, cfg);
    assert RenderFlags(lead, fs[..1]) == lead + "--host " + host.ip;
    RenderFlagsStep(lead, fs, 2);
    RenderFlagsStep(lead, fs, 3);
    RenderFlagsStep(lead, fs, 4);
    RenderFlagsStep(lead, fs, 5);
    assert fs[..5] == fs;
  }

  lemma WorkerJoinFlagsRender(host: Host, primary: Host, cfg: Config)
    ensures RenderFlags("k3sup join" + Continuation, WorkerJoinFlags(host, primary, cfg))
            == "k3sup join" + Continuation
               + "--host " + host.ip + Continuation
               + "--server-host " + primary.ip + Continuation
               + "--node-token \"$NODE_TOKEN\"" + Continuation
               + "--user " + cfg.user
  {
    var lead, fs := "k3sup join" + Continuation, WorkerJoinFlags(host, primary, cfg);
    assert RenderFlags(lead, fs[..1]) == lead + "--host " + host.ip;
    RenderFlagsStep(lead, fs, 2);
    RenderFlagsStep(lead, fs, 3);
    RenderFlagsStep(lead, fs, 4);
    assert fs[..4] == fs;
  }

  /** The primary's install command renders as the install template. */
  lemma InstallRendersCommand(host: Host, primary: Host, cfg: Config)
    ensures RenderCommand(CommandFor(host, primary, Primary, cfg))
            == InstallText(host.ip, cfg.user, cfg.localPath, cfg.context,
                           TlsSanClause(cfg.tlsSan), ExtraArgsClause(cfg.serverExtraArgs))
  {
    var lead, base := "k3sup install ", InstallFlags(host, cfg);
    var tls, extra := TlsSanFlags(cfg.tlsSan), ExtraArgsFlags(cfg.serverExtraArgs);
    var t, e := TlsSanClause(cfg.tlsSan), ExtraArgsClause(cfg.serverExtraArgs);
    InstallFlagsRender(host, cfg);
    TlsSanClauseIsFlag(RenderFlags(lead, base), cfg.tlsSan);
    RenderFlagsOptional(lead, base, tls, t);
    ExtraArgsClauseIsFlag(RenderFlags(lead, base + tls), cfg.serverExtraArgs);
    RenderFlagsOptional(lead, base + tls, extra, e);
  }

  /** An additional server's join command renders as the server join template. */
  lemma ServerJoinRendersCommand(host: Host, primary: Host, ordinal: nat, cfg: Config)
    ensures RenderCommand(CommandFor(host, primary, AdditionalServer(ordinal), cfg))
            == ServerJoinText(host.ip, primary.ip, cfg.user, TlsSanClause(cfg.tlsSan),
                              ExtraArgsClause(cfg.serverExtraArgs), BackgroundSuffix(cfg.background))
  {
    var lead, base := "k3sup join" + Continuation, ServerJoinFlags(host, primary, cfg);
    var tls, extra := TlsSanFlags(cfg.tlsSan), ExtraArgsFlags(cfg.serverExtraArgs);
    var t, e := TlsSanClause(cfg.tlsSan), ExtraArgsClause(cfg.serverExtraArgs);
    ServerJoinFlagsRender(host, primary, cfg);
    TlsSanClauseIsFlag(RenderFlags(lead, base), cfg.tlsSan);
    RenderFlagsOptional(lead, base, tls, t);
    ExtraArgsClauseIsFlag(RenderFlags(lead, base + tls), cfg.serverExtraArgs);
    RenderFlagsOptional(lead, base + tls, extra, e);
  }

  /** A worker's join command renders as the worker join template. */
  lemma WorkerJoinRendersCommand(host: Host, primary: Host, ordinal: nat, cfg: Config)
    ensures RenderCommand(CommandFor(host, primary, Worker(ordinal), cfg))
            == WorkerJoinText(host.ip, primary.ip, cfg.user,
                              ExtraArgsClause(cfg.agentExtraArgs), BackgroundSuffix(cfg.background))
  {
    var lead, base := "k3sup join" + Continuation, WorkerJoinFlags(host, primary, cfg);
    var extra, e := ExtraArgsFlags(cfg.agentExtraArgs), ExtraArgsClause(cfg.agentExtraArgs);
    WorkerJoinFlagsRender(host, primary, cfg);
    ExtraArgsClauseIsFlag(RenderFlags(lead, base), cfg.agentExtraArgs);
    RenderFlagsOptional(lead, base, extra, e);
  }

  /** Each block is its announcement, its command and, for the primary only,
      the capture of the join token. */
  lemma BlockTextRendersCommand(host: Host, primary: Host, role: Role, cfg: Config)
    ensures BlockText(host, primary, role, cfg)
            == Announcement(role) + RenderCommand(CommandFor(host, primary, role, cfg))
               + (if role.Primary? then TokenCaptureText(host.ip, cfg.user) else "")
  {
    match role
    case Primary => InstallRendersCommand(host, primary, cfg);
    case AdditionalServer(ordinal) => ServerJoinRendersCommand(host, primary, ordinal, cfg);
    case Worker(ordinal) => WorkerJoinRendersCommand(host, primary, ordinal, cfg);
  }

  // ---------------------------------------------------------------------------
  // The clause rules

  /** Only the primary runs `k3sup install`, and only it passes `--cluster`,
      the kubeconfig path and the context; it is never sent to the
      background. */
  lemma OnlyPrimaryInstalls(host: Host, primary: Host, role: Role, cfg: Config)
    ensures var c := CommandFor(host, primary, role, cfg);
      && (c.verb == Install <==> role.Primary?)
      && (ClusterFlag in c.flags <==> role.Primary?)
      && (LocalPathFlag(cfg.localPath) in c.flags <==> role.Primary?)
      && (ContextFlag(cfg.context) in c.flags <==> role.Primary?)
      && (role.Primary? ==> !c.background)
  {
  }

  /** Every join, of a server or a worker, points at the primary's address
      and passes the captured join token; only server joins pass
      `--server`; the install passes neither. */
  lemma JoinsUsePrimaryAndToken(host: Host, primary: Host, role: Role, cfg: Config)
    ensures var c := CommandFor(host, primary, role, cfg);
      && (ServerHostFlag(primary.ip) in c.flags <==> !role.Primary?)
      && (forall f :: f in c.flags && f.ServerHostFlag? ==> f.ip == primary.ip)
      && (NodeTokenFlag in c.flags <==> !role.Primary?)
      && (ServerFlag in c.flags <==> role.AdditionalServer?)
      && HostFlag(host.ip) in c.flags && UserFlag(cfg.user) in c.flags
  {
    match role
    case Primary =>
    case AdditionalServer(_) =>
    case Worker(_) =>
  }

  /** The `--tls-san` clause is passed exactly when a SAN is set and the host
      is a server (primary or additional), never by a worker. */
  lemma TlsSanPresence(host: Host, primary: Host, role: Role, cfg: Config)
    ensures var c := CommandFor(host, primary, role, cfg);
      && ((exists f :: f in c.flags && f.TlsSanFlag?) <==> |cfg.tlsSan| > 0 && role.IsServer())
      && (forall f :: f in c.flags && f.TlsSanFlag? ==> f.san == cfg.tlsSan)
  {
    var c := CommandFor(host, primary, role, cfg);
    if |cfg.tlsSan| > 0 && role.IsServer() {
      assert TlsSanFlag(cfg.tlsSan) in c.flags;
    }
  }

  /** Servers pass the server extra arguments and workers the agent extra
      arguments, each exactly when it is non-empty. */
  lemma ExtraArgsPresence(host: Host, primary: Host, role: Role, cfg: Config)
    ensures var c := CommandFor(host, primary, role, cfg);
      var wanted := if role.IsServer() then cfg.serverExtraArgs else cfg.agentExtraArgs;
      && ((exists f :: f in c.flags && f.ExtraArgsFlag?) <==> |wanted| > 0)
      && (forall f :: f in c.flags && f.ExtraArgsFlag? ==> f.args == wanted)
  {
    var c := CommandFor(host, primary, role, cfg);
    var wanted := if role.IsServer() then cfg.serverExtraArgs else cfg.agentExtraArgs;
    if |wanted| > 0 {
      assert ExtraArgsFlag(wanted) in c.flags;
    }
  }

  /** A command is sent to the background exactly when backgrounding is on
      and it is a join; the primary's install never is. */
  lemma BackgroundPresence(host: Host, primary: Host, role: Role, cfg: Config)
    ensures CommandFor(host, primary, role, cfg).background <==> cfg.background && !role.Primary?
  {
  }

  // ---------------------------------------------------------------------------
  // Every passed flag occurs in the rendered text

  /** `t` occurs in `s` starting at index `i`. */
  predicate OccursAt(s: string, t: string, i: int) {
    0 <= i <= |s| - |t| && s[i..i + |t|] == t
  }

  /** `t` occurs in `s`. */
  ghost predicate Contains(s: string, t: string) {
    exists i :: OccursAt(s, t, i)
  }

  lemma ContainsBefore(s: string, b: string, t: string)
    requires Contains(s, t)
    ensures Contains(s + b, t)
  {
    var i :| OccursAt(s, t, i);
    assert (s + b)[i..i + |t|] == t;
    assert OccursAt(s + b, t, i);
  }

  lemma ContainsAfter(a: string, s: string, t: string)
    requires Contains(s, t)
    ensures Contains(a + s, t)
  {
    var i :| OccursAt(s, t, i);
    assert (a + s)[|a| + i..|a| + i + |t|] == t;
    assert OccursAt(a + s, t, |a| + i);
  }

  lemma ContainsEnd(a: string, t: string)
    ensures Contains(a + t, t)
  {
    assert (a + t)[|a|..|a| + |t|] == t;
    assert OccursAt(a + t, t, |a|);
  }

  /** The text of a single flag, as it stands between two continuations. */
  function FlagText(f: Flag): string {
    match f
    case HostFlag(ip) => "--host " + ip
    case ServerHostFlag(ip) => "--server-host " + ip
    case UserFlag(user) => "--user " + user
    case ClusterFlag => "--cluster"
    case ServerFlag => "--server"
    case LocalPathFlag(path) => "--local-path " + path
    case ContextFlag(name) => "--context " + name
    case NodeTokenFlag => "--node-token \"$NODE_TOKEN\""
    case TlsSanFlag(san) => "--tls-san " + san
    case ExtraArgsFlag(args) => "--k3s-extra-args \"" + args + "\""
  }

  lemma AppendFlagText(text: string, f: Flag)
    ensures AppendFlag(text, f) == text + FlagText(f)
  {
    match f
    case HostFlag(ip) => Assoc(text, "--host ", ip);
    case ServerHostFlag(ip) => Assoc(text, "--server-host ", ip);
    case UserFlag(user) => Assoc(text, "--user ", user);
    case ClusterFlag =>
    case ServerFlag =>
    case LocalPathFlag(path) => Assoc(text, "--local-path ", path);
    case ContextFlag(name) => Assoc(text, "--context ", name);
    case NodeTokenFlag =>
    case TlsSanFlag(san) => Assoc(text, "--tls-san ", san);
    case ExtraArgsFlag(args) =>
      Assoc(text, "--k3s-extra-args \"" + args, "\"");
      Assoc(text, "--k3s-extra-args \"", args);
  }

  /** The text of every flag of the list occurs in its rendering. */
  lemma {:induction false} FlagOccurs(lead: string, fs: seq<Flag>, k: nat)
    requires k < |fs|
    ensures Contains(RenderFlags(lead, fs), FlagText(fs[k]))
  {
    var last := |fs| - 1;
    if |fs| == 1 {
      AppendFlagText(lead, fs[0]);
      ContainsEnd(lead, FlagText(fs[0]));
    } else {
      var before := RenderFlags(lead, fs[..last]);
      AppendFlagText(before + Continuation, fs[last]);
      if k == last {
        ContainsEnd(before + Continuation, FlagText(fs[k]));
      } else {
        FlagOccurs(lead, fs[..last], k);
        ContainsBefore(before, Continuation, FlagText(fs[k]));
        ContainsBefore(before + Continuation, FlagText(fs[last]), FlagText(fs[k]));
      }
    }
  }

  /** The text of every flag a block passes occurs in the block's text. */
  lemma FlagInBlockText(host: Host, primary: Host, role: Role, cfg: Config, f: Flag)
    requires f in CommandFor(host, primary, role, cfg).flags
    ensures Contains(BlockText(host, primary, role, cfg), FlagText(f))
  {
    var c := CommandFor(host, primary, role, cfg);
    var k :| 0 <= k < |c.flags| && c.flags[k] == f;
    FlagOccurs(VerbText(c.verb), c.flags, k);
    BlockTextRendersCommand(host, primary, role, cfg);
    var rendered := RenderFlags(VerbText(c.verb), c.flags);
    var t := FlagText(f);
    ContainsBefore(rendered, BackgroundSuffix(c.background), t);
    ContainsBefore(rendered + BackgroundSuffix(c.background), "\n", t);
    ContainsAfter(Announcement(role), RenderCommand(c), t);
    ContainsBefore(Announcement(role) + RenderCommand(c),
                   if role.Primary? then TokenCaptureText(host.ip, cfg.user) else "", t);
  }

  lemma ContainsFlag(s: string, f: Flag, t: string)
    requires Contains(s, FlagText(f))
    requires FlagText(f) == t
    ensures Contains(s, t)
  {
  }

  /** The texts of the two flags every join passes. */
  lemma JoinFlagTexts(ip: string)
    ensures FlagText(ServerHostFlag(ip)) == "--server-host " + ip
    ensures FlagText(NodeTokenFlag) == "--node-token \"$NODE_TOKEN\""
  {
  }

  /** A join block, of a server or a worker, names the primary's address
      after `--server-host` and passes the captured token. */
  lemma JoinBlockReferencesPrimary(host: Host, primary: Host, role: Role, cfg: Config)
    requires !role.Primary?
    ensures Contains(BlockText(host, primary, role, cfg), "--server-host " + primary.ip)
    ensures Contains(BlockText(host, primary, role, cfg), "--node-token \"$NODE_TOKEN\"")
  {
    assert ServerHostFlag(primary.ip) in CommandFor(host, primary, role, cfg).flags;
    assert NodeTokenFlag in CommandFor(host, primary, role, cfg).flags;
    var text := BlockText(host, primary, role, cfg);
    JoinFlagTexts(primary.ip);
    FlagInBlockText(host, primary, role, cfg, ServerHostFlag(primary.ip));
    ContainsFlag(text, ServerHostFlag(primary.ip), "--server-host " + primary.ip);
    FlagInBlockText(host, primary, role, cfg, NodeTokenFlag);
    ContainsFlag(text, NodeTokenFlag, "--node-token \"$NODE_TOKEN\"");
  }
}
