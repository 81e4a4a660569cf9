/** The plan generator of `k3sup plan`: it walks the host list in order,
    appends one block of shell text per host and stops early once the node
    limit is reached. `MakePlan` is the loop itself; `Script` is what it
    computes, stated host by host. */
module Planner {
  import opened Settings
  import opened Roles
  import opened Templates
  import Invocation

  /** One block of the plan: the address of the host it is for, the role the
      host gets and the text appended for it. */
  datatype CommandBlock = CommandBlock(address: string, role: Role, text: string)

  /** How many of `n` hosts get a block: all of them, unless a positive node
      limit is smaller. */
  function Processed(n: nat, limit: int): nat {
    if limit > 0 && limit < n then limit else n
  }

  /** The block of the host at index `i`; every join points at the first
      host, which is the primary. */
  function BlockAt(hosts: seq<Host>, i: nat, cfg: Config): CommandBlock
    requires i < |hosts|
  {
    var role := RoleAt(i, cfg.servers);
    CommandBlock(hosts[i].ip, role, BlockText(hosts[i], hosts[0], role, cfg))
  }

  /** The blocks of the first `k` hosts. */
  function BlocksUpTo(hosts: seq<Host>, k: nat, cfg: Config): (bs: seq<CommandBlock>)
    requires k <= |hosts|
    ensures |bs| == k
  {
    seq(k, i requires 0 <= i < k => BlockAt(hosts, i, cfg))
  }

  /** The blocks of the plan, in host order. */
  function PlanBlocks(hosts: seq<Host>, cfg: Config): seq<CommandBlock> {
    BlocksUpTo(hosts, Processed(|hosts|, cfg.limit), cfg)
  }

  /** The texts of the blocks, one after the other. */
  function Concat(bs: seq<CommandBlock>): string {
    if |bs| == 0 then "" else Concat(bs[..|bs| - 1]) + bs[|bs| - 1].text
  }

  /** The whole plan: the shebang header followed by the blocks. */
  function Script(hosts: seq<Host>, cfg: Config): string {
    Header + Concat(PlanBlocks(hosts, cfg))
  }

  /** `script` is the plan of the first `k` hosts, as the loop builds it. */
  ghost predicate Planned(hosts: seq<Host>, k: nat, cfg: Config, script: string)
    requires k <= |hosts|
  {
    script == Header + Concat(BlocksUpTo(hosts, k, cfg))
  }

  lemma BlocksUpToStep(hosts: seq<Host>, k: nat, cfg: Config)
    requires k < |hosts|
    ensures Concat(BlocksUpTo(hosts, k + 1, cfg))
            == Concat(BlocksUpTo(hosts, k, cfg)) + BlockAt(hosts, k, cfg).text
  {
    assert BlocksUpTo(hosts, k + 1, cfg)[..k] == BlocksUpTo(hosts, k, cfg);
  }

  /** Appending the block of host `i` to the plan of the first `i` hosts
      gives the plan of the first `i + 1` hosts. */
  lemma ScriptStep(hosts: seq<Host>, i: nat, cfg: Config, before: string, after: string)
    requires i < |hosts|
    requires Planned(hosts, i, cfg, before)
    requires after == before + BlockAt(hosts, i, cfg).text
    ensures Planned(hosts, i + 1, cfg, after)
  {
    BlocksUpToStep(hosts, i, cfg);
    Assoc(Header, Concat(BlocksUpTo(hosts, i, cfg)), BlockAt(hosts, i, cfg).text);
  }

  /** When the loop breaks after the host at index `i`, exactly `i + 1`
      hosts were to be processed. */
  lemma LimitReached(n: nat, limit: int, i: nat)
    requires i < n && (limit > 0 ==> i < limit)
    requires limit > 0 && i + 1 >= limit
    ensures Processed(n, limit) == i + 1
  {
  }

  /** The loop's step for the primary: the announcement, the install and the
      token capture appended to the empty plan make the plan of one host.
      The parameters are the loop's own values; the requires say what they
      are. `next` is the index the loop moves on to, named once so that the
      loop invariant is stated on the very term these lemmas conclude. */
  lemma PrimaryStep(hosts: seq<Host>, i: nat, next: nat, cfg: Config, before: string, after: string, host: Host,
                    tlsSanStr: string, serverExtraArgsSt: string)
    requires i == 0 && i < |hosts| && host == hosts[i]
    requires tlsSanStr == TlsSanClause(cfg.tlsSan) && serverExtraArgsSt == ExtraArgsClause(cfg.serverExtraArgs)
    requires Planned(hosts, i, cfg, before)
    requires after == before + PrimaryAnnouncement
                      + InstallText(host.ip, cfg.user, cfg.localPath, cfg.context, tlsSanStr, serverExtraArgsSt)
                      + TokenCaptureText(host.ip, cfg.user)
    requires next == i + 1
    ensures Planned(hosts, next, cfg, after)
  {
    var install := InstallText(host.ip, cfg.user, cfg.localPath, cfg.context, tlsSanStr, serverExtraArgsSt);
    var capture := TokenCaptureText(host.ip, cfg.user);
    assert BlockAt(hosts, 0, cfg).text == PrimaryAnnouncement + install + capture;
    Assoc(before, PrimaryAnnouncement, install);
    Assoc(before, PrimaryAnnouncement + install, capture);
    ScriptStep(hosts, 0, cfg, before, before + BlockAt(hosts, 0, cfg).text);
  }

  /** The loop's step for an additional server at index `i`, announced under
      `serversAdded+1`. */
  lemma ServerStep(hosts: seq<Host>, i: nat, next: nat, cfg: Config, before: string, after: string, host: Host,
                   ordinal: nat, primaryIp: string, tlsSanStr: string, serverExtraArgsSt: string,
                   bgStr: string)
    requires 0 < i < |hosts| && i < cfg.servers && host == hosts[i]
    requires ordinal == i + 1 && primaryIp == hosts[0].ip
    requires tlsSanStr == TlsSanClause(cfg.tlsSan) && serverExtraArgsSt == ExtraArgsClause(cfg.serverExtraArgs)
    requires bgStr == BackgroundSuffix(cfg.background)
    requires Planned(hosts, i, cfg, before)
    requires after == before + ServerAnnouncement(ordinal)
                      + ServerJoinText(host.ip, primaryIp, cfg.user, tlsSanStr, serverExtraArgsSt, bgStr)
    requires next == i + 1
    ensures Planned(hosts, next, cfg, after)
  {
    var join := ServerJoinText(host.ip, primaryIp, cfg.user, tlsSanStr, serverExtraArgsSt, bgStr);
    assert BlockAt(hosts, i, cfg).text == ServerAnnouncement(ordinal) + join;
    Assoc(before, ServerAnnouncement(ordinal), join);
    ScriptStep(hosts, i, cfg, before, before + BlockAt(hosts, i, cfg).text);
  }

  /** The loop's step for a worker at index `i`, announced under
      `(i+1)-serversAdded`. */
  lemma WorkerStep(hosts: seq<Host>, i: nat, next: nat, cfg: Config, before: string, after: string, host: Host,
                   ordinal: nat, primaryIp: string, agentExtraArgsSt: string, bgStr: string)
    requires 0 < i < |hosts| && cfg.servers <= i && host == hosts[i]
    requires ordinal == i + 1 - ServersAdded(i, cfg.servers) && primaryIp == hosts[0].ip
    requires agentExtraArgsSt == ExtraArgsClause(cfg.agentExtraArgs) && bgStr == BackgroundSuffix(cfg.background)
    requires Planned(hosts, i, cfg, before)
    requires after == before + WorkerAnnouncement(ordinal)
                      + WorkerJoinText(host.ip, primaryIp, cfg.user, agentExtraArgsSt, bgStr)
    requires next == i + 1
    ensures Planned(hosts, next, cfg, after)
  {
    CounterStep(i, cfg.servers);
    assert RoleAt(i, cfg.servers) == Worker(ordinal);
    var join := WorkerJoinText(host.ip, primaryIp, cfg.user, agentExtraArgsSt, bgStr);
    assert BlockAt(hosts, i, cfg).text == WorkerAnnouncement(ordinal) + join;
    Assoc(before, WorkerAnnouncement(ordinal), join);
    ScriptStep(hosts, i, cfg, before, before + BlockAt(hosts, i, cfg).text);
  }

  /** The planner loop. The clauses and the suffix that do not depend on the
      host are computed once; `serversAdded` counts the servers placed so far
      and `primaryServer` is the zero host until the first host is placed. */
  method MakePlan(hosts: seq<Host>, cfg: Config) returns (script: string)
    ensures script == Script(hosts, cfg)
  {
    var tlsSanStr := TlsSanClause(cfg.tlsSan);
    var bgStr := BackgroundSuffix(cfg.background);
    var serversAdded := 0;
    var primaryServer := Host("", "");
    script := Header;
    var serverExtraArgsSt := ExtraArgsClause(cfg.serverExtraArgs);
    var agentExtraArgsSt := ExtraArgsClause(cfg.agentExtraArgs);

    var i := 0;
    while i < |hosts|
      invariant i <= |hosts|
      invariant serversAdded == ServersAdded(i, cfg.servers)
      invariant i > 0 ==> primaryServer == hosts[0]
      invariant cfg.limit > 0 ==> i < cfg.limit
      invariant Planned(hosts, i, cfg, script)
    {
      var host := hosts[i];
      var next := i + 1;
      ghost var before := script;
      CounterStep(i, cfg.servers);
      if serversAdded == 0 {
        script := script + PrimaryAnnouncement;
        script := script + InstallText(host.ip, cfg.user, cfg.localPath, cfg.context,
                                       tlsSanStr, serverExtraArgsSt);
        script := script + TokenCaptureText(host.ip, cfg.user);
        PrimaryStep(hosts, i, next, cfg, before, script, host, tlsSanStr, serverExtraArgsSt);
        serversAdded := 1;
        primaryServer := host;
      } else if serversAdded < cfg.servers {
        script := script + ServerAnnouncement(serversAdded + 1);
        script := script + ServerJoinText(host.ip, primaryServer.ip, cfg.user, tlsSanStr,
                                          serverExtraArgsSt, bgStr);
        ServerStep(hosts, i, next, cfg, before, script, host, serversAdded + 1, primaryServer.ip,
                   tlsSanStr, serverExtraArgsSt, bgStr);
        serversAdded := serversAdded + 1;
      } else {
        script := script + WorkerAnnouncement((i + 1) - serversAdded);
        script := script + WorkerJoinText(host.ip, primaryServer.ip, cfg.user, agentExtraArgsSt, bgStr);
        WorkerStep(hosts, i, next, cfg, before, script, host, (i + 1) - serversAdded, primaryServer.ip,
                   agentExtraArgsSt, bgStr);
      }

      // The counter now covers the first `next` hosts.
      assert serversAdded == ServersAdded(next, cfg.servers);
      if cfg.limit > 0 && next >= cfg.limit {
        LimitReached(|hosts|, cfg.limit, i);
        break;
      }
      i := next;
    }
  }

  // ---------------------------------------------------------------------------
  // What the plan promises

  /** The roles of the blocks, in order. */
  function RolesOf(bs: seq<CommandBlock>): (rs: seq<Role>)
    ensures |rs| == |bs|
  {
    seq(|bs|, i requires 0 <= i < |bs| => bs[i].role)
  }

  /** Every plan starts with the header, and an empty host list yields the
      header alone. */
  lemma ScriptStartsWithHeader(hosts: seq<Host>, cfg: Config)
    ensures Header <= Script(hosts, cfg)
    ensures |hosts| == 0 ==> Script(hosts, cfg) == Header
  {
  }

  /** One block per processed host, in host order: all hosts when the limit
      is zero or negative, the first min(limit, n) otherwise. */
  lemma PlanCoversHosts(hosts: seq<Host>, cfg: Config)
    ensures var pb := PlanBlocks(hosts, cfg);
      && (cfg.limit <= 0 ==> |pb| == |hosts|)
      && (cfg.limit > 0 ==> |pb| == Min(cfg.limit, |hosts|))
      && forall j :: 0 <= j < |pb| ==> pb[j].address == hosts[j].ip
  {
  }

  /** A positive limit L gives the plan of the first L hosts with no limit. */
  lemma LimitIsTruncation(hosts: seq<Host>, cfg: Config)
    requires cfg.limit > 0
    ensures Script(hosts, cfg) == Script(hosts[..Min(cfg.limit, |hosts|)], cfg.(limit := 0))
  {
    var short := hosts[..Min(cfg.limit, |hosts|)];
    var unlimited := cfg.(limit := 0);
    forall j | 0 <= j < |short|
      ensures BlockAt(hosts, j, cfg) == BlockAt(short, j, unlimited)
    {
      var role := RoleAt(j, cfg.servers);
      assert BlockText(hosts[j], hosts[0], role, cfg) == BlockText(short[j], short[0], role, unlimited);
    }
    assert PlanBlocks(hosts, cfg) == PlanBlocks(short, unlimited);
  }

  /** The texts of a prefix of the blocks are a prefix of the texts of all
      of them. */
  lemma {:induction false} ConcatPrefix(bs: seq<CommandBlock>, k: nat)
    requires k <= |bs|
    ensures Concat(bs[..k]) <= Concat(bs)
    decreases |bs|
  {
    if k == |bs| {
      assert bs[..k] == bs;
    } else {
      var init := bs[..|bs| - 1];
      ConcatPrefix(init, k);
      assert init[..k] == bs[..k];
      assert Concat(bs) == Concat(init) + bs[|bs| - 1].text;
    }
  }

  lemma ScriptExtendsUnlimited(hosts: seq<Host>, more: seq<Host>, cfg: Config)
    requires cfg.limit <= 0
    ensures Script(hosts, cfg) <= Script(hosts + more, cfg)
  {
    var all := hosts + more;
    forall j | 0 <= j < |hosts|
      ensures BlockAt(hosts, j, cfg) == BlockAt(all, j, cfg)
    {
      assert all[j] == hosts[j] && all[0] == hosts[0];
    }
    var bs := BlocksUpTo(all, |all|, cfg);
    assert bs[..|hosts|] == BlocksUpTo(hosts, |hosts|, cfg);
    ConcatPrefix(bs, |hosts|);
  }

  /** Adding hosts at the end of the list only appends blocks: the earlier
      plan is a prefix of the later one, whatever the limit. */
  lemma ScriptExtends(hosts: seq<Host>, more: seq<Host>, cfg: Config)
    ensures Script(hosts, cfg) <= Script(hosts + more, cfg)
  {
    if cfg.limit <= 0 {
      ScriptExtendsUnlimited(hosts, more, cfg);
    } else {
      var all := hosts + more;
      var unlimited := cfg.(limit := 0);
      var m, k := Min(cfg.limit, |hosts|), Min(cfg.limit, |all|);
      assert m <= k;
      var short, rest := hosts[..m], all[m..k];
      assert all[..k] == short + rest;
      LimitIsTruncation(hosts, cfg);
      LimitIsTruncation(all, cfg);
      ScriptExtendsUnlimited(short, rest, unlimited);
    }
  }

  /** A `servers` setting of zero or less gives the same plan as 1: only the
      primary is a server. */
  lemma NonPositiveServersLikeOne(hosts: seq<Host>, cfg: Config)
    requires cfg.servers <= 0
    ensures Script(hosts, cfg) == Script(hosts, cfg.(servers := 1))
  {
    forall i: nat ensures RoleAt(i, cfg.servers) == RoleAt(i, 1) {
    }
    assert PlanBlocks(hosts, cfg) == PlanBlocks(hosts, cfg.(servers := 1));
  }

  /** The roles of the plan are those the counter-based assigner hands out;
      min(max(servers, 1), processed) blocks are server blocks and the rest
      are worker blocks; only the first block is the primary. */
  lemma PlanRoles(hosts: seq<Host>, cfg: Config)
    ensures var pb := PlanBlocks(hosts, cfg);
      && RolesOf(pb) == Tallied(|pb|, cfg.servers).roles
      && CountServers(RolesOf(pb)) == (if |pb| == 0 then 0 else Min(|pb|, ClampedServers(cfg.servers)))
      && CountWorkers(RolesOf(pb)) == |pb| - CountServers(RolesOf(pb))
      && forall j :: 0 <= j < |pb| ==> (pb[j].role.Primary? <==> j == 0)
  {
    var pb := PlanBlocks(hosts, cfg);
    assert RolesOf(pb) == RolesUpTo(|pb|, cfg.servers);
    TalliedAgrees(|pb|, cfg.servers);
    RoleCounts(|pb|, cfg.servers);
  }

  /** Each block is its announcement and its command; only the first block
      runs `k3sup install`, and only it is followed by the token capture. */
  lemma BlockCommand(hosts: seq<Host>, cfg: Config, j: nat)
    requires j < |PlanBlocks(hosts, cfg)|
    ensures var b := PlanBlocks(hosts, cfg)[j];
      var c := Invocation.CommandFor(hosts[j], hosts[0], b.role, cfg);
      && b.text == Announcement(b.role) + Invocation.RenderCommand(c)
                   + (if j == 0 then TokenCaptureText(b.address, cfg.user) else "")
      && (c.verb == Invocation.Install <==> j == 0)
  {
    var role := RoleAt(j, cfg.servers);
    Invocation.BlockTextRendersCommand(hosts[j], hosts[0], role, cfg);
    Invocation.OnlyPrimaryInstalls(hosts[j], hosts[0], role, cfg);
  }

  /** Every join block, of a server or a worker, names the primary's address
      after `--server-host` and passes the captured token. */
  lemma JoinsReferencePrimary(hosts: seq<Host>, cfg: Config, j: nat)
    requires 0 < j < |PlanBlocks(hosts, cfg)|
    ensures var pb := PlanBlocks(hosts, cfg);
      && pb[0].role == Primary
      && Invocation.Contains(pb[j].text, "--server-host " + pb[0].address)
      && Invocation.Contains(pb[j].text, "--node-token \"$NODE_TOKEN\"")
  {
    var pb := PlanBlocks(hosts, cfg);
    var role := RoleAt(j, cfg.servers);
    assert pb[j].text == BlockText(hosts[j], hosts[0], role, cfg);
    assert pb[0].address == hosts[0].ip;
    Invocation.JoinBlockReferencesPrimary(hosts[j], hosts[0], role, cfg);
  }

  /** No two blocks of a plan are announced with the same line. */
  lemma AnnouncementsDistinct(hosts: seq<Host>, cfg: Config, j: nat, k: nat)
    requires j < k < |PlanBlocks(hosts, cfg)|
    ensures Announcement(PlanBlocks(hosts, cfg)[j].role) != Announcement(PlanBlocks(hosts, cfg)[k].role)
  {
    var pb := PlanBlocks(hosts, cfg);
    if Announcement(pb[j].role) == Announcement(pb[k].role) {
      AnnouncementInjective(pb[j].role, pb[k].role);
      RoleAtInjective(j, k, cfg.servers);
    }
  }

  /** Four hosts with the default settings: three servers, then a worker;
      with `servers` at zero only the primary is a server; a limit of two
      keeps the primary and one additional server. */
  lemma ExamplePlans()
    ensures var hosts := [Host("node-1", "10.0.0.1"), Host("node-2", "10.0.0.2"),
                          Host("node-3", "10.0.0.3"), Host("node-4", "10.0.0.4")];
      var cfg := Config(3, "root", "kubeconfig", "default", "", "", "", false, 0);
      && RolesOf(PlanBlocks(hosts, cfg)) == [Primary, AdditionalServer(2), AdditionalServer(3), Worker(1)]
      && RolesOf(PlanBlocks(hosts, cfg.(servers := 0))) == [Primary, Worker(1), Worker(2), Worker(3)]
      && RolesOf(PlanBlocks(hosts, cfg.(limit := 2))) == [Primary, AdditionalServer(2)]
  {
  }
}
